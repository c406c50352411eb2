/** `test-api-production.js`: the payloads the production test sends for one target number. */
module TestApiProduction {
  import opened Common
  import opened Text
  import opened Pattern
  import opened Agents

  /** The far end of every test call. */
  const FixedPeer := "+911234567890"

  /** The payload of an `incomingCall` or `outgoingCall` test. */
  datatype CallData = CallData(callId: string, from: string, to: string, timestamp: string, duration: nat, status: string)

  /** The payload of the `callRecording` test. */
  datatype RecordingData = RecordingData(callId: string, recordingUrl: string, duration: nat, timestamp: string)

  datatype TestData = TestData(incomingCall: CallData, outgoingCall: CallData, callRecording: RecordingData)

  /** The clock readings the `testData` literal takes: `Date.now()` and `new Date().toISOString()` per payload. */
  datatype Clock = Clock(
    incomingNow: nat, incomingIso: string,
    outgoingNow: nat, outgoingIso: string,
    recordingNow: nat, recordingIso: string)

  /** `` `call-${ms}` ``: the prefix, then the decimal digits that read back as `ms`. */
  function CallId(ms: nat): (r: string)
    ensures |r| >= 6 && r[..5] == "call-"
    ensures AllDigits(r[5..]) && ParseDecimal(r[5..]) == ms
  {
    var digits := NatToString(ms);
    ParseNatToString(ms);
    var r := "call-" + digits;
    assert r[5..] == digits;
    r
  }

  /**
   * The `testData` literal. The incoming test calls the target from the fixed
   * peer and the outgoing one reverses the two ends; each call id reads back
   * as the clock reading it was made from (plus one for the outgoing call).
   */
  function MakeTestData(target: string, clock: Clock): (d: TestData)
    ensures d.incomingCall.to == target && d.incomingCall.from == FixedPeer
    ensures d.outgoingCall.from == target && d.outgoingCall.to == FixedPeer
    ensures d.incomingCall.status == "ringing" && d.outgoingCall.status == "dialing"
    ensures d.incomingCall.duration == 0 && d.outgoingCall.duration == 0 && d.callRecording.duration == 120
    ensures d.incomingCall.timestamp == clock.incomingIso && d.outgoingCall.timestamp == clock.outgoingIso
    ensures d.callRecording.timestamp == clock.recordingIso
    ensures d.callRecording.recordingUrl == "https://example.com/recording.mp3"
    ensures |d.incomingCall.callId| >= 6 && d.incomingCall.callId[..5] == "call-" && AllDigits(d.incomingCall.callId[5..])
    ensures ParseDecimal(d.incomingCall.callId[5..]) == clock.incomingNow
    ensures |d.outgoingCall.callId| >= 6 && d.outgoingCall.callId[..5] == "call-" && AllDigits(d.outgoingCall.callId[5..])
    ensures ParseDecimal(d.outgoingCall.callId[5..]) == clock.outgoingNow + 1
    ensures |d.callRecording.callId| >= 6 && d.callRecording.callId[..5] == "call-" && AllDigits(d.callRecording.callId[5..])
    ensures ParseDecimal(d.callRecording.callId[5..]) == clock.recordingNow
  {
    TestData(
      CallData(CallId(clock.incomingNow), FixedPeer, target, clock.incomingIso, 0, "ringing"),
      CallData(CallId(clock.outgoingNow + 1), target, FixedPeer, clock.outgoingIso, 0, "dialing"),
      RecordingData(CallId(clock.recordingNow), "https://example.com/recording.mp3", 120, clock.recordingIso))
  }

  /** When the clock does not go backwards, the incoming and outgoing tests carry different call ids. */
  lemma CallIdsDiffer(target: string, clock: Clock)
    requires clock.incomingNow <= clock.outgoingNow
    ensures MakeTestData(target, clock).incomingCall.callId != MakeTestData(target, clock).outgoingCall.callId
  {
    var d := MakeTestData(target, clock);
    assert ParseDecimal(d.incomingCall.callId[5..]) != ParseDecimal(d.outgoingCall.callId[5..]);
  }

  /** Start-up: a missing target exits, then a target failing `^\+[1-9]\d{1,14}$` exits. */
  function Startup(args: seq<string>): (r: Result<string, StartupError>)
    ensures r == Failure(MissingPhone) <==> |args| == 0 || args[0] == ""
    ensures r == Failure(InvalidPhone) <==> |args| > 0 && args[0] != "" && !E164Shaped(args[0])
    ensures r.Success? ==> r.value == args[0] && E164Shaped(r.value)
  {
    if !Truthy(Arg(args, 0)) then Failure(MissingPhone)
    else
      ValidPhoneIffShaped(args[0]);
      if !ValidPhone(args[0]) then Failure(InvalidPhone)
      else Success(args[0])
  }

  /** `agents.map(agent => agent.agentNumber)`. */
  function ConnectedNumbers(agents: seq<AgentConfig>): (r: seq<string>)
    ensures |r| == |agents|
    ensures forall i :: 0 <= i < |r| ==> r[i] == agents[i].agentNumber
  {
    if agents == [] then [] else [agents[0].agentNumber] + ConnectedNumbers(agents[1..])
  }

  /** The body `{ agentNumbers, ...testData.incomingCall }`. */
  datatype MultiNumberBody = MultiNumberBody(
    agentNumbers: seq<string>,
    callId: string, from: string, to: string, timestamp: string, duration: nat, status: string)

  /** Test 6: the multi-number request, made only when more than one agent is listed. */
  function MultiNumberRequest(agents: seq<AgentConfig>, call: CallData): (r: Option<MultiNumberBody>)
    ensures r.Some? <==> |agents| > 1
    ensures r.Some? ==>
              && |r.value.agentNumbers| == |agents|
              && (forall i :: 0 <= i < |agents| ==> r.value.agentNumbers[i] == agents[i].agentNumber)
              && r.value.callId == call.callId && r.value.from == call.from && r.value.to == call.to
              && r.value.timestamp == call.timestamp && r.value.duration == call.duration
              && r.value.status == call.status
  {
    if |agents| > 1 then
      Some(MultiNumberBody(ConnectedNumbers(agents),
        call.callId, call.from, call.to, call.timestamp, call.duration, call.status))
    else None
  }
}
