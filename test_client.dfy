/** `test-client.js`: the call logger that stores every event it receives. */
module TestClient {
  import opened Common
  import opened Sequences
  import opened Text
  import opened Events
  import opened Agents

  /** `process.env.AGENT_PHONE_NUMBER || process.argv[2]`. */
  function PhoneSource(env: Option<string>, args: seq<string>): (r: Option<string>)
    ensures Truthy(env) ==> r == env
    ensures !Truthy(env) ==> r == Arg(args, 0)
  {
    Or(env, Arg(args, 0))
  }

  /**
   * The `agentConfig` literal; the phone is not checked for format. The id is
   * `call-logger-` then the phone's digits in their order, so a phone with no
   * digit gives the bare prefix.
   */
  function MakeConfig(phone: string): (c: AgentConfig)
    ensures |c.agentId| == 12 + DigitCount(phone)
    ensures c.agentId[..12] == "call-logger-"
    ensures c.agentId[12..] == DigitsOnly(phone)
    ensures AllDigits(c.agentId[12..]) && IsSubsequence(c.agentId[12..], phone)
    ensures c.agentId == "call-logger-" <==> forall i :: 0 <= i < |phone| ==> !IsDigit(phone[i])
    ensures c.agentNumber == phone
    ensures c.agentName == "Call Logger - " + phone
    ensures c.agentType == "call_processor"
  {
    var digits := DigitsOnly(phone);
    DigitsOnlyLength(phone);
    DigitsOnlyEmpty(phone);
    var id := "call-logger-" + digits;
    assert id[12..] == digits;
    assert id == "call-logger-" <==> digits == [] by {
      if id == "call-logger-" { assert |digits| == 0; }
    }
    AgentConfig(id, phone, "Call Logger - " + phone, "call_processor")
  }

  /** Start-up: exit when neither source gives a phone; any non-empty phone is accepted. */
  function Startup(env: Option<string>, args: seq<string>): (r: Result<AgentConfig, StartupError>)
    ensures r.Failure? <==> !Truthy(env) && (|args| == 0 || args[0] == "")
    ensures r.Failure? ==> r.error == MissingPhone
    ensures r.Success? ==> r.value.agentNumber == (if Truthy(env) then env.value else args[0])
    ensures r.Success? ==> r.value == MakeConfig(r.value.agentNumber)
  {
    var phone := PhoneSource(env, args);
    if !Truthy(phone) then Failure(MissingPhone) else Success(MakeConfig(phone.value))
  }

  /** One row for the `call_logs` table: the `type` column and the event's data. */
  datatype LogRow<P> = LogRow(logType: string, data: P)

  /** Each handler labels the row with its own event's name and keeps the data as received. */
  function LogRowFor<P>(e: EventType, data: P): (row: LogRow<P>)
    ensures row.data == data
    ensures row.logType in ValidTypes && Parse(row.logType) == Some(e)
  {
    match e
    case IncomingCall => LogRow("incomingCall", data)
    case OutgoingCall => LogRow("outgoingCall", data)
    case CallRecording => LogRow("callRecording", data)
  }
}
