/** `example-agent.js`: a configurable agent that registers a phone number and a role. */
module ExampleAgent {
  import opened Common
  import opened Sequences
  import opened Text
  import opened Pattern
  import opened Events
  import opened Agents

  const DefaultAgentType := "call_processor"

  /** `process.argv[3] || 'call_processor'`. */
  function AgentType(args: seq<string>): (t: string)
    ensures t != ""
    ensures 1 < |args| && args[1] != "" ==> t == args[1]
    ensures !(1 < |args| && args[1] != "") ==> t == DefaultAgentType
  {
    OrWithDefault(Arg(args, 1), DefaultAgentType);
    Or(Arg(args, 1), Some(DefaultAgentType)).value
  }

  /**
   * The `agentConfig` literal: the id strips the phone to its digits, in
   * their order (for an accepted phone, the phone without its `+`), and the
   * name upper-cases only the first character of the type.
   */
  function MakeConfig(phone: string, agentType: string): (c: AgentConfig)
    ensures c.agentNumber == phone
    ensures c.agentType == agentType
    ensures |c.agentId| == |agentType| + 1 + DigitCount(phone)
    ensures c.agentId[..|agentType| + 1] == agentType + "-"
    ensures AllDigits(c.agentId[|agentType| + 1..]) && IsSubsequence(c.agentId[|agentType| + 1..], phone)
    ensures E164Shaped(phone) ==> c.agentId == agentType + "-" + phone[1..]
    ensures |c.agentName| == |agentType| + 3 + |phone|
    ensures agentType != [] ==> c.agentName[0] == ToUpper(agentType[0])
    ensures forall i :: 1 <= i < |agentType| ==> c.agentName[i] == agentType[i]
    ensures c.agentName[|agentType|..] == " - " + phone
  {
    var digits := DigitsOnly(phone);
    DigitsOnlyLength(phone);
    ValidPhoneIffShaped(phone);
    var id := agentType + "-" + digits;
    assert id[..|agentType| + 1] == agentType + "-" && id[|agentType| + 1..] == digits;
    var cap := Capitalize(agentType);
    var name := cap + (" - " + phone);
    assert forall i :: 1 <= i < |agentType| ==> name[i] == agentType[i] by {
      forall i | 1 <= i < |agentType| ensures name[i] == agentType[i] {
        assert name[i] == cap[i] == cap[1..][i - 1];
      }
    }
    if ValidPhone(phone) then
      ValidPhoneDigits(phone);
      AgentConfig(id, phone, name, agentType)
    else
      AgentConfig(id, phone, name, agentType)
  }

  /**
   * Start-up: the phone argument is required and must match
   * `^\+[1-9]\d{1,14}$`; otherwise the script exits before any
   * configuration exists.
   */
  function Startup(args: seq<string>): (r: Result<AgentConfig, StartupError>)
    ensures r == Failure(MissingPhone) <==> |args| == 0 || args[0] == ""
    ensures r == Failure(InvalidPhone) <==> |args| > 0 && args[0] != "" && !E164Shaped(args[0])
    ensures r.Success? ==> E164Shaped(args[0]) && r.value == MakeConfig(args[0], AgentType(args))
  {
    if !Truthy(Arg(args, 0)) then Failure(MissingPhone)
    else
      ValidPhoneIffShaped(args[0]);
      if !ValidPhone(args[0]) then Failure(InvalidPhone)
      else Success(MakeConfig(args[0], AgentType(args)))
  }

  /** What an agent does with a call event, chosen by its type. */
  datatype Handler = StoreCall | SendNotification | AnalyzeCall | NoHandler

  /** The `switch (agentConfig.agentType)` of the three event handlers. */
  function HandlerFor(agentType: string, e: EventType): (h: Handler)
    ensures h == StoreCall <==> agentType == "call_processor"
    ensures h == SendNotification <==> agentType == "notification_service"
    ensures h == AnalyzeCall <==> agentType == "analytics_processor"
  {
    match e
    case IncomingCall => RoleHandler(agentType)
    case OutgoingCall => RoleHandler(agentType)
    case CallRecording => RoleHandler(agentType)
  }

  function RoleHandler(agentType: string): Handler {
    if agentType == "call_processor" then StoreCall
    else if agentType == "notification_service" then SendNotification
    else if agentType == "analytics_processor" then AnalyzeCall
    else NoHandler
  }

  /** The choice depends on the agent's type only, never on which event arrived. */
  lemma HandlerSameForEveryEvent(agentType: string, e1: EventType, e2: EventType)
    ensures HandlerFor(agentType, e1) == HandlerFor(agentType, e2)
  {
  }
}
