/** `android-client-example.js`: a mobile client registering the user's own number. */
module AndroidClient {
  import opened Common
  import opened Sequences
  import opened Text
  import opened Pattern
  import opened Agents

  const MobileType := "mobile_client"

  /**
   * The `agentConfig` literal built in the `connect` handler: the id is
   * `android-` then the phone's digits in their order (for an accepted phone,
   * the phone without its `+`); number, name and type follow the phone or are
   * fixed.
   */
  function MakeConfig(phone: string): (c: AgentConfig)
    ensures |c.agentId| == 8 + DigitCount(phone)
    ensures c.agentId[..8] == "android-"
    ensures AllDigits(c.agentId[8..]) && IsSubsequence(c.agentId[8..], phone)
    ensures E164Shaped(phone) ==> c.agentId == "android-" + phone[1..]
    ensures c.agentNumber == phone
    ensures c.agentName == "Android User " + phone
    ensures c.agentType == MobileType
  {
    var digits := DigitsOnly(phone);
    DigitsOnlyLength(phone);
    ValidPhoneIffShaped(phone);
    if ValidPhone(phone) then
      ValidPhoneDigits(phone);
      var id := "android-" + digits;
      assert id[8..] == digits;
      AgentConfig(id, phone, "Android User " + phone, MobileType)
    else
      var id := "android-" + digits;
      assert id[8..] == digits;
      AgentConfig(id, phone, "Android User " + phone, MobileType)
  }

  /** The type is the same for every phone: the client never chooses it. */
  lemma TypeIsFixed(p: string, q: string)
    ensures MakeConfig(p).agentType == MakeConfig(q).agentType == "mobile_client"
  {
  }

  /** Start-up: a missing phone exits, then a phone failing the E.164-shaped regex exits. */
  function Startup(args: seq<string>): (r: Result<AgentConfig, StartupError>)
    ensures r == Failure(MissingPhone) <==> |args| == 0 || args[0] == ""
    ensures r == Failure(InvalidPhone) <==> |args| > 0 && args[0] != "" && !E164Shaped(args[0])
    ensures r.Success? ==> E164Shaped(args[0]) && r.value == MakeConfig(args[0])
  {
    if !Truthy(Arg(args, 0)) then Failure(MissingPhone)
    else
      ValidPhoneIffShaped(args[0]);
      if !ValidPhone(args[0]) then Failure(InvalidPhone)
      else Success(MakeConfig(args[0]))
  }
}
