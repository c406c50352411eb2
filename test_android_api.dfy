/** `test-android-api.js`: the target default and the listing of connected mobile clients. */
module TestAndroidApi {
  import opened Common
  import opened Sequences
  import opened Agents
  import AndroidClient

  const DefaultTarget := "+919876543210"

  /** `process.argv[2] || '+919876543210'`: any non-empty argument, unvalidated, else the default. */
  function Target(args: seq<string>): (t: string)
    ensures |args| > 0 && args[0] != "" ==> t == args[0]
    ensures !(|args| > 0 && args[0] != "") ==> t == DefaultTarget
  {
    OrWithDefault(Arg(args, 0), DefaultTarget);
    Or(Arg(args, 0), Some(DefaultTarget)).value
  }

  /** The filter callback `agent.agentType === 'mobile_client'`: the type the Android client registers with. */
  function IsMobile(a: AgentConfig): (r: bool)
    ensures r <==> a.agentType == AndroidClient.MobileType
  {
    a.agentType == "mobile_client"
  }

  /** Every configuration the Android client builds passes the filter. */
  lemma AndroidConfigIsMobile(phone: string)
    ensures IsMobile(AndroidClient.MakeConfig(phone))
  {
  }

  /** `agents.filter(agent => agent.agentType === 'mobile_client')`. */
  function MobileClients(agents: seq<AgentConfig>): (r: seq<AgentConfig>)
    ensures forall a :: multiset(r)[a] == if IsMobile(a) then multiset(agents)[a] else 0
    ensures forall a :: a in r <==> a in agents && IsMobile(a)
  {
    if agents == [] then []
    else
      var head, rest := agents[0], agents[1..];
      var mobile := MobileClients(rest);
      assert multiset(agents) == multiset([head]) + multiset(rest) by { assert agents == [head] + rest; }
      var r := (if IsMobile(head) then [head] else []) + mobile;
      assert multiset(r) == (if IsMobile(head) then multiset([head]) else multiset{}) + multiset(mobile);
      r
  }

  /** The filter keeps the agents' order: its result is a subsequence of the list, so no longer. */
  lemma {:induction false} MobileClientsSubsequence(agents: seq<AgentConfig>)
    ensures IsSubsequence(MobileClients(agents), agents)
    ensures |MobileClients(agents)| <= |agents|
  {
    if agents != [] {
      MobileClientsSubsequence(agents[1..]);
      var r := MobileClients(agents);
      if IsMobile(agents[0]) {
        assert r[0] == agents[0] && r[1..] == MobileClients(agents[1..]);
      } else {
        assert r == MobileClients(agents[1..]);
        if r != [] { assert r[0] != agents[0]; }
      }
    }
    SubsequenceLength(MobileClients(agents), agents);
  }

  /** A list of mobile clients only passes the filter unchanged. */
  lemma {:induction false} MobileClientsOfMobile(agents: seq<AgentConfig>)
    requires forall i :: 0 <= i < |agents| ==> IsMobile(agents[i])
    ensures MobileClients(agents) == agents
  {
    if agents != [] {
      var rest := agents[1..];
      assert forall i :: 0 <= i < |rest| ==> IsMobile(rest[i]) by {
        forall i | 0 <= i < |rest| ensures IsMobile(rest[i]) { assert rest[i] == agents[i + 1]; }
      }
      MobileClientsOfMobile(rest);
      assert IsMobile(agents[0]);
      calc {
        MobileClients(agents);
        [agents[0]] + MobileClients(rest);
        [agents[0]] + rest;
        agents;
      }
    }
  }

  /** Filtering a second time changes nothing. */
  lemma MobileClientsIdempotent(agents: seq<AgentConfig>)
    ensures MobileClients(MobileClients(agents)) == MobileClients(agents)
  {
    var r := MobileClients(agents);
    forall i | 0 <= i < |r| ensures IsMobile(r[i]) { assert r[i] in r; }
    MobileClientsOfMobile(r);
  }

  /** What `checkConnectedAgents` reports. */
  datatype Listing = NoMobileClients | MobileClientList(lines: seq<string>)

  /** Each connected mobile client is listed as `   <number> - <name>`. */
  function ListingLine(a: AgentConfig): (r: string)
    ensures |r| == |a.agentNumber| + |a.agentName| + 6
    ensures r[..3] == "   " && r[3..3 + |a.agentNumber|] == a.agentNumber
    ensures r[3 + |a.agentNumber|..6 + |a.agentNumber|] == " - " && r[6 + |a.agentNumber|..] == a.agentName
  {
    var r := "   " + a.agentNumber + " - " + a.agentName;
    assert r == "   " + a.agentNumber + (" - " + a.agentName);
    r
  }

  function ListingLines(clients: seq<AgentConfig>): (r: seq<string>)
    ensures |r| == |clients|
    ensures forall i :: 0 <= i < |r| ==> r[i] == ListingLine(clients[i])
  {
    if clients == [] then [] else [ListingLine(clients[0])] + ListingLines(clients[1..])
  }

  /** The branch on `mobileClients.length > 0`. */
  function CheckConnectedAgents(agents: seq<AgentConfig>): (l: Listing)
    ensures l == NoMobileClients <==> forall a :: a in agents ==> !IsMobile(a)
    ensures l.MobileClientList? ==>
              && |l.lines| == |MobileClients(agents)|
              && forall i :: 0 <= i < |l.lines| ==> l.lines[i] == ListingLine(MobileClients(agents)[i])
  {
    var clients := MobileClients(agents);
    if |clients| > 0 then
      assert clients[0] in clients;
      MobileClientList(ListingLines(clients))
    else
      assert forall a :: a in agents ==> !IsMobile(a);
      NoMobileClients
  }
}
