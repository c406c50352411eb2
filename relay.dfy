/**
 * The broadcast relay of `index.js`: a set of live socket connections, kept
 * up to date by the `connection` and `disconnect` handlers, and the
 * `POST /api/:type` handler that forwards the request body to every one of
 * them.
 */
module Relay {
  import opened Text
  import opened Events

  /** A socket, known by its transport-assigned id. */
  type ConnId = string

  /** One `socket.emit(event, data)` call. */
  datatype Emit<P> = Emit(target: ConnId, event: string, data: P)

  /** An HTTP response: the status code and the JSON body `{status, message}`. */
  datatype Reply = Reply(code: nat, status: string, message: string)

  const InvalidType := Reply(400, "error", "Invalid event type")
  const NoClient := Reply(503, "error", "No socket client connected")

  /** The body of the success response (Express answers it with status 200). */
  function SuccessMessage(event: string, n: nat): (r: string)
    ensures |r| >= |event| + 15 + 1 + 10
    ensures r[..|event| + 15] == event + " event sent to "
    ensures r[|r| - 10..] == " client(s)"
    ensures AllDigits(r[|event| + 15..|r| - 10]) && ParseDecimal(r[|event| + 15..|r| - 10]) == n
  {
    var digits := NatToString(n);
    ParseNatToString(n);
    var r := event + " event sent to " + digits + " client(s)";
    assert r == (event + " event sent to ") + digits + " client(s)";
    assert r[|event| + 15..|r| - 10] == digits;
    r
  }

  /** Two success messages for one event agree only if they report the same count. */
  lemma SuccessMessageDeterminesCount(event: string, m: nat, n: nat)
    requires SuccessMessage(event, m) == SuccessMessage(event, n)
    ensures m == n
  {
    var pre, post := event + " event sent to ", " client(s)";
    var sm, sn := NatToString(m), NatToString(n);
    var msg := SuccessMessage(event, m);
    assert msg == pre + sm + post && msg == pre + sn + post;
    assert |sm| == |sn|;
    assert sm == msg[|pre|..|pre| + |sm|];
    assert sn == msg[|pre|..|pre| + |sn|];
    NatToStringInjective(m, n);
  }

  predicate NoDuplicates(s: seq<ConnId>) {
    forall i, j :: 0 <= i < j < |s| ==> s[i] != s[j]
  }

  function Elements(s: seq<ConnId>): set<ConnId> {
    set x | x in s
  }

  /** A duplicate-free sequence has as many elements as its set. */
  lemma {:induction false} ElementsSize(s: seq<ConnId>)
    requires NoDuplicates(s)
    ensures |Elements(s)| == |s|
  {
    if s != [] {
      var t := s[1..];
      assert NoDuplicates(t) by {
        forall i, j | 0 <= i < j < |t| ensures t[i] != t[j] { assert t[i] == s[i + 1] && t[j] == s[j + 1]; }
      }
      ElementsSize(t);
      assert s == [s[0]] + t;
      assert Elements(s) == {s[0]} + Elements(t);
      HeadNotInTail(s);
    }
  }

  /** In a duplicate-free sequence the first element does not recur. */
  lemma HeadNotInTail(s: seq<ConnId>)
    requires s != [] && NoDuplicates(s)
    ensures s[0] !in s[1..]
  {
    forall i | 0 <= i < |s[1..]| ensures s[1..][i] != s[0] { assert s[1..][i] == s[i + 1]; }
  }

  /** `Set.prototype.delete`: the sequence with `c` taken out, the rest in order. */
  function Without(s: seq<ConnId>, c: ConnId): (r: seq<ConnId>)
    ensures c !in r
    ensures forall x :: x != c ==> (x in r <==> x in s)
    ensures |r| <= |s|
  {
    if s == [] then []
    else (if s[0] == c then [] else [s[0]]) + Without(s[1..], c)
  }

  /** Deleting an absent socket changes nothing. */
  lemma {:induction false} WithoutAbsent(s: seq<ConnId>, c: ConnId)
    requires c !in s
    ensures Without(s, c) == s
  {
    if s != [] {
      WithoutAbsent(s[1..], c);
      assert [s[0]] + s[1..] == s;
    }
  }

  lemma {:induction false} WithoutAppend(a: seq<ConnId>, b: seq<ConnId>, c: ConnId)
    ensures Without(a + b, c) == Without(a, c) + Without(b, c)
  {
    if a == [] {
      assert a + b == b;
    } else {
      assert (a + b)[0] == a[0] && (a + b)[1..] == a[1..] + b;
      WithoutAppend(a[1..], b, c);
    }
  }

  /** Deleting a member of a duplicate-free sequence removes that one entry and keeps the others in order. */
  lemma DeleteExactlyOne(a: seq<ConnId>, b: seq<ConnId>, c: ConnId)
    requires c !in a && c !in b
    ensures Without(a + [c] + b, c) == a + b
  {
    WithoutAppend(a + [c], b, c);
    WithoutAppend(a, [c], c);
    WithoutAbsent(a, c);
    WithoutAbsent(b, c);
    assert Without([c], c) == [] by { assert [c][1..] == []; }
    assert Without(a + [c], c) == a;
  }

  /** Deletion keeps the sequence free of duplicates. */
  lemma {:induction false} WithoutNoDuplicates(s: seq<ConnId>, c: ConnId)
    requires NoDuplicates(s)
    ensures NoDuplicates(Without(s, c))
  {
    if s != [] {
      var t := s[1..];
      assert NoDuplicates(t) by {
        forall i, j | 0 <= i < j < |t| ensures t[i] != t[j] { assert t[i] == s[i + 1] && t[j] == s[j + 1]; }
      }
      WithoutNoDuplicates(t, c);
      HeadNotInTail(s);
    }
  }

  /** `emits` is one emit of `(event, data)` to each socket of `s`, in the set's iteration order. */
  ghost predicate IsFanout<P>(s: seq<ConnId>, emits: seq<Emit<P>>, event: string, data: P) {
    |emits| == |s| && forall k :: 0 <= k < |emits| ==> emits[k] == Emit(s[k], event, data)
  }

  /** How many of the emits go to socket `c`. */
  function Received<P>(emits: seq<Emit<P>>, c: ConnId): nat {
    if emits == [] then 0 else (if emits[0].target == c then 1 else 0) + Received(emits[1..], c)
  }

  /**
   * A fan-out over a duplicate-free sequence reaches every member exactly
   * once and nobody else, always with the event and the body unchanged.
   */
  lemma {:induction false} FanoutExactlyOnce<P>(s: seq<ConnId>, emits: seq<Emit<P>>, event: string, data: P, c: ConnId)
    requires NoDuplicates(s) && IsFanout(s, emits, event, data)
    ensures Received(emits, c) == if c in s then 1 else 0
    ensures forall k :: 0 <= k < |emits| ==> emits[k].event == event && emits[k].data == data
  {
    if s != [] {
      var t := s[1..];
      assert NoDuplicates(t) by {
        forall i, j | 0 <= i < j < |t| ensures t[i] != t[j] { assert t[i] == s[i + 1] && t[j] == s[j + 1]; }
      }
      assert IsFanout(t, emits[1..], event, data);
      FanoutExactlyOnce(t, emits[1..], event, data, c);
      assert c in s <==> c == s[0] || c in t by { assert s == [s[0]] + t; }
      HeadNotInTail(s);
    }
  }

  class Relay {
    /** `connectedSockets`, in the Set's insertion order. */
    var sockets: seq<ConnId>

    ghost predicate Valid()
      reads this
    {
      NoDuplicates(sockets)
    }

    function Members(): set<ConnId>
      reads this
    {
      Elements(sockets)
    }

    constructor ()
      ensures Valid() && sockets == [] && Members() == {}
    {
      sockets := [];
    }

    /** The `connection` handler: `connectedSockets.add(socket)`. */
    method Connect(c: ConnId)
      requires Valid()
      modifies this
      ensures Valid()
      ensures sockets == if c in old(sockets) then old(sockets) else old(sockets) + [c]
      ensures Members() == old(Members()) + {c}
    {
      if c !in sockets {
        sockets := sockets + [c];
      }
    }

    /** The socket's `disconnect` handler: `connectedSockets.delete(socket)`. */
    method Disconnect(c: ConnId)
      requires Valid()
      modifies this
      ensures Valid()
      ensures sockets == Without(old(sockets), c)
      ensures Members() == old(Members()) - {c}
      ensures c !in old(sockets) ==> sockets == old(sockets)
    {
      WithoutNoDuplicates(sockets, c);
      if c !in sockets {
        WithoutAbsent(sockets, c);
      }
      sockets := Without(sockets, c);
    }

    /**
     * `POST /api/:type` with `req.body` as `data`. The type is checked
     * first, then whether anyone is connected; the set itself is never
     * changed (the method modifies nothing).
     */
    method Post<P>(event: string, data: P) returns (reply: Reply, emits: seq<Emit<P>>)
      ensures event !in ValidTypes ==> reply == InvalidType && emits == []
      ensures event in ValidTypes && sockets == [] ==> reply == NoClient && emits == []
      ensures event in ValidTypes && sockets != [] ==>
        reply == Reply(200, "success", SuccessMessage(event, |sockets|)) && IsFanout(sockets, emits, event, data)
    {
      if event !in ValidTypes {
        return InvalidType, [];
      }
      if |sockets| > 0 {
        emits := [];
        for i := 0 to |sockets|
          invariant |emits| == i
          invariant forall k :: 0 <= k < i ==> emits[k] == Emit(sockets[k], event, data)
        {
          emits := emits + [Emit(sockets[i], event, data)];
        }
        reply := Reply(200, "success", SuccessMessage(event, |sockets|));
      } else {
        reply, emits := NoClient, [];
      }
    }

    /** The count in the success message is the size of the connection set. */
    lemma CountIsSetSize()
      requires Valid()
      ensures |Members()| == |sockets|
    {
      ElementsSize(sockets);
    }
  }

  /** A short session: what a caller can conclude from the contracts alone. */
  method Session(a: ConnId, b: ConnId)
    requires a != b
  {
    var relay := new Relay();
    var r, e := relay.Post("incomingCall", 7);
    assert r == NoClient && e == [];
    relay.Connect(a);
    assert relay.sockets == [a];
    relay.Connect(b);
    assert relay.sockets == [a, b];
    relay.Connect(a);
    assert relay.sockets == [a, b];
    r, e := relay.Post("hangup", 7);
    assert r == InvalidType && e == [];
    r, e := relay.Post("outgoingCall", 7);
    assert e == [Emit(a, "outgoingCall", 7), Emit(b, "outgoingCall", 7)];
  }

  /** Disconnecting a socket twice removes it once and leaves the other in place. */
  method DisconnectTwice(a: ConnId, b: ConnId)
    requires a != b
  {
    var relay := new Relay();
    relay.Connect(a);
    assert relay.sockets == [a];
    relay.Connect(b);
    assert relay.sockets == [a, b];
    DeleteExactlyOne([], [b], a);
    assert [a, b] == [] + [a] + [b];
    relay.Disconnect(a);
    relay.Disconnect(a);
    assert relay.sockets == [b];
  }
}
