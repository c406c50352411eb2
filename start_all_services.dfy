/**
 * `start-all-services.js`: the launcher that starts the other scripts as
 * child processes, prefixes each line they print with the service's name,
 * and stops them all on Ctrl+C.
 */
module StartAllServices {
  import opened Common
  import opened Text
  import opened Sequences

  /** The ANSI codes around a tag. */
  const Reset := "\U{1B}[0m"
  const DefaultColor := "\U{1B}[36m"

  // ---------------------------------------------------------------------
  // The output transform of the `data` handlers
  // ---------------------------------------------------------------------

  /** `.filter(line => line.trim())`: keep the pieces whose trimmed form is not empty. */
  function KeepNonBlank(pieces: seq<string>): (r: seq<string>)
    ensures forall x :: multiset(r)[x] == if IsBlank(x) then 0 else multiset(pieces)[x]
    ensures forall x :: x in r <==> x in pieces && !IsBlank(x)
  {
    if pieces == [] then []
    else
      var head, rest := pieces[0], pieces[1..];
      var kept := KeepNonBlank(rest);
      TrimEmptyIffBlank(head);
      assert multiset(pieces) == multiset([head]) + multiset(rest) by { assert pieces == [head] + rest; }
      var r := (if Trim(head) != "" then [head] else []) + kept;
      assert multiset(r) == (if IsBlank(head) then multiset{} else multiset([head])) + multiset(kept);
      r
  }

  /** One step of the filter: the first piece is kept exactly when it is not blank. */
  lemma KeepNonBlankStep(pieces: seq<string>)
    requires pieces != []
    ensures KeepNonBlank(pieces) == (if IsBlank(pieces[0]) then [] else [pieces[0]]) + KeepNonBlank(pieces[1..])
  {
    TrimEmptyIffBlank(pieces[0]);
  }

  /** The pieces that survive keep their original order. */
  lemma {:induction false} KeepNonBlankSubsequence(pieces: seq<string>)
    ensures IsSubsequence(KeepNonBlank(pieces), pieces)
  {
    if pieces != [] {
      var r, kept := KeepNonBlank(pieces), KeepNonBlank(pieces[1..]);
      KeepNonBlankSubsequence(pieces[1..]);
      KeepNonBlankStep(pieces);
      if !IsBlank(pieces[0]) {
        assert r == [pieces[0]] + kept;
        assert r[1..] == kept;
      } else {
        assert r == kept;
        if r != [] { assert r[0] in kept; }
      }
    }
  }

  /** When no piece is blank, nothing is dropped. */
  lemma KeepNonBlankAll(pieces: seq<string>)
    requires forall i :: 0 <= i < |pieces| ==> !IsBlank(pieces[i])
    ensures KeepNonBlank(pieces) == pieces
  {
    var r := KeepNonBlank(pieces);
    forall x | IsBlank(x) ensures x !in pieces {
      forall i | 0 <= i < |pieces| ensures pieces[i] != x { assert !IsBlank(pieces[i]); }
    }
    assert multiset(r) == multiset(pieces);
    assert |r| == |multiset(r)| == |multiset(pieces)| == |pieces|;
    KeepNonBlankSubsequence(pieces);
    SubsequenceSameLength(r, pieces);
  }

  /**
   * `data.toString().split('\n').filter(line => line.trim())`: the pieces
   * between line feeds that are not blank, each as often as it occurs, in
   * the chunk's order and untrimmed.
   */
  function KeptLines(chunk: string): (r: seq<string>)
    ensures IsSubsequence(r, Split(chunk, '\n'))
    ensures forall x :: multiset(r)[x] == if IsBlank(x) then 0 else multiset(Split(chunk, '\n'))[x]
    ensures forall i :: 0 <= i < |r| ==> '\n' !in r[i] && !IsBlank(r[i]) && Trim(r[i]) != ""
  {
    var pieces := Split(chunk, '\n');
    KeepNonBlankSubsequence(pieces);
    KeptPieces(pieces, '\n');
    KeepNonBlank(pieces)
  }

  /** Each kept piece is a non-blank piece of the list, so it keeps every property all the pieces share. */
  lemma KeptPieces(pieces: seq<string>, sep: char)
    requires forall i :: 0 <= i < |pieces| ==> sep !in pieces[i]
    ensures forall i :: 0 <= i < |KeepNonBlank(pieces)| ==>
              sep !in KeepNonBlank(pieces)[i] && !IsBlank(KeepNonBlank(pieces)[i]) && Trim(KeepNonBlank(pieces)[i]) != ""
  {
    var r := KeepNonBlank(pieces);
    forall i | 0 <= i < |r| ensures sep !in r[i] && !IsBlank(r[i]) && Trim(r[i]) != "" {
      assert r[i] in r;
      var j :| 0 <= j < |pieces| && pieces[j] == r[i];
      TrimEmptyIffBlank(r[i]);
    }
  }

  /** `lines.forEach(line => console.log(prefix + line))`. */
  function Prefixed(prefix: string, lines: seq<string>): (r: seq<string>)
    ensures |r| == |lines|
    ensures forall i :: 0 <= i < |r| ==> r[i] == prefix + lines[i]
  {
    if lines == [] then [] else [prefix + lines[0]] + Prefixed(prefix, lines[1..])
  }

  /** `${color}[${description}]\x1b[0m `: the colour, the bracketed name, the reset code and a space. */
  function StdoutTag(description: string, color: string): (t: string)
    ensures |t| == |color| + |description| + 2 + |Reset| + 1
    ensures t[..|color|] == color
    ensures t[|color|..|color| + |description| + 2] == "[" + description + "]"
    ensures t[|color| + |description| + 2..] == Reset + " "
  {
    var t := color + "[" + description + "]" + Reset + " ";
    assert t == color + ("[" + description + "]") + (Reset + " ");
    t
  }

  /** `${color}[${description} ERROR]\x1b[0m `: as the stdout tag, with ` ERROR` inside the brackets. */
  function StderrTag(description: string, color: string): (t: string)
    ensures |t| == |color| + |description| + 8 + |Reset| + 1
    ensures t[..|color|] == color
    ensures t[|color|..|color| + |description| + 8] == "[" + description + " ERROR]"
    ensures t[|color| + |description| + 8..] == Reset + " "
  {
    var t := color + "[" + description + " ERROR]" + Reset + " ";
    assert t == color + ("[" + description + " ERROR]") + (Reset + " ");
    t
  }

  /** For one service the two tags differ: stderr lines can be told from stdout lines. */
  lemma TagsDiffer(description: string, color: string)
    ensures StdoutTag(description, color) != StderrTag(description, color)
  {
    var o, e := StdoutTag(description, color), StderrTag(description, color);
    var k := |color| + 1 + |description|;
    assert o[k] == ']';
    assert e[k] == ' ';
  }

  /** The lines the stdout handler prints for one chunk: each kept line, in order, after the stdout tag. */
  function StdoutLines(chunk: string, description: string, color: string): (r: seq<string>)
    ensures |r| == |KeptLines(chunk)|
    ensures forall i :: 0 <= i < |r| ==> r[i] == StdoutTag(description, color) + KeptLines(chunk)[i]
  {
    Prefixed(StdoutTag(description, color), KeptLines(chunk))
  }

  /** The lines the stderr handler prints for one chunk: each kept line, in order, after the stderr tag. */
  function StderrLines(chunk: string, description: string, color: string): (r: seq<string>)
    ensures |r| == |KeptLines(chunk)|
    ensures forall i :: 0 <= i < |r| ==> r[i] == StderrTag(description, color) + KeptLines(chunk)[i]
  {
    Prefixed(StderrTag(description, color), KeptLines(chunk))
  }

  /** A non-blank chunk with no line feed is printed as exactly one line. */
  lemma SingleLineChunk(chunk: string, description: string, color: string)
    requires '\n' !in chunk && !IsBlank(chunk)
    ensures StdoutLines(chunk, description, color) == [StdoutTag(description, color) + chunk]
    ensures StderrLines(chunk, description, color) == [StderrTag(description, color) + chunk]
  {
    SplitWithoutSep(chunk, '\n');
    KeepNonBlankAll([chunk]);
  }

  /** When no line of a chunk is blank, the printed lines are the whole chunk: joined back, they give it again. */
  lemma NothingLostWithoutBlankLines(chunk: string)
    requires forall p :: p in Split(chunk, '\n') ==> !IsBlank(p)
    ensures Join(KeptLines(chunk), '\n') == chunk
  {
    var pieces := Split(chunk, '\n');
    forall i | 0 <= i < |pieces| ensures !IsBlank(pieces[i]) { assert pieces[i] in pieces; }
    KeepNonBlankAll(pieces);
    JoinSplit(chunk, '\n');
  }

  // ---------------------------------------------------------------------
  // The `processes` list and the shutdown loop
  // ---------------------------------------------------------------------

  /** A spawned child process, as returned by `spawn`. */
  type ChildId = nat

  /** One `{ child, description }` entry of `processes`. */
  datatype Service = Service(child: ChildId, description: string)

  /** One `child.kill(signal)` call. */
  datatype Kill = Kill(child: ChildId, signal: string)

  /** `color = '\x1b[36m'`: the default parameter of `startService`. */
  function ColorOrDefault(color: Option<string>): (c: string)
    ensures color.Some? ==> c == color.value
    ensures color.None? ==> c == DefaultColor
  {
    if color.Some? then color.value else DefaultColor
  }

  /** How many kills go to `c`. */
  function KillsTo(kills: seq<Kill>, c: ChildId): nat {
    if kills == [] then 0 else (if kills[0].child == c then 1 else 0) + KillsTo(kills[1..], c)
  }

  /** How many recorded entries hold `c`. */
  function EntriesOf(ps: seq<Service>, c: ChildId): nat {
    if ps == [] then 0 else (if ps[0].child == c then 1 else 0) + EntriesOf(ps[1..], c)
  }

  /** A child is signalled as many times as it was recorded: once, for a child started once. */
  lemma {:induction false} KillsMatchEntries(ps: seq<Service>, kills: seq<Kill>, c: ChildId)
    requires |kills| == |ps|
    requires forall i :: 0 <= i < |ps| ==> kills[i] == Kill(ps[i].child, "SIGINT")
    ensures KillsTo(kills, c) == EntriesOf(ps, c)
  {
    if ps != [] {
      KillsMatchEntries(ps[1..], kills[1..], c);
    }
  }

  class ServiceManager {
    /** `processes`, in start order. */
    var processes: seq<Service>

    constructor ()
      ensures processes == []
    {
      processes := [];
    }

    /**
     * `startService(scriptName, description, color)` once `spawn` has
     * returned `child`: the entry is appended, and the tags its output
     * handlers will print with are returned.
     */
    method StartService(child: ChildId, description: string, color: Option<string>)
      returns (outTag: string, errTag: string)
      modifies this
      ensures processes == old(processes) + [Service(child, description)]
      ensures outTag == StdoutTag(description, ColorOrDefault(color))
      ensures errTag == StderrTag(description, ColorOrDefault(color))
    {
      var c := ColorOrDefault(color);
      processes := processes + [Service(child, description)];
      outTag, errTag := StdoutTag(description, c), StderrTag(description, c);
    }

    /**
     * The SIGINT handler's loop: for each recorded service, in start order,
     * a `Stopping <description>...` notice and one `kill('SIGINT')`. The list
     * itself is left as it is.
     */
    method Shutdown() returns (kills: seq<Kill>, notices: seq<string>)
      ensures |kills| == |processes| && |notices| == |processes|
      ensures forall i :: 0 <= i < |processes| ==>
                kills[i] == Kill(processes[i].child, "SIGINT")
                && notices[i] == "   Stopping " + processes[i].description + "..."
    {
      kills, notices := [], [];
      for i := 0 to |processes|
        invariant |kills| == i && |notices| == i
        invariant forall k :: 0 <= k < i ==>
                    kills[k] == Kill(processes[k].child, "SIGINT")
                    && notices[k] == "   Stopping " + processes[k].description + "..."
      {
        kills := kills + [Kill(processes[i].child, "SIGINT")];
        notices := notices + ["   Stopping " + processes[i].description + "..."];
      }
    }
  }

  /** Three services started in turn are stopped in that order. */
  method Launch(a: ChildId, b: ChildId, c: ChildId)
  {
    var m := new ServiceManager();
    var o, e := m.StartService(a, "Database Service", Some("\U{1B}[32m"));
    o, e := m.StartService(b, "Test Agent 1", Some("\U{1B}[33m"));
    o, e := m.StartService(c, "Android Simulation", Some("\U{1B}[35m"));
    var kills, notices := m.Shutdown();
    assert kills == [Kill(a, "SIGINT"), Kill(b, "SIGINT"), Kill(c, "SIGINT")];
  }
}
