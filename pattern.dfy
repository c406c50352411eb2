/**
 * An anchored regular expression made of counted character classes, and the
 * one expression the clients test phone numbers with: `^\+[1-9]\d{1,14}$`.
 * The matcher backtracks over every repetition count, so it decides exactly
 * what a full-string regex match decides.
 */
module Pattern {
  import opened Text

  datatype CharClass = Exact(c: char) | Range(lo: char, hi: char)

  /** One element of the pattern: a class repeated between `min` and `max` times. */
  datatype Piece = Piece(cls: CharClass, min: nat, max: nat)

  predicate InClass(k: CharClass, c: char) {
    match k
    case Exact(x) => c == x
    case Range(lo, hi) => lo <= c <= hi
  }

  /** `^p$`: the whole of `s` is matched by the pieces `p` in order. */
  predicate Matches(p: seq<Piece>, s: string)
    decreases |s|, |p|, 1
  {
    if p == [] then s == [] else MatchFrom(p[0], 0, p[1..], s)
  }

  /** `k` repetitions of `pc` are already consumed; match the rest of `s` against more of `pc` then `rest`. */
  predicate MatchFrom(pc: Piece, k: nat, rest: seq<Piece>, s: string)
    decreases |s|, |rest| + 1, 0
  {
    (pc.min <= k && Matches(rest, s))
    || (k < pc.max && s != [] && InClass(pc.cls, s[0]) && MatchFrom(pc, k + 1, rest, s[1..]))
  }

  /** `^\+[1-9]\d{1,14}$` (in JavaScript `\d` is `[0-9]`, and without the `m` flag `$` is the very end). */
  const E164Regex: seq<Piece> := [
    Piece(Exact('+'), 1, 1),
    Piece(Range('1', '9'), 1, 1),
    Piece(Range('0', '9'), 1, 14)
  ]

  /** The phone check of the client scripts: `phone.match(/^\+[1-9]\d{1,14}$/)` is truthy. */
  function ValidPhone(s: string): (r: bool)
    ensures r <==> E164Shaped(s)
  {
    ValidPhoneIffShaped(s);
    Matches(E164Regex, s)
  }

  /**
   * The shape the expression describes, written directly: a plus sign, a
   * leading digit 1 to 9 and then 1 to 14 further digits, nothing else.
   * Clause 6 of ITU-T Recommendation E.164 limits a number to 15 digits and
   * forbids a country code starting with 0.
   */
  predicate E164Shaped(s: string) {
    3 <= |s| <= 16 && s[0] == '+' && '1' <= s[1] <= '9' && AllDigits(s[2..])
  }

  /** The digit run `\d{1,14}` after `k` digits are consumed. */
  lemma {:induction false} DigitRun(k: nat, s: string)
    requires k <= 14
    ensures MatchFrom(E164Regex[2], k, [], s) <==> (1 <= k + |s| <= 14 && AllDigits(s))
    decreases |s|
  {
    var pc := E164Regex[2];
    if s == [] {
      assert Matches([], s);
    } else {
      assert !Matches([], s);
      if k < 14 {
        DigitRun(k + 1, s[1..]);
        if AllDigits(s) {
          assert IsDigit(s[0]);
          assert AllDigits(s[1..]) by {
            forall i | 0 <= i < |s[1..]| ensures IsDigit(s[1..][i]) { assert s[1..][i] == s[i + 1]; }
          }
        } else if IsDigit(s[0]) {
          var j :| 0 <= j < |s| && !IsDigit(s[j]);
          assert !IsDigit(s[1..][j - 1]);
        }
      }
    }
  }

  /** A piece that must occur exactly once consumes one character of its class. */
  lemma SingleStep(pc: Piece, rest: seq<Piece>, s: string)
    requires pc.min == 1 && pc.max == 1
    ensures MatchFrom(pc, 0, rest, s) <==> s != [] && InClass(pc.cls, s[0]) && Matches(rest, s[1..])
  {
    if s != [] {
      assert MatchFrom(pc, 1, rest, s[1..]) <==> Matches(rest, s[1..]);
    }
  }

  /** The matcher, run on the expression, accepts exactly the E.164-shaped strings. */
  lemma ValidPhoneIffShaped(s: string)
    ensures Matches(E164Regex, s) <==> E164Shaped(s)
  {
    var p := E164Regex;
    assert p[1..] == [p[1], p[2]] && p[1..][1..] == [p[2]] && p[1..][1..][1..] == [];
    SingleStep(p[0], p[1..], s);
    if s != [] {
      SingleStep(p[1], p[1..][1..], s[1..]);
    }
    if |s| >= 2 && s[0] == '+' && '1' <= s[1] <= '9' {
      DigitRun(0, s[2..]);
      assert s[1..][1..] == s[2..];
    }
  }

  /** An accepted phone has between 3 and 16 characters and at most 15 digits. */
  lemma ValidPhoneBounds(s: string)
    requires ValidPhone(s)
    ensures 3 <= |s| <= 16
    ensures DigitCount(s) == |s| - 1 <= 15
  {
    ValidPhoneIffShaped(s);
    DigitsOnlyLength(s);
    ValidPhoneDigits(s);
  }

  /** Stripping the non-digits of an accepted phone just removes its leading `+`. */
  lemma ValidPhoneDigits(s: string)
    requires ValidPhone(s)
    ensures |s| >= 3 && DigitsOnly(s) == s[1..]
  {
    ValidPhoneIffShaped(s);
    assert s[1..] == [s[1]] + s[2..];
    DigitsOnlyOfDigits(s[2..]);
    assert s == [s[0]] + s[1..];
    assert DigitsOnly(s) == DigitsOnly(s[1..]);
    assert AllDigits(s[1..]) by {
      forall i | 0 <= i < |s[1..]| ensures IsDigit(s[1..][i]) {
        if i > 0 { assert s[1..][i] == s[2..][i - 1]; }
      }
    }
    DigitsOnlyOfDigits(s[1..]);
  }

  /** A trailing newline is not accepted: `$` does not match before a final line feed. */
  lemma TrailingNewlineRejected(s: string)
    ensures !ValidPhone(s + "\n")
  {
    ValidPhoneIffShaped(s + "\n");
    if 3 <= |s + "\n"| {
      assert !IsDigit((s + "\n")[2..][|s| - 2]);
    }
  }
}
