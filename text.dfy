/**
 * String helpers standing in for the JavaScript built-ins the core calls:
 * `toLowerCase`/`toUpperCase` (ASCII only), `includes` on strings, number-to-string
 * interpolation, `split(/\s+/)` and `join`.
 */
module Text {

  function LowerChar(c: char): char {
    if 'A' <= c <= 'Z' then (c as int + 32) as char else c
  }

  function UpperChar(c: char): char {
    if 'a' <= c <= 'z' then (c as int - 32) as char else c
  }

  function Lower(s: string): (r: string)
    ensures |r| == |s|
    ensures forall i :: 0 <= i < |s| ==> r[i] == LowerChar(s[i])
  {
    if s == [] then [] else [LowerChar(s[0])] + Lower(s[1..])
  }

  function Upper(s: string): (r: string)
    ensures |r| == |s|
    ensures forall i :: 0 <= i < |s| ==> r[i] == UpperChar(s[i])
  {
    if s == [] then [] else [UpperChar(s[0])] + Upper(s[1..])
  }

  /** Lower-casing twice is lower-casing once. */
  lemma LowerIdempotent(s: string)
    ensures Lower(Lower(s)) == Lower(s)
  {
    assert forall i :: 0 <= i < |s| ==> LowerChar(LowerChar(s[i])) == LowerChar(s[i]);
  }

  /** `text.includes(pat)`: `pat` occurs somewhere in `text`. */
  predicate Contains(text: string, pat: string) {
    exists i :: 0 <= i <= |text| - |pat| && OccursAt(text, pat, i)
  }

  /** `pat` occurs in `text` starting at position `i`. */
  predicate OccursAt(text: string, pat: string, i: int) {
    0 <= i <= |text| - |pat| && text[i..i + |pat|] == pat
  }

  function DigitChar(d: nat): char
    requires d < 10
  {
    "0123456789"[d]
  }

  /** Decimal rendering of a natural number, as template interpolation prints it. */
  function NatToString(n: nat): (s: string)
    ensures |s| >= 1
  {
    if n < 10 then [DigitChar(n)] else NatToString(n / 10) + [DigitChar(n % 10)]
  }

  function IntToString(i: int): string {
    if i < 0 then "-" + NatToString(-i) else NatToString(i)
  }

  /** The ASCII characters matched by the regular-expression class `\s`. */
  predicate IsSpace(c: char) {
    c == ' ' || c == '\t' || c == '\n' || c == '\r' || c == '\U{B}' || c == '\U{C}'
  }

  function DropSpaces(s: string): (r: string)
    ensures |r| <= |s|
    ensures r == [] || !IsSpace(r[0])
  {
    if s != [] && IsSpace(s[0]) then DropSpaces(s[1..]) else s
  }

  /** The longest prefix of `s` without white space. */
  function TakeWord(s: string): (w: string)
    ensures |w| <= |s| && w == s[..|w|]
    ensures s != [] && !IsSpace(s[0]) ==> |w| >= 1
    ensures forall i :: 0 <= i < |w| ==> !IsSpace(w[i])
  {
    if s == [] || IsSpace(s[0]) then [] else [s[0]] + TakeWord(s[1..])
  }

  /**
   * The non-empty pieces of `s.split(/\s+/)`. The pieces JavaScript adds for leading or
   * trailing white space are empty; every caller discards them, so they are not produced.
   */
  function Words(s: string): (ws: seq<string>)
    ensures forall k :: 0 <= k < |ws| ==> |ws[k]| >= 1
    ensures forall k, i :: 0 <= k < |ws| && 0 <= i < |ws[k]| ==> !IsSpace(ws[k][i])
    decreases |s|
  {
    var t := DropSpaces(s);
    if t == [] then []
    else
      var w := TakeWord(t);
      [w] + Words(t[|w|..])
  }

  /** The characters of `s` that are not white space, in order. */
  function NonSpace(s: string): string {
    if s == [] then [] else (if IsSpace(s[0]) then [] else [s[0]]) + NonSpace(s[1..])
  }

  /** The pieces laid end to end. */
  function Concat(ws: seq<string>): string {
    if ws == [] then [] else ws[0] + Concat(ws[1..])
  }

  lemma {:induction false} DropSpacesNonSpace(s: string)
    ensures NonSpace(DropSpaces(s)) == NonSpace(s)
  {
    if s != [] && IsSpace(s[0]) {
      DropSpacesNonSpace(s[1..]);
    }
  }

  lemma {:induction false} TakeWordNonSpace(s: string)
    ensures NonSpace(s) == TakeWord(s) + NonSpace(s[|TakeWord(s)|..])
  {
    if s != [] && !IsSpace(s[0]) {
      TakeWordNonSpace(s[1..]);
      assert s[1..][|TakeWord(s[1..])|..] == s[|TakeWord(s)|..];
    }
  }

  /**
   * The words are the white-space-free runs of `s`: taken together they are exactly the
   * characters of `s` that are not white space, in order.
   */
  lemma {:induction false} WordsCover(s: string)
    ensures Concat(Words(s)) == NonSpace(s)
    decreases |s|
  {
    var t := DropSpaces(s);
    DropSpacesNonSpace(s);
    if t != [] {
      var w := TakeWord(t);
      TakeWordNonSpace(t);
      WordsCover(t[|w|..]);
      assert Words(s)[1..] == Words(t[|w|..]);
    }
  }

  /** What is left after the leading white space is a suffix, with white space just before it. */
  lemma {:induction false} DropSpacesSuffix(s: string)
    ensures DropSpaces(s) == s[|s| - |DropSpaces(s)|..]
    ensures |DropSpaces(s)| < |s| ==> IsSpace(s[|s| - |DropSpaces(s)| - 1])
  {
    if s != [] && IsSpace(s[0]) {
      DropSpacesSuffix(s[1..]);
      assert s[1..][|s| - 1 - |DropSpaces(s)|..] == s[|s| - |DropSpaces(s)|..];
      if |DropSpaces(s)| < |s| - 1 {
        assert s[1..][|s| - 1 - |DropSpaces(s)| - 1] == s[|s| - |DropSpaces(s)| - 1];
      }
    }
  }

  /** A word ends at white space or at the end. */
  lemma {:induction false} TakeWordEnds(s: string)
    ensures |TakeWord(s)| < |s| ==> IsSpace(s[|TakeWord(s)|])
  {
    if s != [] && !IsSpace(s[0]) {
      TakeWordEnds(s[1..]);
    }
  }

  /** `w` occurs in `s` at `p` as a whole run: white space or an end of `s` on either side. */
  predicate RunAt(s: string, w: string, p: int) {
    0 <= p && p + |w| <= |s| && s[p..p + |w|] == w
    && (p == 0 || IsSpace(s[p - 1]))
    && (p + |w| == |s| || IsSpace(s[p + |w|]))
  }

  /** A run of a suffix of `s` that starts at white space is a run of `s`, and not at its start. */
  lemma RunShift(s: string, off: nat, w: string, q: int)
    requires off <= |s| && RunAt(s[off..], w, q)
    requires |w| >= 1 && !IsSpace(w[0])
    requires off < |s| ==> IsSpace(s[off])
    ensures q > 0 && RunAt(s, w, off + q)
  {
    assert s[off..][q] == w[0];
    assert s[off + q..off + q + |w|] == s[off..][q..q + |w|];
    assert s[off + q - 1] == s[off..][q - 1];
    if off + q + |w| < |s| {
      assert s[off + q + |w|] == s[off..][q + |w|];
    }
  }

  /** The pieces `ws` occur as runs of `s` at the positions `ps`, left to right and apart. */
  predicate RunsAt(s: string, ws: seq<string>, ps: seq<int>) {
    && |ps| == |ws|
    && (forall k :: 0 <= k < |ws| ==> RunAt(s, ws[k], ps[k]))
    && (forall k :: 0 <= k < |ws| - 1 ==> ps[k] + |ws[k]| < ps[k + 1])
  }

  /** Runs of a suffix of `s` that starts at white space are runs of `s`. */
  lemma RunsShift(s: string, off: nat, ws: seq<string>, qs: seq<int>) returns (ps: seq<int>)
    requires off <= |s| && RunsAt(s[off..], ws, qs)
    requires forall k :: 0 <= k < |ws| ==> |ws[k]| >= 1 && !IsSpace(ws[k][0])
    requires off < |s| ==> IsSpace(s[off])
    ensures RunsAt(s, ws, ps) && (ps != [] ==> ps[0] > off)
  {
    ps := seq(|qs|, k requires 0 <= k < |qs| => off + qs[k]);
    forall k | 0 <= k < |ws| ensures RunAt(s, ws[k], ps[k]) && ps[k] > off {
      RunShift(s, off, ws[k], qs[k]);
    }
  }

  /** A run ahead of runs that lie after it. */
  lemma RunsCons(s: string, w: string, p: int, ws: seq<string>, qs: seq<int>)
    requires RunAt(s, w, p) && RunsAt(s, ws, qs)
    requires qs != [] ==> p + |w| < qs[0]
    ensures RunsAt(s, [w] + ws, [p] + qs)
  {
    var vs, ps := [w] + ws, [p] + qs;
    forall k | 1 <= k < |vs| ensures RunAt(s, vs[k], ps[k]) {
      assert vs[k] == ws[k - 1] && ps[k] == qs[k - 1];
    }
    forall k | 1 <= k < |vs| - 1 ensures ps[k] + |vs[k]| < ps[k + 1] {
      assert vs[k] == ws[k - 1] && ps[k] == qs[k - 1] && ps[k + 1] == qs[k];
    }
  }

  /**
   * With `t` what is left of `s` after leading white space and `w` the first word of `t`,
   * `w` is a run of `s`, and runs of what follows `w` are runs of `s` after it.
   */
  lemma RunsStep(s: string, d: nat, t: string, w: string, rest: seq<string>, qs: seq<int>)
    returns (ps: seq<int>)
    requires d <= |s| && t == s[d..] && (d > 0 ==> IsSpace(s[d - 1]))
    requires 1 <= |w| <= |t| && w == t[..|w|] && (|w| < |t| ==> IsSpace(t[|w|]))
    requires RunsAt(t[|w|..], rest, qs)
    requires forall k :: 0 <= k < |rest| ==> |rest[k]| >= 1 && !IsSpace(rest[k][0])
    ensures RunsAt(s, [w] + rest, ps)
  {
    var off := d + |w|;
    assert t[|w|..] == s[off..];
    assert s[d..off] == w;
    if off < |s| {
      assert s[off] == t[|w|];
    }
    assert RunAt(s, w, d);
    var shifted := RunsShift(s, off, rest, qs);
    RunsCons(s, w, d, rest, shifted);
    ps := [d] + shifted;
  }

  /**
   * The words are the maximal runs of `s`, in order: each occurs in `s` with white space
   * or an end of `s` on either side, and each lies after the one before. With `WordsCover`
   * this pins the pieces down as those of `s.split(/\s+/)`.
   */
  lemma {:induction false} WordsAreRuns(s: string) returns (ps: seq<int>)
    ensures RunsAt(s, Words(s), ps)
    decreases |s|
  {
    var t := DropSpaces(s);
    if t == [] {
      ps := [];
    } else {
      var w := TakeWord(t);
      var rest := Words(t[|w|..]);
      assert Words(s) == [w] + rest;
      var qs := WordsAreRuns(t[|w|..]);
      DropSpacesSuffix(s);
      TakeWordEnds(t);
      ps := RunsStep(s, |s| - |t|, t, w, rest, qs);
    }
  }

  /** `parts.join(sep)`. */
  function Join(parts: seq<string>, sep: string): string {
    if parts == [] then ""
    else if |parts| == 1 then parts[0]
    else parts[0] + sep + Join(parts[1..], sep)
  }
}
