/** Small string helpers shared by the template scanner and the URL parser. */
module Strings {
  import opened Wrappers

  /** `n` space characters. */
  function Spaces(n: nat): (r: string)
    ensures |r| == n
    ensures forall i | 0 <= i < n :: r[i] == ' '
  {
    if n == 0 then "" else " " + Spaces(n - 1)
  }

  /** The index of the first occurrence of `c` in `s`, like JavaScript's `indexOf`. */
  function IndexOf(s: string, c: char): (r: Option<nat>)
    ensures r.None? <==> c !in s
    ensures r.Some? ==> r.value < |s| && s[r.value] == c && c !in s[..r.value]
  {
    if s == [] then None
    else if s[0] == c then Some(0)
    else match IndexOf(s[1..], c)
      case None => None
      case Some(i) =>
        assert s[..i + 1] == [s[0]] + s[1..][..i];
        Some(i + 1)
  }

  /** `c` does not occur before `|a|` in `a + [c] + b`, so that is where IndexOf finds it. */
  lemma IndexOfAfter(a: string, c: char, b: string)
    requires c !in a
    ensures IndexOf(a + [c] + b, c) == Some(|a|)
  {
    var s := a + [c] + b;
    assert s[..|a|] == a;
    assert s[|a|] == c;
  }

  /** The number of spaces `s` starts with. */
  function LeadingSpaces(s: string): (n: nat)
    ensures n <= |s|
    ensures forall i | 0 <= i < n :: s[i] == ' '
    ensures n < |s| ==> s[n] != ' '
  {
    if s != [] && s[0] == ' ' then 1 + LeadingSpaces(s[1..]) else 0
  }

  /** The number of spaces `s` ends with. */
  function TrailingSpaces(s: string): (n: nat)
    ensures n <= |s|
    ensures forall i | |s| - n <= i < |s| :: s[i] == ' '
    ensures n < |s| ==> s[|s| - n - 1] != ' '
  {
    if s != [] && s[|s| - 1] == ' ' then 1 + TrailingSpaces(s[..|s| - 1]) else 0
  }

  /** `sub` occurs in `s` at index `i`. */
  predicate OccursAt(s: string, sub: string, i: int) {
    0 <= i <= |s| - |sub| && s[i..i + |sub|] == sub
  }

  /** `sub` occurs somewhere in `s`. */
  ghost predicate Contains(s: string, sub: string) {
    exists i :: OccursAt(s, sub, i)
  }

  /** Text found in `a` is found in `a + b`. */
  lemma ContainsLeft(a: string, b: string, sub: string)
    requires Contains(a, sub)
    ensures Contains(a + b, sub)
  {
    var i :| OccursAt(a, sub, i);
    assert (a + b)[i..i + |sub|] == a[i..i + |sub|];
    assert OccursAt(a + b, sub, i);
  }

  /** Text found in `b` is found in `a + b`. */
  lemma ContainsRight(a: string, b: string, sub: string)
    requires Contains(b, sub)
    ensures Contains(a + b, sub)
  {
    var i :| OccursAt(b, sub, i);
    assert (a + b)[|a| + i..|a| + i + |sub|] == b[i..i + |sub|];
    assert OccursAt(a + b, sub, |a| + i);
  }

  /** Every text contains itself. */
  lemma ContainsSelf(s: string)
    ensures Contains(s, s)
  {
    assert s[0..|s|] == s;
    assert OccursAt(s, s, 0);
  }

  /** A text put between two others is found in the result. */
  lemma Mentions(a: string, x: string, b: string)
    ensures Contains(a + x + b, x)
  {
    ContainsSelf(x);
    MentionsWithin(a, x, b, x);
  }

  /** Text found in `x` is found in `a + x + b`. */
  lemma MentionsWithin(a: string, x: string, b: string, sub: string)
    requires Contains(x, sub)
    ensures Contains(a + x + b, sub)
  {
    ContainsRight(a, x, sub);
    ContainsLeft(a + x, b, sub);
  }

  /** Both texts put into a message are found in it. */
  lemma MentionsBoth(head: string, x: string, sep: string, y: string, tail: string)
    ensures Contains(head + x + sep + y + tail, x) && Contains(head + x + sep + y + tail, y)
  {
    Mentions(head, x, sep + y + tail);
    Mentions(head + x + sep, y, tail);
    assert head + x + (sep + y + tail) == head + x + sep + y + tail;
  }

  /** JavaScript's `Array.prototype.toString` on an array of strings: the elements joined
      by ','. Every element appears in the result, the first one at its start. */
  function JoinComma(xs: seq<string>): (r: string)
    ensures xs == [] ==> r == ""
    ensures xs != [] ==> |xs[0]| <= |r| && r[..|xs[0]|] == xs[0]
    ensures |xs| > 1 ==> |xs[0]| < |r| && r[|xs[0]|] == ','
    ensures forall i | 0 <= i < |xs| :: Contains(r, xs[i])
  {
    if xs == [] then ""
    else if |xs| == 1 then
      ContainsSelf(xs[0]);
      xs[0]
    else
      var rest := JoinComma(xs[1..]);
      forall i | 0 <= i < |xs| ensures Contains(xs[0] + "," + rest, xs[i]) {
        if i == 0 {
          ContainsSelf(xs[0]);
          ContainsLeft(xs[0], "," + rest, xs[0]);
          assert xs[0] + "," + rest == xs[0] + ("," + rest);
        } else {
          assert xs[1..][i - 1] == xs[i];
          ContainsRight(xs[0] + ",", rest, xs[i]);
        }
      }
      xs[0] + "," + rest
  }
}
