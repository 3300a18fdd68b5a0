/**
 * Dotted names such as `package.module.Class`: `str.rfind('.')`,
 * `str.split('.')` and `'.'.join(parts)`, and the fact that joining the parts
 * of a split gives the name back.
 */
module DottedNames {

  const Dot: char := '.'

  /** `s.rfind('.')`: the index of the last dot, -1 when there is none. */
  function LastDot(s: string): (i: int)
    ensures -1 <= i < |s|
    ensures i >= 0 ==> s[i] == Dot
    ensures forall k :: i < k < |s| ==> s[k] != Dot
  {
    if |s| == 0 then -1
    else if s[|s| - 1] == Dot then |s| - 1
    else LastDot(s[..|s| - 1])
  }

  /** `s.split('.')`: the segments between dots, at least one. */
  function Split(s: string): (parts: seq<string>)
    ensures |parts| >= 1
    ensures |parts| == 1 <==> Dot !in s
    ensures forall i :: 0 <= i < |parts| ==> Dot !in parts[i]
    decreases |s|
  {
    var i := LastDot(s);
    if i < 0 then
      [s]
    else
      assert s[i] in s;
      Split(s[..i]) + [s[i + 1..]]
  }

  /** `'.'.join(parts)`. */
  function JoinDots(parts: seq<string>): (r: string)
    ensures |parts| == 1 ==> r == parts[0]
    ensures |parts| > 1 ==> parts[0] + [Dot] <= r
    ensures |parts| > 1 ==> var l := parts[|parts| - 1]; |l| + 1 <= |r| && r[|r| - |l| - 1..] == [Dot] + l
  {
    if |parts| == 0 then ""
    else if |parts| == 1 then parts[0]
    else JoinDots(parts[..|parts| - 1]) + [Dot] + parts[|parts| - 1]
  }

  /** Splitting at the dots and joining with dots gives the name back. */
  lemma {:induction false} JoinSplit(s: string)
    ensures JoinDots(Split(s)) == s
    decreases |s|
  {
    var i := LastDot(s);
    if i >= 0 {
      var a, b := s[..i], s[i + 1..];
      assert s == a + [Dot] + b;
      var init := Split(a);
      var parts := init + [b];
      assert parts[..|parts| - 1] == init;
      assert Split(s) == parts;
      JoinSplit(a);
    }
  }

  /** The last dot of `a + "." + b`, when `b` has none, is the one between them. */
  lemma {:induction false} LastDotBetween(a: string, b: string)
    requires Dot !in b
    ensures LastDot(a + [Dot] + b) == |a|
  {
    var s := a + [Dot] + b;
    assert s[|a|] == Dot;
  }

  /** Splitting `a + "." + b`, when `b` has no dot, splits `a` and appends `b`. */
  lemma {:induction false} SplitLast(a: string, b: string)
    requires Dot !in b
    ensures Split(a + [Dot] + b) == Split(a) + [b]
  {
    var s := a + [Dot] + b;
    LastDotBetween(a, b);
    assert s[..|a|] == a && s[|a| + 1..] == b;
  }

  /** A name without dots is a single segment. */
  lemma SplitDotless(s: string)
    requires Dot !in s
    ensures Split(s) == [s]
  {
    var parts := Split(s);
    JoinSplit(s);
    assert parts == [parts[0]];
  }

  /** Joining dotless segments with dots and splitting the result gives the segments back. */
  lemma {:induction false} SplitJoin(parts: seq<string>)
    requires |parts| > 0
    requires forall i :: 0 <= i < |parts| ==> Dot !in parts[i]
    ensures Split(JoinDots(parts)) == parts
  {
    var n := |parts|;
    var last := parts[n - 1];
    assert Dot !in last;
    if n == 1 {
      SplitDotless(last);
    } else {
      var init := parts[..n - 1];
      assert parts == init + [last];
      forall i | 0 <= i < |init|
        ensures Dot !in init[i]
      {
        assert init[i] == parts[i];
      }
      SplitJoin(init);
      var a := JoinDots(init);
      assert JoinDots(parts) == a + [Dot] + last;
      SplitLast(a, last);
    }
  }
}
