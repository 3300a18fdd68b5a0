/**
 * The parts of Python's `posixpath` module and `str` methods that the store's
 * path logic is built on: the separator, `lstrip`/`rstrip` of separators,
 * `os.path.join` and `os.path.dirname`. Paths are plain strings; nothing here
 * normalises `.` or `..`.
 */
module PosixPath {

  /** `os.path.sep` on a POSIX system. */
  const Sep: char := '/'

  predicate StartsWithSep(s: string) {
    |s| > 0 && s[0] == Sep
  }

  predicate EndsWithSep(s: string) {
    |s| > 0 && s[|s| - 1] == Sep
  }

  predicate AllSeps(s: string) {
    forall i :: 0 <= i < |s| ==> s[i] == Sep
  }

  /** `s.lstrip(os.path.sep)`: every leading separator is removed. */
  function LStrip(s: string): (r: string)
    ensures !StartsWithSep(r)
    ensures !StartsWithSep(s) ==> r == s
  {
    if StartsWithSep(s) then LStrip(s[1..]) else s
  }

  /** `s.rstrip(os.path.sep)`: every trailing separator is removed. */
  function RStrip(s: string): (r: string)
    ensures r <= s
    ensures !EndsWithSep(r)
    ensures AllSeps(s[|r|..])
  {
    if EndsWithSep(s) then RStrip(s[..|s| - 1]) else s
  }

  /** LStrip removes a run of leading separators and nothing else. */
  lemma {:induction false} LStripSuffix(s: string)
    ensures var r := LStrip(s);
      |r| <= |s| && r == s[|s| - |r|..] && AllSeps(s[..|s| - |r|])
  {
    if StartsWithSep(s) {
      LStripSuffix(s[1..]);
      var r := LStrip(s);
      assert s[1..][|s| - 1 - |r|..] == s[|s| - |r|..];
      assert forall i :: 0 < i < |s| - |r| ==> s[i] == s[1..][i - 1];
    }
  }

  /** RStrip keeps every character up to the last one that is not a separator. */
  lemma RStripKeeps(s: string, i: nat)
    requires i < |s| && s[i] != Sep
    ensures i < |RStrip(s)|
  {
  }

  /** Only a string of separators is stripped to nothing. */
  lemma RStripEmpty(s: string)
    ensures RStrip(s) == "" <==> AllSeps(s)
  {
    if !AllSeps(s) {
      var k :| 0 <= k < |s| && s[k] != Sep;
      RStripKeeps(s, k);
    }
  }

  /**
   * `os.path.join(a, b)`: an absolute `b` replaces what came before; otherwise
   * `b` is appended, with a separator unless `a` is empty or already ends in one.
   */
  function Join2(a: string, b: string): (r: string)
    ensures StartsWithSep(b) ==> r == b
    ensures !StartsWithSep(b) ==> a <= r
    ensures a == "" ==> r == b
  {
    if StartsWithSep(b) then b
    else if a == "" || EndsWithSep(a) then a + b
    else a + [Sep] + b
  }

  /**
   * The value of `Join2` for a relative second part: the first part, one
   * separator if it needs one, then the second part in full.
   */
  lemma Join2Appends(a: string, b: string)
    ensures var r := Join2(a, b);
      !StartsWithSep(b) ==>
      && |r| == |a| + |b| + (if a == "" || EndsWithSep(a) then 0 else 1)
      && (a != "" && !EndsWithSep(a) ==> r[|a|] == Sep)
      && r[|r| - |b|..] == b
  {
  }

  /** `os.path.join(first, *rest)`: the two-part join applied from left to right. */
  function Join(first: string, rest: seq<string>): (r: string)
    ensures rest == [] ==> r == first
    ensures rest != [] ==> var last := rest[|rest| - 1]; |last| <= |r| && r[|r| - |last|..] == last
    ensures rest != [] && StartsWithSep(rest[|rest| - 1]) ==> r == rest[|rest| - 1]
    ensures (forall i :: 0 <= i < |rest| ==> !StartsWithSep(rest[i])) ==> first <= r
  {
    if rest == [] then first
    else
      var init, last := rest[..|rest| - 1], rest[|rest| - 1];
      assert forall i :: 0 <= i < |init| ==> init[i] == rest[i];
      Join2Appends(Join(first, init), last);
      Join2(Join(first, init), last)
  }

  /** Joining a single further part is the two-part join. */
  lemma JoinOne(first: string, b: string)
    ensures Join(first, [b]) == Join2(first, b)
  {
    assert [b][..0] == [];
  }

  /** `p.rfind(os.path.sep) + 1`: the index just past the last separator, 0 when there is none. */
  function AfterLastSep(p: string): (i: nat)
    ensures i <= |p|
    ensures i > 0 ==> p[i - 1] == Sep
    ensures forall k :: i <= k < |p| ==> p[k] != Sep
  {
    if p == "" then 0
    else if EndsWithSep(p) then |p|
    else AfterLastSep(p[..|p| - 1])
  }

  /**
   * `os.path.dirname(p)`: everything before the last separator, with trailing
   * separators removed unless it consists of separators only.
   */
  function Dirname(p: string): (r: string)
    ensures r <= p
    ensures r == "" <==> Sep !in p
    ensures EndsWithSep(r) ==> AllSeps(r)
    ensures p != "" && !EndsWithSep(p) ==> |r| < |p|
  {
    var i := AfterLastSep(p);
    var head := p[..i];
    if head != "" && !AllSeps(head) then
      RStripEmpty(head);
      RStrip(head)
    else
      assert i > 0 ==> p[i - 1] in p;
      head
  }

  /**
   * `Dirname` ends at the last separator: only separators lie between it and
   * that point, and a head made of separators only is kept whole.
   */
  lemma DirnameEndsAtLastSep(p: string)
    ensures var r, i := Dirname(p), AfterLastSep(p);
      && |r| <= i
      && AllSeps(p[|r|..i])
      && (AllSeps(p[..i]) ==> r == p[..i])
  {
    var r, i := Dirname(p), AfterLastSep(p);
    var head := p[..i];
    if head != "" && !AllSeps(head) {
      assert r <= head;
      assert p[|r|..i] == head[|r|..];
    }
  }
}
