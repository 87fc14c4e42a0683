/** Cutting one element out of a sequence, splicing one in, and finding one. */
module Sequences {
  /** `s` without position `k`. */
  function Cut<T>(s: seq<T>, k: nat): (r: seq<T>)
    requires k < |s|
  {
    s[..k] + s[k + 1..]
  }

  /** `s` with `x` put in before position `p`. */
  function Splice<T>(s: seq<T>, p: nat, x: T): (r: seq<T>)
    requires p <= |s|
  {
    s[..p] + [x] + s[p..]
  }

  /** Where `x` first stands, or the length. */
  function IndexOf<T(==)>(s: seq<T>, x: T): (k: nat)
    ensures k <= |s|
    ensures k < |s| ==> s[k] == x
    ensures forall i :: 0 <= i < k ==> s[i] != x
  {
    if s == [] || s[0] == x then 0 else
      var k := 1 + IndexOf(s[1..], x);
      assert forall i :: 1 <= i < k ==> s[i] == s[1..][i - 1];
      k
  }

  lemma Associate<T>(a: seq<T>, b: seq<T>, c: seq<T>)
    ensures a + (b + c) == a + b + c
  {
  }

  lemma CutCons<T>(x: T, s: seq<T>, k: nat)
    requires k < |s|
    ensures Cut([x] + s, k + 1) == [x] + Cut(s, k)
  {
  }

  lemma SpliceCons<T>(x: T, s: seq<T>, p: nat, y: T)
    requires p <= |s|
    ensures Splice([x] + s, p + 1, y) == [x] + Splice(s, p, y)
  {
  }

  lemma CutFacts<T>(s: seq<T>, k: nat)
    requires k < |s|
    ensures |Cut(s, k)| == |s| - 1
    ensures forall i :: 0 <= i < k ==> Cut(s, k)[i] == s[i]
    ensures forall i :: k <= i < |s| - 1 ==> Cut(s, k)[i] == s[i + 1]
    ensures multiset(s) == multiset(Cut(s, k)) + multiset{s[k]}
  {
    assert s == s[..k] + [s[k]] + s[k + 1..];
  }

  lemma SpliceFacts<T>(s: seq<T>, p: nat, x: T)
    requires p <= |s|
    ensures |Splice(s, p, x)| == |s| + 1 && Splice(s, p, x)[p] == x
    ensures forall i :: 0 <= i < p ==> Splice(s, p, x)[i] == s[i]
    ensures forall i :: p < i <= |s| ==> Splice(s, p, x)[i] == s[i - 1]
    ensures multiset(Splice(s, p, x)) == multiset(s) + multiset{x}
  {
    assert s == s[..p] + s[p..];
  }

  /** Cutting out what was spliced in. */
  lemma CutSplice<T>(s: seq<T>, p: nat, x: T)
    requires p <= |s|
    ensures |Splice(s, p, x)| == |s| + 1 && Cut(Splice(s, p, x), p) == s
  {
  }

  /** `a` stands before `b`. */
  ghost predicate Before<T>(s: seq<T>, a: T, b: T) { exists i, j :: 0 <= i < j < |s| && s[i] == a && s[j] == b }

  lemma BeforeAppend<T>(s: seq<T>, r: seq<T>, a: T, b: T)
    ensures Before(s, a, b) ==> Before(s + r, a, b)
    ensures Before(r, a, b) ==> Before(s + r, a, b)
    ensures a in s && b in r ==> Before(s + r, a, b)
  {
    if Before(s, a, b) {
      var i, j :| 0 <= i < j < |s| && s[i] == a && s[j] == b;
      assert (s + r)[i] == a && (s + r)[j] == b;
    }
    if Before(r, a, b) {
      var i, j :| 0 <= i < j < |r| && r[i] == a && r[j] == b;
      assert (s + r)[|s| + i] == a && (s + r)[|s| + j] == b;
    }
    if a in s && b in r {
      var i, j :| 0 <= i < |s| && 0 <= j < |r| && s[i] == a && r[j] == b;
      assert (s + r)[i] == a && (s + r)[|s| + j] == b;
    }
  }

  lemma BeforeCut<T>(s: seq<T>, k: nat, a: T, b: T)
    requires k < |s| && Before(s, a, b) && s[k] != a && s[k] != b
    ensures Before(Cut(s, k), a, b)
  {
    var i, j :| 0 <= i < j < |s| && s[i] == a && s[j] == b;
    var x, y := if i < k then i else i - 1, if j < k then j else j - 1;
    assert Cut(s, k)[x] == a && Cut(s, k)[y] == b;
  }

  lemma BeforeTail<T>(s: seq<T>, a: T, b: T)
    requires s != [] && Before(s, a, b)
    ensures a in s && b in s[1..] && (s[0] != a ==> Before(s[1..], a, b))
  {
    var i, j :| 0 <= i < j < |s| && s[i] == a && s[j] == b;
    assert s[1..][j - 1] == b;
    if s[0] != a { assert s[1..][i - 1] == a; }
  }
}
