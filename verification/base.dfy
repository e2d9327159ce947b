/** Optional values and the two sequence helpers every other module shares. */
module Base {

  datatype Option<+T> = None | Some(value: T) {
    function GetOr(default: T): T {
      if Some? then value else default
    }
  }

  /** The first index at which `p` holds (`Array.prototype.find`). */
  function FirstIndex<T>(s: seq<T>, p: T -> bool): (r: Option<nat>)
    ensures r.Some? ==> r.value < |s| && p(s[r.value]) && forall i :: 0 <= i < r.value ==> !p(s[i])
    ensures r.None? ==> forall i :: 0 <= i < |s| ==> !p(s[i])
  {
    if s == [] then None
    else if p(s[0]) then Some(0)
    else
      var r := FirstIndex(s[1..], p);
      if r.Some? then Some(r.value + 1) else None
  }

  /** `s` without its elements that lie in `gone`, in the same order (`Array.prototype.filter`). */
  function Without<T(==,!new)>(s: seq<T>, gone: set<T>): (r: seq<T>)
    ensures forall x :: x in r <==> x in s && x !in gone
    ensures |r| <= |s|
  {
    if s == [] then []
    else (if s[0] in gone then [] else [s[0]]) + Without(s[1..], gone)
  }

  lemma {:induction false} WithoutAppend<T(!new)>(a: seq<T>, b: seq<T>, gone: set<T>)
    ensures Without(a + b, gone) == Without(a, gone) + Without(b, gone)
  {
    if a == [] {
      assert a + b == b;
    } else {
      assert (a + b)[1..] == a[1..] + b;
      WithoutAppend(a[1..], b, gone);
    }
  }

  lemma {:induction false} WithoutNone<T(!new)>(s: seq<T>, gone: set<T>)
    requires forall x :: x in s ==> x !in gone
    ensures Without(s, gone) == s
  {
    if s != [] { WithoutNone(s[1..], gone); }
  }

  /** Filtering only looks at members of the sequence. */
  lemma {:induction false} WithoutAgrees<T(!new)>(s: seq<T>, gone: set<T>, gone': set<T>)
    requires forall x :: x in s ==> (x in gone <==> x in gone')
    ensures Without(s, gone) == Without(s, gone')
  {
    if s != [] { WithoutAgrees(s[1..], gone, gone'); }
  }

  /** `p` comes before `q` in the order of a list of lists. */
  predicate Before(p: (nat, nat), q: (nat, nat)) {
    p.0 < q.0 || (p.0 == q.0 && p.1 < q.1)
  }

  ghost predicate InOrder(places: seq<(nat, nat)>) {
    forall p, q :: 0 <= p < q < |places| ==> Before(places[p], places[q])
  }

  /** The places of a list of `m` elements that is list number `n`. */
  function Row(n: nat, m: nat): (r: seq<(nat, nat)>)
    ensures |r| == m && forall j :: 0 <= j < m ==> r[j] == (n, j)
  {
    seq(m, j requires 0 <= j < m => (n, j as nat))
  }

  lemma AppendRow(before: seq<(nat, nat)>, n: nat, m: nat)
    requires InOrder(before) && forall p :: p in before ==> p.0 < n
    ensures InOrder(before + Row(n, m))
    ensures forall i: nat, j: nat :: (i, j) in before + Row(n, m) <==> (i, j) in before || (i == n && j < m)
  {
    var places := before + Row(n, m);
    assert forall p :: 0 <= p < |before| ==> before[p] in before;
    forall i: nat, j: nat ensures (i, j) in places <==> (i, j) in before || (i == n && j < m) {
      if i == n && j < m { assert Row(n, m)[j] == (i, j); }
    }
  }

  /** No value occurs at two places. */
  ghost predicate Distinct<T>(s: seq<T>) {
    forall i, j :: 0 <= i < j < |s| ==> s[i] != s[j]
  }
}
