/** Joining and splitting of tool names around the separator `__`. */
module Names {
  import opened Base

  const SEP: string := "__"

  function Join(prefix: string, rest: string): string {
    prefix + SEP + rest
  }

  predicate SepAt(s: string, i: int) {
    0 <= i && i + 1 < |s| && s[i] == '_' && s[i + 1] == '_'
  }

  /** `s.indexOf('__')`. */
  function IndexOfSep(s: string): (r: int)
    ensures r == -1 ==> forall i :: !SepAt(s, i)
    ensures r != -1 ==> SepAt(s, r) && forall i :: i < r ==> !SepAt(s, i)
  {
    IndexOfSepFrom(s, 0)
  }

  function IndexOfSepFrom(s: string, from: nat): (r: int)
    requires forall i :: i < from ==> !SepAt(s, i)
    ensures r == -1 ==> forall i :: !SepAt(s, i)
    ensures r != -1 ==> SepAt(s, r) && forall i :: i < r ==> !SepAt(s, i)
    decreases |s| - from
  {
    if from >= |s| then -1
    else if SepAt(s, from) then from
    else IndexOfSepFrom(s, from + 1)
  }

  /** The pieces around the first separator, if there is one. */
  function SplitAtSep(s: string): Option<(string, string)> {
    var i := IndexOfSep(s);
    if i == -1 then None else Some((s[..i], s[i + 2..]))
  }

  /** A name that survives being used as the left part of a joined name. */
  ghost predicate Clean(s: string) {
    (forall i :: !SepAt(s, i)) && (s == "" || s[|s| - 1] != '_')
  }

  lemma JoinIndexing(prefix: string, rest: string)
    ensures forall i :: 0 <= i < |prefix| ==> Join(prefix, rest)[i] == prefix[i]
    ensures Join(prefix, rest)[|prefix|] == '_' && Join(prefix, rest)[|prefix| + 1] == '_'
    ensures Join(prefix, rest)[..|prefix|] == prefix
    ensures Join(prefix, rest)[|prefix| + 2..] == rest
  {
    assert Join(prefix, rest) == prefix + ("__" + rest);
  }

  /** Exactly the clean prefixes are recovered, whatever the right part is. */
  lemma SplitRecoversIff(prefix: string, rest: string)
    ensures SplitAtSep(Join(prefix, rest)) == Some((prefix, rest)) <==> Clean(prefix)
  {
    var s := Join(prefix, rest);
    JoinIndexing(prefix, rest);
    assert SepAt(s, |prefix|);
    var at := IndexOfSep(s);
    if Clean(prefix) {
      forall i | 0 <= i < |prefix| ensures !SepAt(s, i) {
        assert !SepAt(prefix, i);
      }
    } else {
      if i :| SepAt(prefix, i) {
        assert SepAt(s, i);
      } else {
        assert SepAt(s, |prefix| - 1);
      }
      assert at < |prefix|;
      assert |s[..at]| < |prefix|;
    }
  }

  /** Clean prefixes make joining injective in both parts. */
  lemma JoinInjective(p: string, a: string, q: string, b: string)
    requires Clean(p) && Clean(q) && Join(p, a) == Join(q, b)
    ensures p == q && a == b
  {
    SplitRecoversIff(p, a);
    SplitRecoversIff(q, b);
  }
}
