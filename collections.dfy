/** Relations between the dictionaries and lists the daemon and the factory
    keep: one registry contained in another, and a list without repeats. */
module Collections {

  /** Every entry of a is an entry of b. */
  predicate SubMap(a: map<string, int>, b: map<string, int>) {
    forall k :: k in a ==> k in b && a[k] == b[k]
  }

  lemma SubMapCard(a: map<string, int>, b: map<string, int>)
    requires SubMap(a, b)
    ensures |a| <= |b|
    ensures |a| == |b| ==> a == b
  {
    assert a.Keys <= b.Keys;
    if |a| == |b| {
      var extra := b.Keys - a.Keys;
      assert b.Keys == a.Keys + extra;
      assert |extra| == 0;
      assert b.Keys == a.Keys;
    }
  }

  predicate NoDuplicates(s: seq<string>) {
    forall i, j :: 0 <= i < j < |s| ==> s[i] != s[j]
  }

  /** A list without repeats stays so when a new name is appended. */
  lemma NoDuplicatesAppend(s: seq<string>, x: string)
    requires NoDuplicates(s) && x !in s
    ensures NoDuplicates(s + [x]) && (s + [x])[|s|] == x
  {
    forall i, j | 0 <= i < j < |s| + 1 ensures (s + [x])[i] != (s + [x])[j] {
      if j == |s| {
        assert (s + [x])[i] == s[i];
      }
    }
  }
}
