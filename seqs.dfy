/** Sequence helpers shared by the catalog lookups and the add-on selection. */
module Seqs {
  import opened Wrappers

  /** No value occurs twice. */
  predicate NoDup<T(==)>(s: seq<T>)
  {
    forall i, j :: 0 <= i < j < |s| ==> s[i] != s[j]
  }

  /** `Array.prototype.find`: the first element of `s` that `matches`, or None. */
  function Find<T>(s: seq<T>, matches: T -> bool): (r: Option<T>)
    ensures r.Some? ==> r.value in s && matches(r.value)
    ensures r.None? <==> forall x | x in s :: !matches(x)
  {
    if s == [] then None
    else if matches(s[0]) then Some(s[0])
    else Find(s[1..], matches)
  }

  /** Find returns the FIRST match: it occurs at or before every matching position. */
  lemma {:induction false} FindIsFirst<T>(s: seq<T>, matches: T -> bool, j: nat)
    requires j < |s| && matches(s[j])
    ensures Find(s, matches).Some? && Find(s, matches).value in s[..j + 1]
  {
    if !matches(s[0]) {
      FindIsFirst(s[1..], matches, j - 1);
      assert s[1..][..j] == s[1..j + 1];
    }
  }

  /** When at most one element matches, Find returns that element. */
  lemma {:induction false} FindUnique<T>(s: seq<T>, matches: T -> bool, k: nat)
    requires k < |s| && matches(s[k])
    requires forall i, j :: 0 <= i < j < |s| && matches(s[i]) && matches(s[j]) ==> s[i] == s[j]
    ensures Find(s, matches) == Some(s[k])
  {
    if k > 0 && !matches(s[0]) {
      FindUnique(s[1..], matches, k - 1);
    }
  }

  /** In a duplicate-free sequence an element occurs neither before nor after its own position. */
  lemma NoDupSplit<T>(s: seq<T>, k: nat)
    requires NoDup(s) && k < |s|
    ensures s == s[..k] + [s[k]] + s[k + 1..]
    ensures s[k] !in s[..k] && s[k] !in s[k + 1..]
  {
    assert s == s[..k] + [s[k]] + s[k + 1..];
    forall i | 0 <= i < |s| && i != k ensures s[i] != s[k] { }
  }
}
