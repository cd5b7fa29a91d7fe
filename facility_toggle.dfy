/**
 * The add-on checkbox handler of the booking wizard: toggling an add-on id
 * removes every occurrence when it is selected and appends it otherwise.
 */
module FacilityToggle {
  import opened Seqs

  /** `prev.filter(x => x !== id)`: every occurrence of `id` dropped, the rest in order. */
  function Remove(s: seq<string>, id: string): (r: seq<string>)
    ensures id !in r
    ensures forall x :: x in r <==> x in s && x != id
    ensures |r| <= |s|
  {
    if s == [] then []
    else if s[0] == id then Remove(s[1..], id)
    else [s[0]] + Remove(s[1..], id)
  }

  /** `prev.includes(id) ? prev.filter(x => x !== id) : [...prev, id]` */
  function Toggle(s: seq<string>, id: string): (r: seq<string>)
    // membership of `id` flips, every other id keeps its membership
    ensures forall x :: x in r <==> (x in s) != (x == id)
  {
    if id in s then Remove(s, id) else s + [id]
  }

  lemma {:induction false} RemoveAbsent(s: seq<string>, id: string)
    requires id !in s
    ensures Remove(s, id) == s
  {
    if s != [] {
      RemoveAbsent(s[1..], id);
    }
  }

  lemma {:induction false} RemoveAppend(a: seq<string>, b: seq<string>, id: string)
    ensures Remove(a + b, id) == Remove(a, id) + Remove(b, id)
  {
    if a != [] {
      assert (a + b)[1..] == a[1..] + b;
      RemoveAppend(a[1..], b, id);
    } else {
      assert a + b == b;
    }
  }

  /** Removing the single occurrence of an id closes the gap it leaves. */
  lemma {:induction false} RemoveSingle(before: seq<string>, id: string, after: seq<string>)
    requires id !in before && id !in after
    ensures Remove(before + [id] + after, id) == before + after
  {
    RemoveAppend(before + [id], after, id);
    RemoveAppend(before, [id], id);
    RemoveAbsent(before, id);
    RemoveAbsent(after, id);
    assert Remove([id], id) == [];
  }

  /** Removing an id from a duplicate-free list keeps it duplicate-free. */
  lemma {:induction false} RemoveNoDup(s: seq<string>, id: string)
    requires NoDup(s)
    ensures NoDup(Remove(s, id))
  {
    if s != [] {
      assert NoDup(s[1..]) by {
        forall i, j | 0 <= i < j < |s[1..]| ensures s[1..][i] != s[1..][j] {
          assert s[1..][i] == s[i + 1] && s[1..][j] == s[j + 1];
        }
      }
      RemoveNoDup(s[1..], id);
      var t := Remove(s[1..], id);
      if s[0] != id {
        assert s[0] !in s[1..] by {
          forall k | 0 <= k < |s[1..]| ensures s[1..][k] != s[0] {
            assert s[1..][k] == s[k + 1];
          }
        }
        forall i, j | 0 <= i < j < |[s[0]] + t| ensures ([s[0]] + t)[i] != ([s[0]] + t)[j] {
          if i == 0 {
            assert ([s[0]] + t)[j] == t[j - 1];
          } else {
            assert ([s[0]] + t)[i] == t[i - 1] && ([s[0]] + t)[j] == t[j - 1];
          }
        }
      }
    }
  }

  /** Removing drops exactly the occurrences of `id` from the multiset of ids. */
  lemma {:induction false} RemoveMultiset(s: seq<string>, id: string)
    ensures multiset(Remove(s, id)) == multiset(s)[id := 0]
  {
    if s != [] {
      RemoveMultiset(s[1..], id);
      assert s == [s[0]] + s[1..];
    }
  }

  /** The toggle keeps the selection duplicate-free. */
  lemma {:induction false} ToggleKeepsNoDup(s: seq<string>, id: string)
    requires NoDup(s)
    ensures NoDup(Toggle(s, id))
  {
    if id in s {
      RemoveNoDup(s, id);
    }
  }

  /** The other ids keep their relative order: with `id` filtered out, before and after agree. */
  lemma {:induction false} ToggleKeepsOthersInOrder(s: seq<string>, id: string)
    ensures Remove(Toggle(s, id), id) == Remove(s, id)
  {
    if id in s {
      RemoveAbsent(Remove(s, id), id);
    } else {
      RemoveAppend(s, [id], id);
      assert Remove([id], id) == [];
    }
  }

  /** Toggling an unselected id twice restores the list exactly. */
  lemma {:induction false} ToggleTwiceRestores(s: seq<string>, id: string)
    requires id !in s
    ensures Toggle(Toggle(s, id), id) == s
  {
    RemoveAppend(s, [id], id);
    RemoveAbsent(s, id);
    assert Remove([id], id) == [];
  }

  /**
   * Toggling a selected id twice moves it to the end: on a duplicate-free
   * selection the result is a permutation of the original.
   */
  lemma {:induction false} ToggleTwicePermutes(s: seq<string>, id: string)
    requires NoDup(s)
    ensures multiset(Toggle(Toggle(s, id), id)) == multiset(s)
  {
    if id in s {
      RemoveMultiset(s, id);
      var k :| 0 <= k < |s| && s[k] == id;
      NoDupSplit(s, k);
      assert multiset(s) == multiset(s[..k]) + multiset{id} + multiset(s[k + 1..]);
    } else {
      ToggleTwiceRestores(s, id);
    }
  }
}
