/**
 * The list operations the two gallery pages share: renumbering a generated
 * batch by an offset before appending it (the pages' "Ensure unique IDs"
 * step), and the order-preserving category filter of the Projects page.
 */
module Gallery {
  import opened Types

  /** Items appended per load. */
  const BatchSize: nat := 10

  /** The filter value that shows every project. */
  const AllCategories: string := "All"

  /** `batch.map(p => ({...p, id: p.id + offset}))`: only the ids change. */
  function ShiftIds(batch: seq<Project>, offset: int): (shifted: seq<Project>)
    ensures |shifted| == |batch|
    ensures forall i :: 0 <= i < |batch| ==> shifted[i].id - offset == batch[i].id
    ensures forall i :: 0 <= i < |batch| ==> shifted[i].(id := batch[i].id) == batch[i]
  {
    seq(|batch|, i requires 0 <= i < |batch| => batch[i].(id := batch[i].id + offset))
  }

  /** Appending a batch numbered 1..m renumbered after a list numbered 1..n gives 1..n+m. */
  lemma AppendKeepsContiguous(ps: seq<Project>, batch: seq<Project>)
    requires ContiguousIds(ps) && ContiguousIds(batch)
    ensures ContiguousIds(ps + ShiftIds(batch, |ps|))
    ensures DistinctIds(ps + ShiftIds(batch, |ps|))
  {
    var r := ps + ShiftIds(batch, |ps|);
    assert ContiguousIds(r) by {
      forall i | 0 <= i < |r| ensures r[i].id == i + 1 {
        if i >= |ps| {
          assert r[i] == ShiftIds(batch, |ps|)[i - |ps|];
        }
      }
    }
    ContiguousIdsAreDistinct(r);
  }

  /** The largest id in the list, or 0 for a list without positive ids. */
  function MaxId(ps: seq<Project>): (m: int)
    ensures 0 <= m
    ensures forall i :: 0 <= i < |ps| ==> ps[i].id <= m
    ensures m == 0 || exists i :: 0 <= i < |ps| && ps[i].id == m
    decreases |ps|
  {
    if |ps| == 0 then 0
    else
      var rest := MaxId(ps[..|ps| - 1]);
      if ps[|ps| - 1].id > rest then ps[|ps| - 1].id else rest
  }

  /** On a list numbered 1..n the largest id is its length. */
  lemma ContiguousMaxId(ps: seq<Project>)
    requires ContiguousIds(ps)
    ensures MaxId(ps) == |ps|
  {
    if |ps| > 0 {
      assert ps[|ps| - 1].id == |ps|;
    }
  }

  /**
   * Renumbering a batch numbered 1..m after the largest id of a list whose ids
   * are distinct keeps every id distinct, whatever ids the list holds.
   */
  lemma AppendAfterMaxKeepsDistinct(ps: seq<Project>, batch: seq<Project>)
    requires DistinctIds(ps) && ContiguousIds(batch)
    ensures DistinctIds(ps + ShiftIds(batch, MaxId(ps)))
  {
    var m := MaxId(ps);
    var shifted := ShiftIds(batch, m);
    var r := ps + shifted;
    forall i, j | 0 <= i < j < |r|
      ensures r[i].id != r[j].id
    {
      if j >= |ps| {
        assert r[j] == shifted[j - |ps|];
        if i >= |ps| {
          assert r[i] == shifted[i - |ps|];
        } else {
          assert r[i].id <= m;
        }
      }
    }
  }

  /** `ps.filter(p => p.category === category)`. */
  function FilterCategory(ps: seq<Project>, category: string): (r: seq<Project>)
    ensures forall p :: p in r ==> p in ps && p.category == category
    ensures forall p :: p in ps && p.category == category ==> p in r
    ensures forall p :: multiset(r)[p] == (if p.category == category then multiset(ps)[p] else 0)
    ensures IsSubsequence(r, ps)
    decreases |ps|
  {
    if |ps| == 0 then []
    else
      var rest := FilterCategory(ps[1..], category);
      assert forall p :: p in ps[1..] ==> p in ps;
      assert ps == [ps[0]] + ps[1..];
      if ps[0].category == category then [ps[0]] + rest else rest
  }

  /** Every item of a subsequence is an item of the whole. */
  lemma {:induction false} SubsequenceMembers<T>(r: seq<T>, s: seq<T>)
    requires IsSubsequence(r, s)
    ensures forall x :: x in r ==> x in s
    decreases |s|
  {
    if |r| > 0 {
      if r[0] == s[0] && IsSubsequence(r[1..], s[1..]) {
        SubsequenceMembers(r[1..], s[1..]);
        assert forall x :: x in r ==> x == r[0] || x in r[1..];
      } else {
        SubsequenceMembers(r, s[1..]);
      }
      assert forall x :: x in s[1..] ==> x in s;
    }
  }

  /** Leaving items out cannot make two ids equal. */
  lemma {:induction false} SubsequenceKeepsDistinct(r: seq<Project>, s: seq<Project>)
    requires IsSubsequence(r, s) && DistinctIds(s)
    ensures DistinctIds(r)
    decreases |s|
  {
    if |r| > 0 {
      assert DistinctIds(s[1..]);
      if r[0] == s[0] && IsSubsequence(r[1..], s[1..]) {
        SubsequenceKeepsDistinct(r[1..], s[1..]);
        SubsequenceMembers(r[1..], s[1..]);
        forall j | 0 < j < |r| ensures r[0].id != r[j].id {
          assert r[j] in r[1..];
          var k :| 0 <= k < |s[1..]| && s[1..][k] == r[j];
          assert r[j] == s[k + 1];
        }
      } else {
        SubsequenceKeepsDistinct(r, s[1..]);
      }
    }
  }
}
