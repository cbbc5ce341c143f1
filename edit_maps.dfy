/**
 * The string-keyed records the admin editors build and send: a record filled
 * by a `forEach` loop that assigns one key per item (a later item with the
 * same key overwrites an earlier one), and the fan-out of one update call per
 * entry on save.
 */
module EditMaps {

  /** The record the loop leaves behind: each key maps to the value of its last pair. */
  function LastWins<V>(pairs: seq<(string, V)>): (m: map<string, V>)
    ensures forall k :: k in m <==> exists i :: 0 <= i < |pairs| && pairs[i].0 == k
    decreases |pairs|
  {
    if |pairs| == 0 then map[]
    else
      var last := pairs[|pairs| - 1];
      var m := LastWins(pairs[..|pairs| - 1]);
      assert forall i :: 0 <= i < |pairs| - 1 ==> pairs[..|pairs| - 1][i] == pairs[i];
      m[last.0 := last.1]
  }

  /** A key's value is the value of the last pair carrying that key. */
  lemma {:induction false} LastWinsValue<V>(pairs: seq<(string, V)>, i: nat)
    requires i < |pairs|
    requires forall j :: i < j < |pairs| ==> pairs[j].0 != pairs[i].0
    ensures pairs[i].0 in LastWins(pairs) && LastWins(pairs)[pairs[i].0] == pairs[i].1
    decreases |pairs|
  {
    if i < |pairs| - 1 {
      var init := pairs[..|pairs| - 1];
      assert init[i] == pairs[i];
      LastWinsValue(init, i);
    }
  }

  /** With keys that are all different, every pair's value is kept. */
  lemma DistinctKeysKeepAll<V>(pairs: seq<(string, V)>)
    requires forall i, j :: 0 <= i < j < |pairs| ==> pairs[i].0 != pairs[j].0
    ensures forall i :: 0 <= i < |pairs| ==> pairs[i].0 in LastWins(pairs) && LastWins(pairs)[pairs[i].0] == pairs[i].1
  {
    forall i | 0 <= i < |pairs|
      ensures pairs[i].0 in LastWins(pairs) && LastWins(pairs)[pairs[i].0] == pairs[i].1
    {
      LastWinsValue(pairs, i);
    }
  }

  /** The `forEach` loop that fills a record from key/value pairs. */
  method BuildRecord<V>(pairs: seq<(string, V)>) returns (m: map<string, V>)
    ensures m == LastWins(pairs)
  {
    m := map[];
    for i := 0 to |pairs|
      invariant m == LastWins(pairs[..i])
    {
      assert pairs[..i + 1][..i] == pairs[..i];
      m := m[pairs[i].0 := pairs[i].1];
    }
    assert pairs[..|pairs|] == pairs;
  }

  /**
   * `calls` holds one call per key of `done`, each with the record's value
   * for that key, and no key twice.
   */
  ghost predicate Covers<V>(record: map<string, V>, calls: seq<(string, V)>, done: set<string>)
  {
    && (forall i :: 0 <= i < |calls| ==> calls[i].0 in done && calls[i].0 in record && record[calls[i].0] == calls[i].1)
    && (forall k :: k in done ==> exists i :: 0 <= i < |calls| && calls[i].0 == k)
    && (forall i, j :: 0 <= i < j < |calls| ==> calls[i].0 != calls[j].0)
  }

  /** One more call, for a key not yet called, keeps the coverage. */
  lemma CoversStep<V>(record: map<string, V>, calls: seq<(string, V)>, done: set<string>, k: string)
    requires Covers(record, calls, done) && k in record && k !in done
    ensures Covers(record, calls + [(k, record[k])], done + {k})
  {
    var next := calls + [(k, record[k])];
    forall d | d in done + {k}
      ensures exists i :: 0 <= i < |next| && next[i].0 == d
    {
      if d == k {
        assert next[|calls|].0 == d;
      } else {
        var i :| 0 <= i < |calls| && calls[i].0 == d;
        assert next[i] == calls[i];
      }
    }
  }

  /**
   * `Object.entries(record).map(([k, v]) => update(k, v))`: one update per
   * entry, each with the entry's own value, and no key updated twice.
   */
  method UpdateCalls<V>(record: map<string, V>) returns (calls: seq<(string, V)>)
    ensures |calls| == |record|
    ensures forall i :: 0 <= i < |calls| ==> calls[i].0 in record && record[calls[i].0] == calls[i].1
    ensures forall k :: k in record ==> exists i :: 0 <= i < |calls| && calls[i] == (k, record[k])
    ensures forall i, j :: 0 <= i < j < |calls| ==> calls[i].0 != calls[j].0
  {
    calls := [];
    var pending := record.Keys;
    ghost var done: set<string> := {};
    while pending != {}
      invariant pending <= record.Keys && done == record.Keys - pending
      invariant |calls| + |pending| == |record.Keys|
      invariant Covers(record, calls, done)
      decreases |pending|
    {
      var k :| k in pending;
      CoversStep(record, calls, done, k);
      calls := calls + [(k, record[k])];
      pending := pending - {k};
      done := done + {k};
    }
    assert done == record.Keys;
    forall k | k in record
      ensures exists i :: 0 <= i < |calls| && calls[i] == (k, record[k])
    {
      assert k in done;
      var i :| 0 <= i < |calls| && calls[i].0 == k;
      assert calls[i] == (k, record[k]);
    }
  }
}
