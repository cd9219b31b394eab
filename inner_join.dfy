/** `perform_inner_join` (backend_processor.py:385-420): every record of the
    first sheet whose trimmed key is non-empty is paired with every record
    of the second sheet carrying the same trimmed key; each pair becomes
    the first record's columns plus the second record's columns renamed
    `<sheet2_key>_<column>`. The code goes through a lookup index built
    from the second sheet; the model proves that this gives exactly the
    pairs of the plain nested loop, in the same order. */
module InnerJoin {
  import opened Records
  import opened Indexing
  import opened Joins

  /** Distinct column names stay distinct once prefixed. */
  lemma PrefixInjective(prefix: string)
    ensures forall a: string, b: string :: prefix + a == prefix + b ==> a == b
  {
    forall a: string, b: string | prefix + a == prefix + b ensures a == b {
      assert a == (prefix + a)[|prefix|..];
      assert b == (prefix + b)[|prefix|..];
    }
  }

  /** `{**record1}` updated with `record2`'s columns under `prefix + k`. */
  function Merge(r1: Record, r2: Record, prefix: string): Record {
    PrefixInjective(prefix);
    r1 + map k | k in r2 :: prefix + k := r2[k]
  }

  /** A merged record holds every column of the second record under its
      prefixed name, and every other column of the first record unchanged;
      it has no other column. */
  lemma MergeFields(r1: Record, r2: Record, prefix: string, c: string)
    ensures forall k :: k in r2 ==> prefix + k in Merge(r1, r2, prefix) && Merge(r1, r2, prefix)[prefix + k] == r2[k]
    ensures (forall k :: k in r2 ==> prefix + k != c) ==>
              (c in Merge(r1, r2, prefix) <==> c in r1) && (c in r1 ==> Merge(r1, r2, prefix)[c] == r1[c])
  {
    forall k | k in r2 ensures prefix + k in Merge(r1, r2, prefix) && Merge(r1, r2, prefix)[prefix + k] == r2[k] {
      MergeRenamed(r1, r2, prefix, k);
    }
    MergeKept(r1, r2, prefix, c);
  }

  lemma MergeRenamed(r1: Record, r2: Record, prefix: string, k: string)
    requires k in r2
    ensures prefix + k in Merge(r1, r2, prefix) && Merge(r1, r2, prefix)[prefix + k] == r2[k]
  {
    PrefixInjective(prefix);
    var renamed := map k | k in r2 :: prefix + k := r2[k];
    assert Merge(r1, r2, prefix) == r1 + renamed;
    assert prefix + k in renamed.Keys;
  }

  lemma MergeKept(r1: Record, r2: Record, prefix: string, c: string)
    ensures (forall k :: k in r2 ==> prefix + k != c) ==>
              (c in Merge(r1, r2, prefix) <==> c in r1) && (c in r1 ==> Merge(r1, r2, prefix)[c] == r1[c])
  {
    PrefixInjective(prefix);
    var renamed := map k | k in r2 :: prefix + k := r2[k];
    assert Merge(r1, r2, prefix) == r1 + renamed;
  }

  /** The join condition: equal, non-empty trimmed keys. */
  function KeysMatch(c1: string, c2: string): (Record, Record) -> bool {
    (r1: Record, r2: Record) => KeyText(r1, c1) != "" && KeyText(r1, c1) == KeyText(r2, c2)
  }

  function Merger(prefix: string): (Record, Record) -> Record {
    (r1: Record, r2: Record) => Merge(r1, r2, prefix)
  }

  /** The inner join as a plain nested loop over both sheets. */
  function InnerJoinOf(d1: seq<Record>, d2: seq<Record>, c1: string, c2: string, sheet2Key: string): seq<Record> {
    Join(d1, d2, KeysMatch(c1, c2), Merger(sheet2Key + "_"))
  }

  /** The joined records are exactly the merges of the pairs with equal,
      non-empty keys, one per pair. */
  lemma InnerJoinMember(d1: seq<Record>, d2: seq<Record>, c1: string, c2: string, sheet2Key: string, x: Record)
    ensures x in InnerJoinOf(d1, d2, c1, c2, sheet2Key) <==>
            exists i, j :: 0 <= i < |d1| && 0 <= j < |d2| &&
                           KeyText(d1[i], c1) != "" && KeyText(d1[i], c1) == KeyText(d2[j], c2) &&
                           x == Merge(d1[i], d2[j], sheet2Key + "_")
    ensures |InnerJoinOf(d1, d2, c1, c2, sheet2Key)| == TotalMatches(d1, d2, KeysMatch(c1, c2))
  {
    JoinMember(d1, d2, KeysMatch(c1, c2), Merger(sheet2Key + "_"), x);
  }

  /** `r1` merged with each record of `bucket`, in order. */
  function MergeAll(r1: Record, bucket: seq<Record>, prefix: string): seq<Record> {
    if bucket == [] then []
    else MergeAll(r1, bucket[..|bucket| - 1], prefix) + [Merge(r1, bucket[|bucket| - 1], prefix)]
  }

  /** Merging a record with its key's bucket gives its nested-loop matches. */
  lemma {:induction false} MergeAllKeyed(r1: Record, d2: seq<Record>, c1: string, c2: string, prefix: string)
    requires KeyText(r1, c1) != ""
    ensures MergeAll(r1, Keyed(d2, c2, KeyText(r1, c1)), prefix) == Matches(r1, d2, KeysMatch(c1, c2), Merger(prefix))
  {
    if d2 != [] {
      MergeAllKeyed(r1, d2[..|d2| - 1], c1, c2, prefix);
    }
  }

  /** A record with an empty key matches nothing. */
  lemma {:induction false} NoMatchesUnkeyed(r1: Record, d2: seq<Record>, c1: string, c2: string, prefix: string)
    requires KeyText(r1, c1) == ""
    ensures Matches(r1, d2, KeysMatch(c1, c2), Merger(prefix)) == []
  {
    if d2 != [] {
      NoMatchesUnkeyed(r1, d2[..|d2| - 1], c1, c2, prefix);
    }
  }

  /** The inner loop of `perform_inner_join`: one first-sheet record merged
      with each record of its key's bucket. */
  method MergeBucket(record1: Record, bucket: seq<Record>, prefix: string) returns (merged: seq<Record>)
    ensures merged == MergeAll(record1, bucket, prefix)
  {
    merged := [];
    for j := 0 to |bucket|
      invariant merged == MergeAll(record1, bucket[..j], prefix)
    {
      assert bucket[..j + 1][..j] == bucket[..j];
      merged := merged + [Merge(record1, bucket[j], prefix)];
    }
    assert bucket[..|bucket|] == bucket;
  }

  /** The loops of `perform_inner_join` over the two chosen sheets. */
  method PerformInnerJoin(d1: seq<Record>, d2: seq<Record>, c1: string, c2: string, sheet2Key: string)
    returns (joined: seq<Record>)
    ensures joined == InnerJoinOf(d1, d2, c1, c2, sheet2Key)
  {
    var lookup := BuildIndex(Empty, d2, c2);
    var prefix := sheet2Key + "_";
    joined := [];
    for i := 0 to |d1|
      invariant joined == Join(d1[..i], d2, KeysMatch(c1, c2), Merger(prefix))
    {
      assert d1[..i + 1][..i] == d1[..i];
      var record1 := d1[i];
      var key := KeyText(record1, c1);
      if key != "" {
        FreshIndex(d2, c2, key);
        MergeAllKeyed(record1, d2, c1, c2, prefix);
      } else {
        NoMatchesUnkeyed(record1, d2, c1, c2, prefix);
      }
      if key != "" && key in lookup.buckets {
        var merged := MergeBucket(record1, lookup.buckets[key], prefix);
        joined := joined + merged;
      }
    }
    assert d1[..|d1|] == d1;
  }
}
