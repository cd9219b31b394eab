/** The by-key indexes of `preprocess_data` (backend_processor.py:260-281)
    and the lookup table of `perform_inner_join`: a Python dict from key
    text to the list of records carrying that key. Python dicts remember
    insertion order, and the lineage trace iterates `prod_order_index` in
    that order, so the index keeps its keys in a list beside the map. */
module Indexing {
  import opened Text
  import opened Records

  datatype Index = Index(buckets: map<string, seq<Record>>, order: seq<string>) {
    /** The key list holds every key of the map once. */
    ghost predicate Valid() {
      NoDup(order) && (forall k :: k in buckets <==> k in order)
    }

    /** `index.get(k, [])` */
    function Bucket(k: string): seq<Record> {
      if k in buckets then buckets[k] else []
    }
  }

  /** `{}` */
  const Empty: Index := Index(map[], [])

  /** `index.setdefault(k, []).append(r)`: a new key goes to the end of the
      insertion order. */
  function Append(idx: Index, k: string, r: Record): (res: Index)
    requires idx.Valid()
    ensures res.Valid()
    ensures res.Bucket(k) == idx.Bucket(k) + [r]
    ensures forall k' :: k' != k ==> res.Bucket(k') == idx.Bucket(k')
    ensures res.buckets.Keys == idx.buckets.Keys + {k}
  {
    if k in idx.buckets then
      Index(idx.buckets[k := idx.buckets[k] + [r]], idx.order)
    else
      var res := Index(idx.buckets[k := [r]], idx.order + [k]);
      NoDupConcat(idx.order, [k]);
      res
  }

  /** One pass of `for record in records: if key: index[key].append(record)`,
      where the key is `str(record.get(col, '')).strip()`. */
  function AddAll(idx: Index, recs: seq<Record>, col: string): (res: Index)
    requires idx.Valid()
    ensures res.Valid()
  {
    if recs == [] then idx
    else
      var prev := AddAll(idx, recs[..|recs| - 1], col);
      var k := KeyText(recs[|recs| - 1], col);
      if k != "" then Append(prev, k, recs[|recs| - 1]) else prev
  }

  /** The records of `recs` whose key is `k`, in input order. */
  function Keyed(recs: seq<Record>, col: string, k: string): seq<Record> {
    if recs == [] then []
    else
      var prev := Keyed(recs[..|recs| - 1], col, k);
      if KeyText(recs[|recs| - 1], col) == k then prev + [recs[|recs| - 1]] else prev
  }

  /** How many records of `recs` have a non-empty key. */
  function CountKeyed(recs: seq<Record>, col: string): nat {
    if recs == [] then 0
    else CountKeyed(recs[..|recs| - 1], col) + (if KeyText(recs[|recs| - 1], col) != "" then 1 else 0)
  }

  /** Sum of the bucket lengths over the given keys. */
  function SumOver(keys: seq<string>, m: map<string, seq<Record>>): nat {
    if keys == [] then 0
    else
      var k := keys[|keys| - 1];
      SumOver(keys[..|keys| - 1], m) + (if k in m then |m[k]| else 0)
  }

  /** Number of records held by the index. */
  function TotalSize(idx: Index): nat {
    SumOver(idx.order, idx.buckets)
  }

  lemma {:induction false} SumOverOther(keys: seq<string>, m: map<string, seq<Record>>, k: string, v: seq<Record>)
    requires k !in keys
    ensures SumOver(keys, m[k := v]) == SumOver(keys, m)
  {
    if keys != [] {
      SumOverOther(keys[..|keys| - 1], m, k, v);
    }
  }

  lemma {:induction false} SumOverGrow(keys: seq<string>, m: map<string, seq<Record>>, k: string, r: Record)
    requires NoDup(keys) && k in keys && k in m
    ensures SumOver(keys, m[k := m[k] + [r]]) == SumOver(keys, m) + 1
  {
    var init := keys[..|keys| - 1];
    assert NoDup(init);
    if keys[|keys| - 1] == k {
      assert k !in init;
      SumOverOther(init, m, k, m[k] + [r]);
    } else {
      assert k in init by {
        var i :| 0 <= i < |keys| && keys[i] == k;
        assert init[i] == k;
      }
      SumOverGrow(init, m, k, r);
    }
  }

  /** Appending a record makes the index hold one more record. */
  lemma {:induction false} AppendSize(idx: Index, k: string, r: Record)
    requires idx.Valid()
    ensures TotalSize(Append(idx, k, r)) == TotalSize(idx) + 1
  {
    if k in idx.buckets {
      SumOverGrow(idx.order, idx.buckets, k, r);
    } else {
      var order' := idx.order + [k];
      assert order'[..|order'| - 1] == idx.order;
      SumOverOther(idx.order, idx.buckets, k, [r]);
    }
  }

  /** Each bucket gains exactly the records of `recs` carrying its key, in
      input order; records with an empty key go nowhere. */
  lemma {:induction false} AddAllBucket(idx: Index, recs: seq<Record>, col: string, k: string)
    requires idx.Valid() && k != ""
    ensures AddAll(idx, recs, col).Bucket(k) == idx.Bucket(k) + Keyed(recs, col, k)
  {
    if recs != [] {
      var init, r := recs[..|recs| - 1], recs[|recs| - 1];
      AddAllBucket(idx, init, col, k);
      var prev, kr := AddAll(idx, init, col), KeyText(r, col);
      if kr == k {
        assert AddAll(idx, recs, col) == Append(prev, k, r);
        assert Keyed(recs, col, k) == Keyed(init, col, k) + [r];
        assert idx.Bucket(k) + Keyed(init, col, k) + [r] == idx.Bucket(k) + (Keyed(init, col, k) + [r]);
      } else {
        assert AddAll(idx, recs, col).Bucket(k) == prev.Bucket(k);
        assert Keyed(recs, col, k) == Keyed(init, col, k);
      }
    }
  }

  /** A key is present afterwards exactly when it was present before or
      some record carries it. */
  lemma {:induction false} AddAllKeys(idx: Index, recs: seq<Record>, col: string, k: string)
    requires idx.Valid()
    ensures k in AddAll(idx, recs, col).buckets <==>
            k in idx.buckets || (k != "" && exists i :: 0 <= i < |recs| && KeyText(recs[i], col) == k)
  {
    if recs != [] {
      var init := recs[..|recs| - 1];
      AddAllKeys(idx, init, col, k);
      if exists i :: 0 <= i < |recs| && KeyText(recs[i], col) == k {
        var i :| 0 <= i < |recs| && KeyText(recs[i], col) == k;
        if i < |init| {
          assert KeyText(init[i], col) == k;
        }
      }
      if exists i :: 0 <= i < |init| && KeyText(init[i], col) == k {
        var i :| 0 <= i < |init| && KeyText(init[i], col) == k;
        assert KeyText(recs[i], col) == k;
      }
    }
  }

  /** The index grows by exactly the number of records with a non-empty key. */
  lemma {:induction false} AddAllSize(idx: Index, recs: seq<Record>, col: string)
    requires idx.Valid()
    ensures TotalSize(AddAll(idx, recs, col)) == TotalSize(idx) + CountKeyed(recs, col)
  {
    if recs != [] {
      var init := recs[..|recs| - 1];
      AddAllSize(idx, init, col);
      var k := KeyText(recs[|recs| - 1], col);
      if k != "" {
        AppendSize(AddAll(idx, init, col), k, recs[|recs| - 1]);
      }
    }
  }

  /** Indexing a record list from an empty index: the keys are exactly the
      non-empty key texts, each bucket lists its records in input order,
      and the buckets together hold every keyed record once. */
  lemma FreshIndex(recs: seq<Record>, col: string, k: string)
    ensures k in AddAll(Empty, recs, col).buckets <==>
            k != "" && exists i :: 0 <= i < |recs| && KeyText(recs[i], col) == k
    ensures k != "" ==> AddAll(Empty, recs, col).Bucket(k) == Keyed(recs, col, k)
    ensures TotalSize(AddAll(Empty, recs, col)) == CountKeyed(recs, col)
  {
    AddAllKeys(Empty, recs, col, k);
    if k != "" {
      AddAllBucket(Empty, recs, col, k);
    }
    AddAllSize(Empty, recs, col);
  }

  /** The loop of `preprocess_data` (and of the lookup in
      `perform_inner_join`) over `recs`, appending into `idx`. */
  method BuildIndex(idx: Index, recs: seq<Record>, col: string) returns (res: Index)
    requires idx.Valid()
    ensures res == AddAll(idx, recs, col)
    ensures res.Valid()
  {
    res := idx;
    for i := 0 to |recs|
      invariant res == AddAll(idx, recs[..i], col)
    {
      assert recs[..i + 1][..i] == recs[..i];
      var key := KeyText(recs[i], col);
      if key != "" {
        res := Append(res, key, recs[i]);
      }
    }
    assert recs[..|recs|] == recs;
  }
}
