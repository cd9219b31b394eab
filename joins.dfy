/** The nested-loop join both modules of the backend use: for every item,
    in order, every row of a table that it matches, in table order, gives
    one output entry. `build_purchase_lot_mapping`
    (backend_processor.py:138-224) runs five such stages, and
    `perform_inner_join` (backend_processor.py:385-420) computes one through
    a lookup index. */
module Joins {
  import opened Records

  /** The entries one item produces against `table`, in table order. */
  function Matches<A, B>(item: A, table: seq<Record>, m: (A, Record) -> bool, mk: (A, Record) -> B): seq<B> {
    if table == [] then []
    else
      var row := table[|table| - 1];
      Matches(item, table[..|table| - 1], m, mk) + (if m(item, row) then [mk(item, row)] else [])
  }

  /** A whole stage: the entries of every item, items in order. */
  function Join<A, B>(items: seq<A>, table: seq<Record>, m: (A, Record) -> bool, mk: (A, Record) -> B): seq<B> {
    if items == [] then []
    else Join(items[..|items| - 1], table, m, mk) + Matches(items[|items| - 1], table, m, mk)
  }

  /** Number of rows of `table` that `item` matches. */
  function MatchCount<A>(item: A, table: seq<Record>, m: (A, Record) -> bool): nat {
    if table == [] then 0
    else MatchCount(item, table[..|table| - 1], m) + (if m(item, table[|table| - 1]) then 1 else 0)
  }

  /** Sum of the per-item match counts. */
  function TotalMatches<A>(items: seq<A>, table: seq<Record>, m: (A, Record) -> bool): nat {
    if items == [] then 0
    else TotalMatches(items[..|items| - 1], table, m) + MatchCount(items[|items| - 1], table, m)
  }

  /** An item's entries are the rows it matches, one entry per row. */
  lemma {:induction false} MatchesMember<A, B>(item: A, table: seq<Record>, m: (A, Record) -> bool, mk: (A, Record) -> B, l: B)
    ensures l in Matches(item, table, m, mk) <==> exists j :: 0 <= j < |table| && m(item, table[j]) && l == mk(item, table[j])
  {
    if table != [] {
      var init := table[..|table| - 1];
      MatchesMember(item, init, m, mk, l);
      assert forall j :: 0 <= j < |init| ==> init[j] == table[j];
    }
  }

  /** One entry per matched row. */
  lemma {:induction false} MatchesSize<A, B>(item: A, table: seq<Record>, m: (A, Record) -> bool, mk: (A, Record) -> B)
    ensures |Matches(item, table, m, mk)| == MatchCount(item, table, m)
  {
    if table != [] {
      MatchesSize(item, table[..|table| - 1], m, mk);
    }
  }

  lemma {:induction false} JoinSize<A, B>(items: seq<A>, table: seq<Record>, m: (A, Record) -> bool, mk: (A, Record) -> B)
    ensures |Join(items, table, m, mk)| == TotalMatches(items, table, m)
  {
    if items != [] {
      JoinSize(items[..|items| - 1], table, m, mk);
      MatchesSize(items[|items| - 1], table, m, mk);
    }
  }

  /** Whether one pair is an item with a row it matches, giving `l`. */
  ghost predicate JoinedPair<A, B>(items: seq<A>, table: seq<Record>, m: (A, Record) -> bool, mk: (A, Record) -> B,
                                   l: B, i: int, j: int) {
    0 <= i < |items| && 0 <= j < |table| && m(items[i], table[j]) && l == mk(items[i], table[j])
  }

  lemma {:induction false} JoinHas<A, B>(items: seq<A>, table: seq<Record>, m: (A, Record) -> bool, mk: (A, Record) -> B, l: B)
    ensures l in Join(items, table, m, mk) <==> exists i, j :: JoinedPair(items, table, m, mk, l, i, j)
  {
    if items != [] {
      var init := items[..|items| - 1];
      var last := items[|items| - 1];
      JoinHas(init, table, m, mk, l);
      MatchesMember(last, table, m, mk, l);
      assert Join(items, table, m, mk) == Join(init, table, m, mk) + Matches(last, table, m, mk);
      if l in Join(init, table, m, mk) {
        var i, j :| JoinedPair(init, table, m, mk, l, i, j);
        assert JoinedPair(items, table, m, mk, l, i, j);
      } else if l in Matches(last, table, m, mk) {
        var j :| 0 <= j < |table| && m(last, table[j]) && l == mk(last, table[j]);
        assert JoinedPair(items, table, m, mk, l, |items| - 1, j);
      }
      if exists i, j :: JoinedPair(items, table, m, mk, l, i, j) {
        var i, j :| JoinedPair(items, table, m, mk, l, i, j);
        if i < |init| {
          assert JoinedPair(init, table, m, mk, l, i, j);
        }
      }
    }
  }

  /** A stage's entries are exactly the items paired with the rows they
      match, one entry per pair: its size is the sum of the per-item match
      counts. */
  lemma JoinMember<A, B>(items: seq<A>, table: seq<Record>, m: (A, Record) -> bool, mk: (A, Record) -> B, l: B)
    ensures l in Join(items, table, m, mk) <==>
            exists i, j :: 0 <= i < |items| && 0 <= j < |table| && m(items[i], table[j]) && l == mk(items[i], table[j])
    ensures |Join(items, table, m, mk)| == TotalMatches(items, table, m)
  {
    JoinSize(items, table, m, mk);
    JoinHas(items, table, m, mk, l);
    if l in Join(items, table, m, mk) {
      var i, j :| JoinedPair(items, table, m, mk, l, i, j);
    }
    if exists i, j :: 0 <= i < |items| && 0 <= j < |table| && m(items[i], table[j]) && l == mk(items[i], table[j]) {
      var i, j :| 0 <= i < |items| && 0 <= j < |table| && m(items[i], table[j]) && l == mk(items[i], table[j]);
      assert JoinedPair(items, table, m, mk, l, i, j);
    }
  }

  /** The nested loops of one stage. */
  method RunJoin<A, B>(items: seq<A>, table: seq<Record>, m: (A, Record) -> bool, mk: (A, Record) -> B)
    returns (out: seq<B>)
    ensures out == Join(items, table, m, mk)
  {
    out := [];
    for i := 0 to |items|
      invariant out == Join(items[..i], table, m, mk)
    {
      assert items[..i + 1][..i] == items[..i];
      ghost var before := out;
      for j := 0 to |table|
        invariant out == before + Matches(items[i], table[..j], m, mk)
      {
        assert table[..j + 1][..j] == table[..j];
        if m(items[i], table[j]) {
          out := out + [mk(items[i], table[j])];
        }
      }
      assert table[..|table|] == table;
    }
    assert items[..|items|] == items;
  }
}
