/** The VLOOKUP enrichment of `perform_vlookup`
    (backend_processor.py:68-123): rows of the ACOM Navision Purchase sheet
    are keyed by their trimmed `Lots` column (a later row with the same key
    replaces an earlier one), and each production record whose trimmed
    `Lot No_` is such a key receives copies of the purchase row's columns
    2 to 11, read by position. */
module Vlookup {
  import opened Text
  import opened Records

  /** A purchase row with its columns in sheet order; the code reads the
      columns by position (`list(purchase_data.keys())[k]`). */
  type Row = seq<(string, Value)>

  /** `row.get(col, d)`. */
  function RowGetOr(row: Row, col: string, d: Value): Value {
    if row == [] then d
    else if row[0].0 == col then row[0].1
    else RowGetOr(row[1..], col, d)
  }

  /** `str(purchase.get('Lots', '')).strip()` */
  function LookupKey(row: Row): string {
    Strip(Display(RowGetOr(row, "Lots", Str(""))))
  }

  /** `purchase_lookup` after the first loop of `perform_vlookup`. */
  function PurchaseLookup(rows: seq<Row>): map<string, Row> {
    if rows == [] then map[]
    else
      var prev := PurchaseLookup(rows[..|rows| - 1]);
      var key := LookupKey(rows[|rows| - 1]);
      if key != "" then prev[key := rows[|rows| - 1]] else prev
  }

  /** Index of the last element whose key under `keyOf` is `key`, -1
      when there is none. */
  function LastWith<T>(xs: seq<T>, keyOf: T -> string, key: string): (r: int)
    ensures -1 <= r < |xs|
    ensures r >= 0 ==> keyOf(xs[r]) == key
    ensures forall j :: r < j < |xs| ==> keyOf(xs[j]) != key
  {
    if xs == [] then -1
    else if keyOf(xs[|xs| - 1]) == key then |xs| - 1
    else
      var init := xs[..|xs| - 1];
      assert forall j :: 0 <= j < |init| ==> init[j] == xs[j];
      LastWith(init, keyOf, key)
  }

  /** Index of the last row whose key is `key`, -1 when there is none. */
  function LastRowWith(rows: seq<Row>, key: string): (r: int)
    ensures -1 <= r < |rows|
    ensures r >= 0 ==> LookupKey(rows[r]) == key
    ensures forall j :: r < j < |rows| ==> LookupKey(rows[j]) != key
  {
    LastWith(rows, LookupKey, key)
  }

  /** Duplicate `Lots` keys are last-write-wins: a non-empty key is in the
      lookup exactly when some row has it, and it maps to the last such row. */
  lemma {:induction false} PurchaseLookupLastWins(rows: seq<Row>, key: string)
    ensures key in PurchaseLookup(rows) <==> key != "" && LastRowWith(rows, key) >= 0
    ensures key in PurchaseLookup(rows) ==> PurchaseLookup(rows)[key] == rows[LastRowWith(rows, key)]
  {
    if rows != [] {
      var init := rows[..|rows| - 1];
      PurchaseLookupLastWins(init, key);
      if LookupKey(rows[|rows| - 1]) != key {
        assert LastRowWith(rows, key) == LastRowWith(init, key);
        assert LastRowWith(init, key) >= 0 ==> init[LastRowWith(init, key)] == rows[LastRowWith(init, key)];
      }
    }
  }

  /** The first loop of `perform_vlookup`. */
  method BuildPurchaseLookup(rows: seq<Row>) returns (lookup: map<string, Row>)
    ensures lookup == PurchaseLookup(rows)
  {
    lookup := map[];
    for i := 0 to |rows|
      invariant lookup == PurchaseLookup(rows[..i])
    {
      assert rows[..i + 1][..i] == rows[..i];
      var lots := LookupKey(rows[i]);
      if lots != "" {
        lookup := lookup[lots := rows[i]];
      }
    }
    assert rows[..|rows|] == rows;
  }

  /** The field that receives purchase column `k` (1 <= k <= 10). */
  function ColumnName(k: int): string
    requires 1 <= k <= 10
  {
    ["VLOOKUP_Col2", "VLOOKUP_Description", "VLOOKUP_Quantity", "VLOOKUP_Unit",
     "VLOOKUP_Contract", "VLOOKUP_Season", "VLOOKUP_DeliveryDate", "VLOOKUP_Origin",
     "VLOOKUP_Certification", "VLOOKUP_Counterparty"][k - 1]
  }

  /** The purchase column position a VLOOKUP field copies, 0 for any other field. */
  function ColumnPosition(c: string): (k: int)
    ensures 0 <= k <= 10
    ensures 1 <= k ==> ColumnName(k) == c
    ensures forall p :: 1 <= p <= 10 && ColumnName(p) == c ==> p == k
  {
    if c == "VLOOKUP_Col2" then 1
    else if c == "VLOOKUP_Description" then 2
    else if c == "VLOOKUP_Quantity" then 3
    else if c == "VLOOKUP_Unit" then 4
    else if c == "VLOOKUP_Contract" then 5
    else if c == "VLOOKUP_Season" then 6
    else if c == "VLOOKUP_DeliveryDate" then 7
    else if c == "VLOOKUP_Origin" then 8
    else if c == "VLOOKUP_Certification" then 9
    else if c == "VLOOKUP_Counterparty" then 10
    else 0
  }

  /** Field `c` is written from `row`: it is the VLOOKUP field of a position
      the row has. */
  predicate Written(c: string, row: Row) {
    1 <= ColumnPosition(c) < |row|
  }

  /** The chain `if len(purchase_cols) > k: record[...] = ...` for
      k = 1 .. n. */
  function CopyColumns(rec: Record, row: Row, n: nat): Record
    requires n <= 10
  {
    if n == 0 then rec
    else
      var prev := CopyColumns(rec, row, n - 1);
      if n < |row| then prev[ColumnName(n) := row[n].1] else prev
  }

  /** After the chain up to position n, a field holds the row's column at
      its position when that position is at most n and within the row, and
      otherwise is what it was. */
  lemma {:induction false} CopyColumnsField(rec: Record, row: Row, n: nat, c: string)
    requires n <= 10
    ensures var p := ColumnPosition(c);
            if 1 <= p <= n && p < |row| then c in CopyColumns(rec, row, n) && CopyColumns(rec, row, n)[c] == row[p].1
            else (c in CopyColumns(rec, row, n) <==> c in rec) && (c in rec ==> CopyColumns(rec, row, n)[c] == rec[c])
  {
    if n > 0 {
      CopyColumnsField(rec, row, n - 1, c);
    }
  }

  /** How far the chain of `if len(purchase_cols) > k` tests gets for a
      row: the last position copied, at most 10. */
  function Width(row: Row): (n: nat)
    ensures n <= 10
  {
    if |row| <= 1 then 0 else if |row| - 1 < 10 then |row| - 1 else 10
  }

  /** `perform_vlookup`'s treatment of one record. */
  function Enrich(rec: Record, lookup: map<string, Row>): Record {
    var lotNo := KeyText(rec, "Lot No_");
    if lotNo != "" && lotNo in lookup then CopyColumns(rec, lookup[lotNo], Width(lookup[lotNo])) else rec
  }

  /** Whether `perform_vlookup` counts `rec` as a match. */
  predicate HasPurchase(rec: Record, lookup: map<string, Row>) {
    var lotNo := KeyText(rec, "Lot No_");
    lotNo != "" && lotNo in lookup
  }

  /** Only a matching record changes; it gains the VLOOKUP field of
      position k exactly when the purchase row has more than k columns,
      with that column's value, and keeps every other field. */
  lemma {:induction false} EnrichFields(rec: Record, lookup: map<string, Row>, c: string)
    ensures !HasPurchase(rec, lookup) ==> Enrich(rec, lookup) == rec
    ensures HasPurchase(rec, lookup) ==>
              var row := lookup[KeyText(rec, "Lot No_")];
              if Written(c, row) then c in Enrich(rec, lookup) && Enrich(rec, lookup)[c] == row[ColumnPosition(c)].1
              else (c in Enrich(rec, lookup) <==> c in rec) && (c in rec ==> Enrich(rec, lookup)[c] == rec[c])
  {
    if HasPurchase(rec, lookup) {
      CopyColumnsField(rec, lookup[KeyText(rec, "Lot No_")], Width(lookup[KeyText(rec, "Lot No_")]), c);
    }
  }

  /** The records after the merge loop of `perform_vlookup`. */
  function EnrichAll(recs: seq<Record>, lookup: map<string, Row>): (r: seq<Record>)
    ensures |r| == |recs|
    ensures forall i :: 0 <= i < |recs| ==> r[i] == Enrich(recs[i], lookup)
  {
    seq(|recs|, i requires 0 <= i < |recs| => Enrich(recs[i], lookup))
  }

  /** With no purchase lookup no record changes. */
  lemma EnrichNothing(recs: seq<Record>)
    ensures EnrichAll(recs, map[]) == recs
  {
  }

  /** A purchase row read as a dictionary (its columns are distinct). */
  function RowRecord(row: Row): Record {
    map p | p in row :: p.0 := RowGetOr(row, p.0, Null)
  }

  /** `match_count`: never more than the number of records. */
  function VlookupMatchCount(recs: seq<Record>, lookup: map<string, Row>): (n: nat)
    ensures n <= |recs|
    ensures lookup == map[] ==> n == 0
  {
    if recs == [] then 0
    else VlookupMatchCount(recs[..|recs| - 1], lookup) + (if HasPurchase(recs[|recs| - 1], lookup) then 1 else 0)
  }

  /** The merge loop of `perform_vlookup` over the records, with the
      number of matches. */
  method MergePurchases(recs: seq<Record>, lookup: map<string, Row>) returns (out: seq<Record>, matchCount: nat)
    ensures out == EnrichAll(recs, lookup)
    ensures matchCount == VlookupMatchCount(recs, lookup)
  {
    out := recs;
    matchCount := 0;
    for i := 0 to |recs|
      invariant |out| == |recs|
      invariant forall j :: 0 <= j < i ==> out[j] == Enrich(recs[j], lookup)
      invariant forall j :: i <= j < |recs| ==> out[j] == recs[j]
      invariant matchCount == VlookupMatchCount(recs[..i], lookup)
    {
      assert recs[..i + 1][..i] == recs[..i];
      if HasPurchase(recs[i], lookup) {
        out := out[i := Enrich(recs[i], lookup)];
        matchCount := matchCount + 1;
      }
    }
    assert recs[..|recs|] == recs;
  }
}
