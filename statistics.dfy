/** `get_lot_statistics` (backend_processor.py:367-383): a summary of the
    records indexed under one lot number. */
module Statistics {
  import opened Text
  import opened Records

  datatype LotStatistics =
    | NoRecords(error: string)
    | Stats(lotNo: string, totalRecords: nat, totalQuantity: Option<int>,
            documentTypes: set<Value>, postingDates: seq<string>, units: set<Value>)

  /** `sum(float(r.get('Quantity', 0)) for r in records)` when every
      quantity is an integer (an absent one counts as 0); `None` when some
      quantity is not an integer. */
  function QuantityTotal(records: seq<Record>): (t: Option<int>)
    ensures t.Some? <==> forall i :: 0 <= i < |records| ==> GetOr(records[i], "Quantity", Int(0)).Int?
  {
    if records == [] then Some(0)
    else
      var init := records[..|records| - 1];
      var q := GetOr(records[|records| - 1], "Quantity", Int(0));
      var prev := QuantityTotal(init);
      assert forall i :: 0 <= i < |init| ==> init[i] == records[i];
      if prev.Some? && q.Int? then Some(prev.value + q.i) else None
  }

  /** The total of two record lists together is the sum of their totals. */
  lemma {:induction false} QuantityTotalAppend(a: seq<Record>, b: seq<Record>)
    requires QuantityTotal(a).Some? && QuantityTotal(b).Some?
    ensures QuantityTotal(a + b) == Some(QuantityTotal(a).value + QuantityTotal(b).value)
  {
    if b == [] {
      assert a + b == a;
    } else {
      var init := b[..|b| - 1];
      assert (a + b)[..|a + b| - 1] == a + init;
      assert forall i :: 0 <= i < |init| ==> init[i] == b[i];
      QuantityTotalAppend(a, init);
    }
  }

  /** `set(r.get(col, d) for r in records)`. */
  function ColumnValues(records: seq<Record>, col: string, d: Value): (s: set<Value>)
    ensures forall v :: v in s <==> exists i :: 0 <= i < |records| && GetOr(records[i], col, d) == v
    ensures |s| <= |records|
  {
    if records == [] then {}
    else
      var init := records[..|records| - 1];
      assert forall i :: 0 <= i < |init| ==> init[i] == records[i];
      ColumnValues(init, col, d) + {GetOr(records[|records| - 1], col, d)}
  }

  /** `[str(r.get('Posting Date', '')) for r in records]`. */
  function PostingDateTexts(records: seq<Record>): (s: seq<string>)
    ensures |s| == |records|
    ensures forall i :: 0 <= i < |records| ==> s[i] == Display(GetOr(records[i], "Posting Date", Str("")))
  {
    seq(|records|, i requires 0 <= i < |records| => Display(GetOr(records[i], "Posting Date", Str(""))))
  }

  /** The statistics of the records found under `lotNo`: an error when there
      are none; otherwise the record count, the quantity total, the distinct
      document types and units, and the distinct posting dates (as text) in
      increasing order. */
  function LotStats(lotNo: string, records: seq<Record>): (s: LotStatistics)
    ensures s.NoRecords? <==> records == []
    ensures s.NoRecords? ==> s.error == "No records found for lot " + lotNo
    ensures s.Stats? ==> s.lotNo == lotNo && s.totalRecords == |records|
    ensures s.Stats? ==> s.totalQuantity == QuantityTotal(records)
    ensures s.Stats? ==> 1 <= |s.documentTypes| <= |records| && 1 <= |s.units| <= |records|
    ensures s.Stats? ==> forall v :: v in s.documentTypes <==>
                           exists i :: 0 <= i < |records| && GetOr(records[i], "Document Type", Str("")) == v
    ensures s.Stats? ==> forall v :: v in s.units <==>
                           exists i :: 0 <= i < |records| && GetOr(records[i], "Unit of Measure", Str("")) == v
    ensures s.Stats? ==> StrictlySorted(s.postingDates)
    ensures s.Stats? ==> forall d :: d in s.postingDates <==>
                           exists i :: 0 <= i < |records| && Display(GetOr(records[i], "Posting Date", Str(""))) == d
  {
    if records == [] then NoRecords("No records found for lot " + lotNo)
    else
      var types := ColumnValues(records, "Document Type", Str(""));
      var units := ColumnValues(records, "Unit of Measure", Str(""));
      assert GetOr(records[0], "Document Type", Str("")) in types;
      assert GetOr(records[0], "Unit of Measure", Str("")) in units;
      var dates := PostingDateTexts(records);
      assert forall d :: d in dates <==>
               exists i :: 0 <= i < |records| && Display(GetOr(records[i], "Posting Date", Str(""))) == d by {
        forall d | d in dates ensures exists i :: 0 <= i < |records| && Display(GetOr(records[i], "Posting Date", Str(""))) == d {
          var i :| 0 <= i < |dates| && dates[i] == d;
        }
      }
      Stats(lotNo, |records|, QuantityTotal(records), types, SortedDistinct(dates), units)
  }
}
