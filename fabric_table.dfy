/** What `LotLineageTracker` (fabric-lineage-tracker-fixed.py) reads from its
    production table: Spark filters, the process types of a lot, the
    grouping of a lot's records by process, the details a node shows and
    the lots a node's children are traced from. All of it is a function of
    the table and the lot. */
module FabricTable {
  import opened Text
  import opened Records
  import opened ExcelDate

  // ---------------------------------------------------------------------
  // Spark filters

  /** `df[col] == v` inside `filter`: SQL equality, never true for null. */
  predicate SqlEq(a: Value, b: Value) {
    a != Null && b != Null && a == b
  }

  /** `df[col] != v` inside `filter`: never true for null either. */
  predicate SqlNe(a: Value, b: Value) {
    a != Null && b != Null && a != b
  }

  /** `df.filter(df[col] == v).collect()`, each row as a dictionary: the
      rows whose column equals `v`, in table order; none for a null `v`. */
  function Where(table: seq<Record>, col: string, v: Value): (r: seq<Record>)
    ensures |r| <= |table|
    ensures v == Null ==> r == []
  {
    if table == [] then []
    else
      var init := table[..|table| - 1];
      var last := table[|table| - 1];
      assert table == init + [last];
      Where(init, col, v) + if SqlEq(Get(last, col), v) then [last] else []
  }

  /** A row is selected exactly when it is in the table and its column
      equals `v` under SQL equality. */
  lemma {:induction false} WhereMembers(table: seq<Record>, col: string, v: Value)
    ensures forall x :: x in Where(table, col, v) <==> x in table && SqlEq(Get(x, col), v)
  {
    if table != [] {
      var init := table[..|table| - 1];
      assert table == init + [table[|table| - 1]];
      WhereMembers(init, col, v);
    }
  }

  /** Filtering a table in two parts filters each part in turn: the rows
      keep their table order. */
  lemma {:induction false} WhereConcat(a: seq<Record>, b: seq<Record>, col: string, v: Value)
    ensures Where(a + b, col, v) == Where(a, col, v) + Where(b, col, v)
  {
    if b == [] {
      assert a + b == a;
    } else {
      var init := b[..|b| - 1];
      assert (a + b)[..|a + b| - 1] == a + init;
      WhereConcat(a, init, col, v);
    }
  }

  // ---------------------------------------------------------------------
  // get_process_types_for_lot

  /** `record.get('Process Type', 'Unknown')` */
  function ProcessTypeOf(r: Record): Value {
    GetOr(r, "Process Type", Str("Unknown"))
  }

  /** `if process_type:` */
  predicate HasType(r: Record) {
    Truthy(ProcessTypeOf(r))
  }

  /** `str(process_type).strip()` */
  function TypeText(r: Record): string {
    Strip(Display(ProcessTypeOf(r)))
  }

  /** The stripped text of every truthy process type of the records. */
  function TypeSet(records: seq<Record>): set<string> {
    if records == [] then {}
    else
      var r := records[|records| - 1];
      TypeSet(records[..|records| - 1]) + if HasType(r) then {TypeText(r)} else {}
  }

  /** One more record adds its stripped type, when truthy. */
  lemma TypeSetSnoc(records: seq<Record>, r: Record)
    ensures TypeSet(records + [r]) == TypeSet(records) + if HasType(r) then {TypeText(r)} else {}
  {
    assert (records + [r])[..|records|] == records;
  }

  /** The `f`-images of the elements of `xs` that satisfy `p`: `TypeSet`
      with the record-level functions left abstract. */
  ghost function Image<T, U>(xs: seq<T>, p: T -> bool, f: T -> U): set<U> {
    if xs == [] then {}
    else Image(xs[..|xs| - 1], p, f) + if p(xs[|xs| - 1]) then {f(xs[|xs| - 1])} else {}
  }

  lemma {:induction false} ImageMember<T, U>(xs: seq<T>, p: T -> bool, f: T -> U, y: U)
    ensures y in Image(xs, p, f) <==> exists i :: 0 <= i < |xs| && p(xs[i]) && y == f(xs[i])
  {
    if xs != [] {
      var init := xs[..|xs| - 1];
      ImageMember(init, p, f, y);
      if exists i :: 0 <= i < |xs| && p(xs[i]) && y == f(xs[i]) {
        var i :| 0 <= i < |xs| && p(xs[i]) && y == f(xs[i]);
        if i < |init| {
          assert init[i] == xs[i];
        }
      }
      if y in Image(init, p, f) {
        var i :| 0 <= i < |init| && p(init[i]) && y == f(init[i]);
        assert xs[i] == init[i];
      }
    }
  }

  lemma {:induction false} TypeSetImage(records: seq<Record>)
    ensures TypeSet(records) == Image(records, HasType, TypeText)
  {
    if records != [] {
      TypeSetImage(records[..|records| - 1]);
    }
  }

  /** A text is in the set exactly when some record with a truthy type
      strips to it. */
  lemma TypeSetMembers(records: seq<Record>)
    ensures forall x :: x in TypeSet(records) <==>
              exists i :: 0 <= i < |records| && HasType(records[i]) && x == TypeText(records[i])
  {
    TypeSetImage(records);
    forall x {
      ImageMember(records, HasType, TypeText, x);
    }
  }

  /** `get_process_types_for_lot` as a set (the source turns its set into
      a list in an unspecified order): `Not Found` alone for a lot without
      records, else the distinct stripped truthy process types, else
      `Unknown` alone. Never empty. */
  function ProcessTypes(records: seq<Record>): (t: set<string>)
    ensures t != {}
    ensures records == [] ==> t == {"Not Found"}
  {
    if records == [] then {"Not Found"}
    else
      var types := TypeSet(records);
      if types == {} then {"Unknown"} else types
  }

  /** The three outcomes of `get_process_types_for_lot`, by what the
      records hold. */
  lemma ProcessTypesCases(records: seq<Record>)
    ensures records != [] && (forall i :: 0 <= i < |records| ==> !HasType(records[i])) ==>
              ProcessTypes(records) == {"Unknown"}
    ensures (exists i :: 0 <= i < |records| && HasType(records[i])) ==>
              forall x :: x in ProcessTypes(records) <==>
                exists i :: 0 <= i < |records| && HasType(records[i]) && x == TypeText(records[i])
  {
    TypeSetMembers(records);
    if exists i :: 0 <= i < |records| && HasType(records[i]) {
      var i :| 0 <= i < |records| && HasType(records[i]);
      assert TypeText(records[i]) in TypeSet(records);
      assert ProcessTypes(records) == TypeSet(records);
    } else if records != [] {
      assert forall x :: x !in TypeSet(records);
      assert TypeSet(records) == {};
    }
  }

  // ---------------------------------------------------------------------
  // Grouping by process

  /** `record.get('Process Type') or 'Unknown'`: the key a record is
      grouped under. */
  function GroupKey(r: Record): Value {
    var pt := Get(r, "Process Type");
    if Truthy(pt) then pt else Str("Unknown")
  }

  /** `processes[key]`: the records grouped under `key`, in order. */
  function Group(records: seq<Record>, key: Value): (g: seq<Record>)
    ensures |g| <= |records|
  {
    if records == [] then []
    else
      var init := records[..|records| - 1];
      var last := records[|records| - 1];
      assert records == init + [last];
      Group(init, key) + if GroupKey(last) == key then [last] else []
  }

  /** A record is in the group of its own key and of no other. */
  lemma {:induction false} GroupMembers(records: seq<Record>, key: Value)
    ensures forall x :: x in Group(records, key) <==> x in records && GroupKey(x) == key
  {
    if records != [] {
      var init := records[..|records| - 1];
      assert records == init + [records[|records| - 1]];
      GroupMembers(init, key);
    }
  }

  // ---------------------------------------------------------------------
  // Details of a node

  datatype Basic = Basic(itemNo: Value, description: Value, certified: Value, unitOfMeasure: Value,
                         locationCode: Value, counterparty: Value)
  datatype OutputDetail = OutputDetail(productionOrder: Value, outputQuantity: Value, outputDate: string)
  datatype ConsumptionDetail = ConsumptionDetail(consumptionQuantity: Value, consumptionDate: string)
  datatype TransferDetail = TransferDetail(transferQuantity: Value, transferDate: string, transferredTo: Value)
  datatype PurchaseDetail = PurchaseDetail(quantity: Value, date: string)

  /** `node['details']`: each group of keys is absent until written. */
  datatype Details = Details(basic: Option<Basic>, output: Option<OutputDetail>,
                             consumption: Option<ConsumptionDetail>, transfer: Option<TransferDetail>,
                             purchase: Option<PurchaseDetail>)

  /** `{}` */
  const NoDetails := Details(None, None, None, None, None)

  /** The basic details, read from the lot's first record; the unit of
      measure defaults to `KG` when the column is absent. */
  function BasicOf(first: Record): Basic {
    Basic(GetOr(first, "Item No_", Str("")), GetOr(first, "Description", Str("")),
          GetOr(first, "Certified", Str("")), GetOr(first, "Unit of Measure", Str("KG")),
          GetOr(first, "Location Code", Str("")), GetOr(first, "Counterparty", Str("")))
  }

  /** `record.get('Quantity (Inv_UoM)', 0)` */
  function QuantityOf(r: Record): Value {
    GetOr(r, "Quantity (Inv_UoM)", Int(0))
  }

  /** `parse_excel_date(record.get('Date'))` */
  function DateOf(r: Record): string {
    ParseExcelDate(Get(r, "Date"))
  }

  /** Whether a record names a production order (a truthy `Prod_ Order No_`). */
  predicate HasOrder(r: Record) {
    Truthy(Get(r, "Prod_ Order No_"))
  }

  /** The position of the last record naming a production order, or -1. */
  function LastOrdered(recs: seq<Record>): (k: int)
    ensures -1 <= k < |recs|
    ensures k >= 0 ==> HasOrder(recs[k])
  {
    if recs == [] then -1
    else if HasOrder(recs[|recs| - 1]) then |recs| - 1
    else LastOrdered(recs[..|recs| - 1])
  }

  /** No record after the one found names an order. */
  lemma {:induction false} LastOrderedIsLast(recs: seq<Record>)
    ensures forall j :: LastOrdered(recs) < j < |recs| ==> !HasOrder(recs[j])
  {
    if recs != [] && !HasOrder(recs[|recs| - 1]) {
      var init := recs[..|recs| - 1];
      LastOrderedIsLast(init);
      assert forall j :: 0 <= j < |init| ==> init[j] == recs[j];
    }
  }

  /** The output details: written for every Output record naming an
      order, so the last such record's. */
  function OutputDetailOf(outputs: seq<Record>): Option<OutputDetail> {
    var k := LastOrdered(outputs);
    if k < 0 then None
    else Some(OutputDetail(Get(outputs[k], "Prod_ Order No_"), QuantityOf(outputs[k]), DateOf(outputs[k])))
  }

  /** The consumption details: the last Consumption record naming an
      order. */
  function ConsumptionDetailOf(consumptions: seq<Record>): Option<ConsumptionDetail> {
    var k := LastOrdered(consumptions);
    if k < 0 then None
    else Some(ConsumptionDetail(QuantityOf(consumptions[k]), DateOf(consumptions[k])))
  }

  /** The transfer details of one Transfer record. */
  function TransferDetailFor(t: Record): TransferDetail {
    TransferDetail(QuantityOf(t), DateOf(t), Get(t, "Lot Dest"))
  }

  /** The transfer details: written for every Transfer record, so the
      last one's. */
  function TransferDetailOf(transfers: seq<Record>): Option<TransferDetail> {
    if transfers == [] then None else Some(TransferDetailFor(transfers[|transfers| - 1]))
  }

  /** The purchase details: the first Purchase record's. */
  function PurchaseDetailOf(purchases: seq<Record>): Option<PurchaseDetail> {
    if purchases == [] then None else Some(PurchaseDetail(QuantityOf(purchases[0]), DateOf(purchases[0])))
  }

  /** The details of a traced lot with these records. */
  function DetailsOf(records: seq<Record>): (d: Details)
    ensures records == [] <==> d == NoDetails
    ensures records != [] ==> d.basic == Some(BasicOf(records[0]))
  {
    if records == [] then NoDetails
    else Details(Some(BasicOf(records[0])),
                 OutputDetailOf(Group(records, Str("Output"))),
                 ConsumptionDetailOf(Group(records, Str("Consumption"))),
                 TransferDetailOf(Group(records, Str("Transfer"))),
                 PurchaseDetailOf(Group(records, Str("Purchase"))))
  }

  // ---------------------------------------------------------------------
  // Which lots the children are traced from

  /** The set built from an order's records: the `Lot No_` of each record
      whose process type is `pt` and whose lot differs from `lot`. */
  function OrderLots(prodRecords: seq<Record>, pt: string, lot: Value): (s: set<Value>)
    ensures lot !in s
  {
    if prodRecords == [] then {}
    else
      var r := prodRecords[|prodRecords| - 1];
      OrderLots(prodRecords[..|prodRecords| - 1], pt, lot) +
        if Get(r, "Process Type") == Str(pt) && Get(r, "Lot No_") != lot then {Get(r, "Lot No_")} else {}
  }

  /** A lot is collected exactly when some record of the order has
      process type `pt` and that lot, and the lot is not `lot`. */
  lemma {:induction false} OrderLotsMembers(prodRecords: seq<Record>, pt: string, lot: Value)
    ensures forall x :: x in OrderLots(prodRecords, pt, lot) <==>
              exists i :: 0 <= i < |prodRecords| && Get(prodRecords[i], "Process Type") == Str(pt) &&
                          Get(prodRecords[i], "Lot No_") != lot && Get(prodRecords[i], "Lot No_") == x
  {
    if prodRecords != [] {
      var init := prodRecords[..|prodRecords| - 1];
      OrderLotsMembers(init, pt, lot);
      assert forall i :: 0 <= i < |init| ==> init[i] == prodRecords[i];
    }
  }

  /** The truthy members of a set of lots: those the source traces. */
  function TruthyLots(s: set<Value>): set<Value> {
    set x | x in s && Truthy(x)
  }

  /** The lots traced for one production order: the truthy lots of
      process type `pt`, other than `lot`, among the order's records. */
  function OrderChildren(production: seq<Record>, order: Value, pt: string, lot: Value): multiset<Value> {
    multiset(TruthyLots(OrderLots(Where(production, "Prod_ Order No_", order), pt, lot)))
  }

  /** The lots traced for a group of records: for each record naming an
      order, that order's lots. A lot met through two orders counts twice. */
  function ExpectedChildren(production: seq<Record>, recs: seq<Record>, pt: string, lot: Value): multiset<Value> {
    if recs == [] then multiset{}
    else
      var r := recs[|recs| - 1];
      ExpectedChildren(production, recs[..|recs| - 1], pt, lot) +
        if HasOrder(r) then OrderChildren(production, Get(r, "Prod_ Order No_"), pt, lot) else multiset{}
  }

  /** Every lot traced for a group is truthy and is not the lot itself. */
  lemma {:induction false} ExpectedChildrenLots(production: seq<Record>, recs: seq<Record>, pt: string, lot: Value)
    ensures forall x :: x in ExpectedChildren(production, recs, pt, lot) ==> Truthy(x) && x != lot
  {
    if recs != [] {
      ExpectedChildrenLots(production, recs[..|recs| - 1], pt, lot);
    }
  }

  /** The rows transferred into `lot` from another lot. */
  function SourceTransfers(table: seq<Record>, lot: Value): (r: seq<Record>)
    ensures |r| <= |table|
  {
    if table == [] then []
    else
      var x := table[|table| - 1];
      SourceTransfers(table[..|table| - 1], lot) +
        if SqlEq(Get(x, "Process Type"), Str("Transfer")) && SqlEq(Get(x, "Lot Dest"), lot) &&
           SqlNe(Get(x, "Lot No_"), lot)
        then [x] else []
  }

  /** A row is a source transfer exactly when it is a Transfer row whose
      `Lot Dest` is `lot` and whose `Lot No_` is another lot, all three
      compared as SQL does. */
  lemma {:induction false} SourceTransfersMembers(table: seq<Record>, lot: Value)
    ensures forall x :: x in SourceTransfers(table, lot) <==>
              x in table && SqlEq(Get(x, "Process Type"), Str("Transfer")) &&
              SqlEq(Get(x, "Lot Dest"), lot) && SqlNe(Get(x, "Lot No_"), lot)
  {
    if table != [] {
      var init := table[..|table| - 1];
      assert table == init + [table[|table| - 1]];
      SourceTransfersMembers(init, lot);
    }
  }

  /** The truthy `Lot No_` of each row other than `lot`, in order. */
  function TruthyLotsOf(rows: seq<Record>, lot: Value): (r: seq<Value>)
    ensures |r| <= |rows|
  {
    if rows == [] then []
    else
      var l := Get(rows[|rows| - 1], "Lot No_");
      TruthyLotsOf(rows[..|rows| - 1], lot) + if Truthy(l) && l != lot then [l] else []
  }

  /** A lot is listed exactly when some row carries it, and it is truthy
      and not `lot`. */
  lemma {:induction false} TruthyLotsOfMembers(rows: seq<Record>, lot: Value)
    ensures forall x :: x in TruthyLotsOf(rows, lot) <==>
              exists i :: 0 <= i < |rows| && Get(rows[i], "Lot No_") == x && Truthy(x) && x != lot
  {
    if rows != [] {
      var init := rows[..|rows| - 1];
      TruthyLotsOfMembers(init, lot);
      assert forall i :: 0 <= i < |init| ==> init[i] == rows[i];
    }
  }

  /** `k` copies of `s` one after another. */
  function Repeat<T>(s: seq<T>, k: nat): (r: seq<T>)
    ensures |r| == k * |s|
  {
    if k == 0 then [] else Repeat(s, k - 1) + s
  }

  /** The lots traced as `Transferred from`: the source-transfer scan is
      repeated for every Transfer record of the lot. */
  function TransferredFrom(production: seq<Record>, transfers: seq<Record>, lot: Value): seq<Value> {
    Repeat(TruthyLotsOf(SourceTransfers(production, lot), lot), |transfers|)
  }

  /** The lots traced as `Transferred to`: each Transfer record's truthy
      `Lot Dest` other than `lot`, in order. */
  function TransferredTo(transfers: seq<Record>, lot: Value): (r: seq<Value>)
    ensures |r| <= |transfers|
  {
    if transfers == [] then []
    else
      var d := Get(transfers[|transfers| - 1], "Lot Dest");
      TransferredTo(transfers[..|transfers| - 1], lot) + if Truthy(d) && d != lot then [d] else []
  }

  /** One more Transfer record read: it is the new transfer detail, and
      its truthy `Lot Dest` other than `lot` is the next lot transferred
      to. */
  lemma TransfersStep(transfers: seq<Record>, i: nat, lot: Value)
    requires i < |transfers|
    ensures TransferDetailOf(transfers[..i + 1]) == Some(TransferDetailFor(transfers[i]))
    ensures var d := Get(transfers[i], "Lot Dest");
            TransferredTo(transfers[..i + 1], lot) ==
            TransferredTo(transfers[..i], lot) + if Truthy(d) && d != lot then [d] else []
  {
    assert transfers[..i + 1][..i] == transfers[..i];
  }

  /** The prefix of a sequence as long as the sequence is all of it. */
  lemma WholePrefix<T>(s: seq<T>)
    ensures s[..|s|] == s
  {
  }

  /** Every lot a lot was transferred to is truthy and another lot. */
  lemma {:induction false} TransferredToLots(transfers: seq<Record>, lot: Value)
    ensures forall x :: x in TransferredTo(transfers, lot) ==> Truthy(x) && x != lot
  {
    if transfers != [] {
      TransferredToLots(transfers[..|transfers| - 1], lot);
    }
  }
}
