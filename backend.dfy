/** `CoffeeLotLineageTracker` (backend_processor.py:11-420): the sheets of
    one workbook, the indexes built over the main sheet, and the sale
    contract to consumption lots map of the five-step join. */
module Backend {
  import opened Text
  import opened Records
  import opened Indexing
  import opened Joins
  import opened Vlookup
  import opened ContractJoin
  import opened InnerJoin
  import opened Statistics
  import opened BackendLineage

  /** What `get_lot_lineage` returns. */
  datatype LineageResult = LineageResult(queriedLot: Value, lineageTree: Option<Node>, totalNodesTraced: nat)

  /** What `get_lot_lineage` promises for one queried lot: no tree exactly
      when the depth bound is negative or the lot has no records (a lot
      number that is not a string never has any, the index keys being
      strings); otherwise a sound tree rooted at the lot at depth 0 in
      which no lot appears twice, and at least as many lots counted as
      traced as the tree has nodes. */
  ghost predicate Traces(res: LineageResult, lotNo: Value, maxDepth: int, lotIndex: Index, prodOrderIndex: Index) {
    res.queriedLot == lotNo &&
    (res.lineageTree.None? <==> maxDepth < 0 || !lotNo.Str? || lotIndex.Bucket(lotNo.s) == []) &&
    (res.lineageTree.Some? ==>
       var t := res.lineageTree.value;
       lotNo.Str? && t.lotNo == lotNo.s && t.depth == 0 &&
       Sound(t, Both, lotIndex, prodOrderIndex, maxDepth) &&
       NoDup(TreeLots(t)) && |TreeLots(t)| <= res.totalNodesTraced) &&
    (res.totalNodesTraced == 0 <==> maxDepth < 0)
  }

  /** The lot and production order sets a trace ends with, and the
      production orders its root's destination branch followed. */
  datatype Visits = Visits(lots: set<string>, orders: set<string>, followed: set<string>)

  /** How a lineage result follows from the trace that made it. For a
      string lot number: the tree and the two visited sets are exactly what
      `Trace` gives from empty sets; the count of traced nodes is the number
      of visited lots; the tree's lots are exactly the visited lots that have
      records; every other visited lot is a candidate child of a lot of the
      tree, and every marked production order has a reason at one of them;
      and, when the depth bound lets the root have children, every lot other
      than the root consumed by the root's production order was visited,
      every production order consuming the root was followed from the root
      or marked before the scan reached it, and every Output lot of each
      order followed from the root was visited. A lot number that is not a
      string is counted as the one visited lot. */
  ghost predicate Explains(res: LineageResult, v: Visits, lotNo: Value, maxDepth: int,
                           lotIndex: Index, prodOrderIndex: Index) {
    if lotNo.Str? then
      var lot := lotNo.s;
      var b := Trace(lot, 0, Both, maxDepth, lotIndex, prodOrderIndex, {}, {});
      res.lineageTree == b.node && v.lots == b.lots && v.orders == b.orders &&
      res.totalNodesTraced == |v.lots| &&
      (maxDepth < 0 ==> v.lots == {}) && (0 <= maxDepth ==> lot in v.lots) &&
      ToSet(Lots(res.lineageTree)) == (set x | x in v.lots && lotIndex.Bucket(x) != []) &&
      Reached(Lots(res.lineageTree), {lot}, v.lots, lotIndex, prodOrderIndex) &&
      Marked(Lots(res.lineageTree), {}, v.orders, lotIndex, prodOrderIndex) &&
      (res.lineageTree.Some? && 0 < maxDepth ==>
         AllVisited(OriginLots(lotIndex, prodOrderIndex, lot), lot, v.lots) &&
         ScannedAll(lot, prodOrderIndex, v.followed, v.orders) &&
         FollowedVisited(lot, prodOrderIndex, v.followed, v.lots))
    else
      res.totalNodesTraced == if maxDepth < 0 then 0 else 1
  }

  /** A trace from empty visited sets visits the tree's lots and the lots
      without records it ran into, and nothing else. */
  lemma VisitedCount(lots: seq<string>, visited: set<string>, lotIndex: Index)
    requires Within(lots, {}, visited) && Covered(lots, {}, visited, lotIndex)
    requires forall x :: x in lots ==> lotIndex.Bucket(x) != []
    ensures ToSet(lots) == set x | x in visited && lotIndex.Bucket(x) != []
    ensures |visited| == |lots| + |set x | x in visited && lotIndex.Bucket(x) == []|
  {
    var unindexed := set x | x in visited && lotIndex.Bucket(x) == [];
    assert visited == ToSet(lots) + unindexed;
    assert ToSet(lots) * unindexed == {};
    NoDupCard(lots);
  }

  class CoffeeLotLineageTracker {
    var records: seq<Record>
    var productionPurchase: seq<Record>
    var acomNavisionPurchase: seq<Row>
    var eaclNavision: seq<Record>
    var acomSale: seq<Record>
    var acomNavTransform: seq<Record>
    var acomNavBridge: seq<Record>
    var acomProductionResults: seq<Record>
    var lotIndex: Index
    var prodOrderIndex: Index
    var purchaseLotMap: map<string, seq<Value>>

    /** Each index lists each of its keys once. */
    ghost predicate Valid()
      reads this
    {
      lotIndex.Valid() && prodOrderIndex.Valid()
    }

    /** `__init__`: every sheet, index and map starts empty. */
    constructor()
      ensures Valid()
      ensures records == [] && productionPurchase == [] && acomNavisionPurchase == []
      ensures eaclNavision == [] && acomSale == [] && acomNavTransform == [] && acomNavBridge == []
      ensures acomProductionResults == []
      ensures lotIndex == Empty && prodOrderIndex == Empty && purchaseLotMap == map[]
    {
      records, productionPurchase, acomNavisionPurchase := [], [], [];
      eaclNavision, acomSale, acomNavTransform, acomNavBridge, acomProductionResults := [], [], [], [], [];
      lotIndex, prodOrderIndex, purchaseLotMap := Empty, Empty, map[];
    }

    /** `perform_vlookup`: every record whose trimmed `Lot No_` is a key of
        the purchase lookup receives the purchase row's columns 2 to 11;
        no other record and no other field changes. The number of matches,
        which the source prints, is returned. */
    method PerformVlookup() returns (matchCount: nat)
      modifies this`records
      ensures records == EnrichAll(old(records), PurchaseLookup(acomNavisionPurchase))
      ensures matchCount == VlookupMatchCount(old(records), PurchaseLookup(acomNavisionPurchase))
    {
      if acomNavisionPurchase == [] {
        EnrichNothing(records);
        return 0;
      }
      var purchaseLookup := BuildPurchaseLookup(acomNavisionPurchase);
      records, matchCount := MergePurchases(records, purchaseLookup);
    }

    /** `build_purchase_lot_mapping`: the five join steps, and the map from
        each sale contract number (as text) to its consumption lots,
        rebuilt from empty. */
    method BuildPurchaseLotMapping() returns (steps: JoinSteps)
      modifies this`purchaseLotMap
      ensures steps == Steps(eaclNavision, acomSale, acomNavTransform, acomNavBridge, acomProductionResults, records)
      ensures purchaseLotMap == LotMap(steps.step5)
    {
      purchaseLotMap := map[];
      var step1 := RunJoin(eaclNavision, acomSale, Step1Match, Step1Link);
      var step2 := RunJoin(step1, acomNavTransform, HopMatch("Sale Lot"), HopLink("Production Lot"));
      var step3 := RunJoin(step2, acomNavBridge, HopMatch("Lot No_(O)"), HopLink("Lot No_(D)"));
      var step4 := RunJoin(step3, acomProductionResults, HopMatch("Lot No_"), HopLink("Prod_ Order No_"));
      var step5;
      step5, purchaseLotMap := RunStep5(step4, records);
      steps := JoinSteps(step1, step2, step3, step4, step5);
    }

    /** `preprocess_data`: the main records are appended to the lot index
        under their trimmed `Lot No_` and to the production order index
        under their trimmed `Prod_ Order No_`; the indexes are not reset
        first. */
    method PreprocessData()
      modifies this`lotIndex, this`prodOrderIndex
      requires Valid()
      ensures Valid()
      ensures lotIndex == AddAll(old(lotIndex), records, "Lot No_")
      ensures prodOrderIndex == AddAll(old(prodOrderIndex), records, "Prod_ Order No_")
    {
      lotIndex := BuildIndex(lotIndex, records, "Lot No_");
      prodOrderIndex := BuildIndex(prodOrderIndex, records, "Prod_ Order No_");
    }

    /** `get_lot_lineage(lot_no, max_depth)`, with the visited sets the
        trace ends with. */
    method GetLotLineage(lotNo: Value, maxDepth: int) returns (result: LineageResult, ghost visits: Visits)
      requires Valid()
      ensures Traces(result, lotNo, maxDepth, lotIndex, prodOrderIndex)
      ensures Explains(result, visits, lotNo, maxDepth, lotIndex, prodOrderIndex)
    {
      if lotNo.Str? {
        var tree, visitedLots, visitedOrders, followed :=
          BuildNode(lotNo.s, 0, Both, maxDepth, lotIndex, prodOrderIndex, {}, {});
        result := LineageResult(lotNo, tree, |visitedLots|);
        visits := Visits(visitedLots, visitedOrders, followed);
        forall x | x in Lots(tree) ensures lotIndex.Bucket(x) != [] {
          SoundLotsIndexed(tree.value, Both, lotIndex, prodOrderIndex, maxDepth, x);
        }
        VisitedCount(Lots(tree), visitedLots, lotIndex);
        if maxDepth >= 0 {
          assert lotNo.s in visitedLots;
        }
      } else {
        // `visited_lots` receives the lot, which no index key equals.
        result := LineageResult(lotNo, None, if maxDepth < 0 then 0 else 1);
        visits := Visits({}, {}, {});
      }
    }

    /** `get_purchase_lot_lineage(sale_contract)`: one lineage, at the
        default depth 10, per consumption lot listed under the contract, in
        list order; none when the contract is not mapped. */
    method GetPurchaseLotLineage(saleContract: string) returns (results: seq<LineageResult>, ghost visits: seq<Visits>)
      requires Valid()
      ensures var lots := if saleContract in purchaseLotMap then purchaseLotMap[saleContract] else [];
              |results| == |lots| &&
              forall i :: 0 <= i < |lots| ==> Traces(results[i], lots[i], 10, lotIndex, prodOrderIndex)
      ensures var lots := if saleContract in purchaseLotMap then purchaseLotMap[saleContract] else [];
              |visits| == |lots| &&
              forall i :: 0 <= i < |lots| ==> Explains(results[i], visits[i], lots[i], 10, lotIndex, prodOrderIndex)
    {
      var consumptionLots := if saleContract in purchaseLotMap then purchaseLotMap[saleContract] else [];
      results, visits := [], [];
      if consumptionLots == [] {
        return;
      }
      for i := 0 to |consumptionLots|
        invariant |results| == |visits| == i
        invariant forall j :: 0 <= j < i ==>
                    Traces(results[j], consumptionLots[j], 10, lotIndex, prodOrderIndex) &&
                    Explains(results[j], visits[j], consumptionLots[j], 10, lotIndex, prodOrderIndex)
      {
        var lineage, v := GetLotLineage(consumptionLots[i], 10);
        results, visits := results + [lineage], visits + [v];
      }
    }

    /** `get_lot_statistics(lot_no)` over the records the lot index holds
        under `lot_no`, looked up as given (not trimmed): the error result
        exactly when there are none, otherwise their count and total
        quantity. */
    function GetLotStatistics(lotNo: string): (s: LotStatistics)
      reads this
      ensures s.NoRecords? <==> lotIndex.Bucket(lotNo) == []
      ensures s.Stats? ==> s.lotNo == lotNo && s.totalRecords == |lotIndex.Bucket(lotNo)| &&
                           s.totalQuantity == QuantityTotal(lotIndex.Bucket(lotNo))
    {
      LotStats(lotNo, lotIndex.Bucket(lotNo))
    }

    /** `getattr(self, name, [])` for the list attributes; any other name
        gives the empty list. */
    function Sheet(name: string): seq<Record>
      reads this
    {
      if name == "records" then records
      else if name == "production_purchase" then productionPurchase
      else if name == "acom_navision_purchase" then
        var rows := acomNavisionPurchase;
        seq(|rows|, i requires 0 <= i < |rows| => RowRecord(rows[i]))
      else if name == "eacl_navision" then eaclNavision
      else if name == "acom_sale" then acomSale
      else if name == "acom_nav_transform" then acomNavTransform
      else if name == "acom_nav_bridge" then acomNavBridge
      else if name == "acom_production_results" then acomProductionResults
      else []
    }

    /** `perform_inner_join(sheet1_key, sheet2_key, join_column1,
        join_column2)`: the first sheet is the main records for `main`. */
    method PerformInnerJoin(sheet1Key: string, sheet2Key: string, joinColumn1: string, joinColumn2: string)
      returns (joined: seq<Record>)
      ensures joined == InnerJoinOf(if sheet1Key == "main" then records else Sheet(sheet1Key), Sheet(sheet2Key),
                                    joinColumn1, joinColumn2, sheet2Key)
    {
      var dataset1 := if sheet1Key == "main" then records else Sheet(sheet1Key);
      var dataset2 := Sheet(sheet2Key);
      joined := InnerJoin.PerformInnerJoin(dataset1, dataset2, joinColumn1, joinColumn2, sheet2Key);
    }
  }
}
