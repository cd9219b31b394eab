/** `LotLineageTracker` (fabric-lineage-tracker-fixed.py:5-238): a
    bidirectional lineage trace over one production table, with the
    records of each lot and of each production order cached on first
    lookup. */
module Fabric {
  import opened Text
  import opened Records
  import opened FabricTable
  import opened FabricTree

  /** What `get_lot_lineage` returns. */
  datatype FabricLineage = FabricLineage(queryLot: Value, totalLotsTraced: nat, lineageTree: FabricNode)

  /** What `get_lot_lineage(lot_no, max_depth)` promises: a sound tree
      rooted at the lot, a stub exactly when the bound leaves no room; as
      many lots traced as the tree has expanded nodes, no lot expanded
      twice, and every lot shown as already visited expanded somewhere in
      the tree. */
  ghost predicate Lineage(res: FabricLineage, lotNo: Value, maxDepth: int, production: seq<Record>) {
    var t := res.lineageTree;
    res.queryLot == lotNo && t.lotNo == lotNo && t.relationship.None? &&
    Sound(t, 0, maxDepth, production) &&
    (t.warning.Some? <==> maxDepth <= 0) &&
    res.totalLotsTraced == TreeTally(t).count == |TreeTally(t).expanded| &&
    TreeTally(t).revisited <= TreeTally(t).expanded
  }

  /** Nothing is traced when the bound is not positive; otherwise the
      queried lot itself is. */
  lemma LineageCount(res: FabricLineage, lotNo: Value, maxDepth: int, production: seq<Record>)
    requires Lineage(res, lotNo, maxDepth, production)
    ensures maxDepth <= 0 ==> res.totalLotsTraced == 0
    ensures maxDepth > 0 ==> lotNo in TreeTally(res.lineageTree).expanded && res.totalLotsTraced >= 1
  {
  }

  /** The records grouped by `record.get('Process Type') or 'Unknown'`. */
  method GroupByProcess(records: seq<Record>) returns (processes: map<Value, seq<Record>>)
    ensures forall k :: k in processes <==> Group(records, k) != []
    ensures forall k :: k in processes ==> processes[k] == Group(records, k)
    ensures forall k :: Section(processes, k) == Group(records, k)
  {
    processes := map[];
    for i := 0 to |records|
      invariant forall k :: k in processes <==> Group(records[..i], k) != []
      invariant forall k :: k in processes ==> processes[k] == Group(records[..i], k)
    {
      assert records[..i + 1][..i] == records[..i];
      var key := GroupKey(records[i]);
      if key !in processes {
        processes := processes[key := []];
      }
      processes := processes[key := processes[key] + [records[i]]];
    }
    assert records[..|records|] == records;
  }

  /** `processes.get(key, [])`: the section of a grouping under `key`. */
  function Section(processes: map<Value, seq<Record>>, key: Value): seq<Record>
  {
    if key in processes then processes[key] else []
  }

  /** The set of `Lot No_` values of an order's records of process type
      `pt`, other than `lot`. */
  method CollectLots(prodRecords: seq<Record>, pt: string, lot: Value) returns (lots: set<Value>)
    ensures lots == OrderLots(prodRecords, pt, lot)
  {
    lots := {};
    for i := 0 to |prodRecords|
      invariant lots == OrderLots(prodRecords[..i], pt, lot)
    {
      assert prodRecords[..i + 1][..i] == prodRecords[..i];
      var record := prodRecords[i];
      if Get(record, "Process Type") == Str(pt) && Get(record, "Lot No_") != lot {
        lots := lots + {Get(record, "Lot No_")};
      }
    }
    assert prodRecords[..|prodRecords|] == prodRecords;
  }

  /** The loop of `get_process_types_for_lot`: the stripped text of
      every truthy process type. */
  method CollectTypes(records: seq<Record>) returns (types: set<string>)
    ensures types == TypeSet(records)
  {
    types := {};
    for i := 0 to |records|
      invariant types == TypeSet(records[..i])
    {
      assert records[..i + 1] == records[..i] + [records[i]];
      TypeSetSnoc(records[..i], records[i]);
      if HasType(records[i]) {
        types := types + {TypeText(records[i])};
      }
    }
    assert records[..|records|] == records;
  }

  class LotLineageTracker {
    const production: seq<Record>
    var lotRecordsCache: map<Value, seq<Record>>
    var prodOrderCache: map<Value, seq<Record>>

    /** Every cached list is what the filter gives for its key. */
    ghost predicate Valid()
      reads this
    {
      (forall k :: k in lotRecordsCache ==> lotRecordsCache[k] == Where(production, "Lot No_", k)) &&
      (forall k :: k in prodOrderCache ==> prodOrderCache[k] == Where(production, "Prod_ Order No_", k))
    }

    /** `__init__(df_production)`: both caches start empty. */
    constructor(dfProduction: seq<Record>)
      ensures production == dfProduction
      ensures lotRecordsCache == map[] && prodOrderCache == map[]
      ensures Valid()
    {
      production := dfProduction;
      lotRecordsCache := map[];
      prodOrderCache := map[];
    }

    /** `get_lot_records(lot_no)`: the rows whose `Lot No_` equals the lot,
        in table order. The first lookup stores them; a later one returns
        them and leaves the cache as it was. */
    method GetLotRecords(lotNo: Value) returns (records: seq<Record>)
      modifies this`lotRecordsCache
      requires Valid()
      ensures Valid()
      ensures records == Where(production, "Lot No_", lotNo)
      ensures lotRecordsCache == old(lotRecordsCache)[lotNo := records]
      ensures lotNo in old(lotRecordsCache) ==> lotRecordsCache == old(lotRecordsCache)
    {
      if lotNo in lotRecordsCache {
        return lotRecordsCache[lotNo];
      }
      records := Where(production, "Lot No_", lotNo);
      lotRecordsCache := lotRecordsCache[lotNo := records];
    }

    /** `get_prod_order_records(prod_order)`, cached the same way. */
    method GetProdOrderRecords(prodOrder: Value) returns (records: seq<Record>)
      modifies this`prodOrderCache
      requires Valid()
      ensures Valid()
      ensures records == Where(production, "Prod_ Order No_", prodOrder)
      ensures prodOrderCache == old(prodOrderCache)[prodOrder := records]
      ensures prodOrder in old(prodOrderCache) ==> prodOrderCache == old(prodOrderCache)
    {
      if prodOrder in prodOrderCache {
        return prodOrderCache[prodOrder];
      }
      records := Where(production, "Prod_ Order No_", prodOrder);
      prodOrderCache := prodOrderCache[prodOrder := records];
    }

    /** `get_process_types_for_lot(lot)` */
    method GetProcessTypesForLot(lot: Value) returns (types: set<string>)
      modifies this`lotRecordsCache
      requires Valid()
      ensures Valid()
      ensures types == ProcessTypes(Where(production, "Lot No_", lot))
      ensures lotRecordsCache == old(lotRecordsCache)[lot := Where(production, "Lot No_", lot)]
    {
      var lotData := GetLotRecords(lot);
      if lotData == [] {
        return {"Not Found"};
      }
      types := CollectTypes(lotData);
      if types == {} {
        types := {"Unknown"};
      }
    }

    /** `clear_cache()` */
    method ClearCache()
      modifies this`lotRecordsCache, this`prodOrderCache
      ensures lotRecordsCache == map[] && prodOrderCache == map[]
      ensures Valid()
    {
      lotRecordsCache := map[];
      prodOrderCache := map[];
    }

    /** `trace_lot_origin(lot, depth)` with the shared `visited` set passed
        in and handed back. A lot already visited, or reached at the depth
        bound, gives a stub and leaves `visited` alone; any other lot is
        visited, and expanded into a node that fits its records. */
    method TraceLotOrigin(lot: Value, depth: nat, maxDepth: int, visited: set<Value>)
      returns (node: FabricNode, visited': set<Value>)
      modifies this`lotRecordsCache, this`prodOrderCache
      requires Valid()
      ensures Valid()
      ensures node.lotNo == lot && node.relationship.None?
      ensures node.warning.Some? <==> lot in visited || depth >= maxDepth
      ensures node.warning.Some? ==> visited' == visited
      ensures node.warning.None? ==> lot in visited'
      ensures node.warning.None? && Where(production, "Lot No_", lot) == [] ==>
                node.processTypes == {"Not Found"} && node.sources == [] && node.destinations == []
      ensures Sound(node, depth, maxDepth, production)
      ensures Fresh([node], visited, visited')
      decreases maxDepth - depth, 4
    {
      if lot in visited || depth >= maxDepth {
        var types := GetProcessTypesForLot(lot);
        var warning := if depth >= maxDepth then MaxDepthWarning else AlreadyVisitedWarning;
        node := FabricNode(lot, Some(warning), types, [], [], NoDetails, false, None);
        visited' := visited;
        StubFresh(node, visited);
        return;
      }
      visited' := visited + {lot};
      var lotData := GetLotRecords(lot);
      if lotData == [] {
        node := FabricNode(lot, None, {"Not Found"}, [], [], NoDetails, false, None);
        NotFoundSound(node, depth, maxDepth, production);
        LeafFresh(node, visited);
        return;
      }
      node, visited' := ExpandLot(lot, lotData, depth, maxDepth, visited');
      FreshNode(node, visited, visited');
    }

    /** The rest of `trace_lot_origin` for a lot that has records: group
        them by process, then trace its sources and destinations section
        by section (Output, Consumption, Transfer) and read its details. */
    method ExpandLot(lot: Value, lotData: seq<Record>, depth: nat, maxDepth: int, visited: set<Value>)
      returns (node: FabricNode, visited': set<Value>)
      modifies this`lotRecordsCache, this`prodOrderCache
      requires Valid() && depth < maxDepth
      requires lotData == Where(production, "Lot No_", lot) && lotData != []
      ensures Valid()
      ensures node.lotNo == lot && node.relationship.None? && node.warning.None?
      ensures Sound(node, depth, maxDepth, production)
      ensures FreshPair(node.sources, node.destinations, visited, visited')
      decreases maxDepth - depth, 3
    {
      var processes := GroupByProcess(lotData);
      GroupedSections(processes, lotData);
      var types := GetProcessTypesForLot(lot);
      var basic := BasicOf(lotData[0]);

      var outputs := Section(processes, Str("Output"));
      var consumed, lastOutput, v2 := TraceOrders(outputs, "Consumption", ConsumedLabel, lot, depth, maxDepth, visited);
      var output := if lastOutput >= 0 then
                      Some(OutputDetail(Get(outputs[lastOutput], "Prod_ Order No_"), QuantityOf(outputs[lastOutput]),
                                        DateOf(outputs[lastOutput])))
                    else None;
      assert output == OutputDetailOf(outputs);

      var consumptions := Section(processes, Str("Consumption"));
      var produced, lastConsumption, v3 := TraceOrders(consumptions, "Output", ProducedLabel, lot, depth, maxDepth, v2);
      var consumption := if lastConsumption >= 0 then
                           Some(ConsumptionDetail(QuantityOf(consumptions[lastConsumption]),
                                                  DateOf(consumptions[lastConsumption])))
                         else None;
      assert consumption == ConsumptionDetailOf(consumptions);

      var transfers := Section(processes, Str("Transfer"));
      var transferredFrom, transferredTo, transfer, v4 := TraceTransfers(transfers, lot, depth, maxDepth, v3);

      var purchases := Section(processes, Str("Purchase"));
      var purchase := PurchaseDetailOf(purchases);
      var isOrigin := purchases != [];

      node := FabricNode(lot, None, types, consumed + transferredFrom, produced + transferredTo,
                         Details(Some(basic), output, consumption, transfer, purchase), isOrigin, None);
      visited' := v4;
      NodeFresh(node, consumed, produced, transferredFrom, transferredTo, visited, v2, v3, v4);
      SectionsSound(node, lotData, processes, depth, maxDepth, production, consumed, produced, transferredFrom, transferredTo);
    }

    /** The loop over one group's records (`processes['Output']` or
        `processes['Consumption']`): for each record naming a production
        order, the order's lots of process type `pt` other than `lot` are
        traced one level deeper and labelled `rel`. `last` is the record
        whose details are kept. */
    method TraceOrders(recs: seq<Record>, pt: string, rel: string, lot: Value, depth: nat, maxDepth: int,
                       visited: set<Value>)
      returns (children: seq<FabricNode>, last: int, visited': set<Value>)
      modifies this`lotRecordsCache, this`prodOrderCache
      requires Valid() && depth < maxDepth
      ensures Valid()
      ensures last == LastOrdered(recs)
      ensures multiset(LotsOf(children)) == ExpectedChildren(production, recs, pt, lot)
      ensures AllLabelled(children, rel)
      ensures KidsSound(children, lot, depth + 1, maxDepth, production)
      ensures Fresh(children, visited, visited')
      decreases maxDepth - depth, 2
    {
      children, last, visited' := [], -1, visited;
      for i := 0 to |recs|
        invariant Valid()
        invariant last == LastOrdered(recs[..i])
        invariant multiset(LotsOf(children)) == ExpectedChildren(production, recs[..i], pt, lot)
        invariant AllLabelled(children, rel)
        invariant KidsSound(children, lot, depth + 1, maxDepth, production)
        invariant Fresh(children, visited, visited')
      {
        assert recs[..i + 1][..i] == recs[..i];
        var prodOrder := Get(recs[i], "Prod_ Order No_");
        if Truthy(prodOrder) {
          last := i;
          var prodRecords := GetProdOrderRecords(prodOrder);
          var lots := CollectLots(prodRecords, pt, lot);
          var more;
          ghost var before := visited';
          more, visited' := TraceEach(lots, rel, lot, depth, maxDepth, visited');
          FreshConcat(children, more, visited, before, visited');
          KidsConcat(children, more, lot, depth + 1, maxDepth, production);
          LotsOfConcat(children, more);
          AllLabelledConcat(children, more, rel);
          children := children + more;
        }
      }
      assert recs[..|recs|] == recs;
    }

    /** `for consumed_lot in consumption_lots` (or `output_lots`): every
        truthy lot of the set is traced one level deeper, in whatever
        order the set yields them, and labelled `rel`. */
    method TraceEach(lots: set<Value>, rel: string, lot: Value, depth: nat, maxDepth: int, visited: set<Value>)
      returns (children: seq<FabricNode>, visited': set<Value>)
      modifies this`lotRecordsCache, this`prodOrderCache
      requires Valid() && depth < maxDepth && lot !in lots
      ensures Valid()
      ensures multiset(LotsOf(children)) == multiset(TruthyLots(lots))
      ensures AllLabelled(children, rel)
      ensures KidsSound(children, lot, depth + 1, maxDepth, production)
      ensures Fresh(children, visited, visited')
      decreases maxDepth - depth, 1
    {
      children, visited' := [], visited;
      var remaining := lots;
      while remaining != {}
        invariant Valid() && remaining <= lots
        invariant Enumerates(LotsOf(children), TruthyLots(remaining), TruthyLots(lots))
        invariant AllLabelled(children, rel)
        invariant KidsSound(children, lot, depth + 1, maxDepth, production)
        invariant Fresh(children, visited, visited')
        decreases |remaining|
      {
        ghost var was, traced := remaining, children;
        var next :| next in remaining;
        remaining := remaining - {next};
        children, visited' := TraceChild(next, rel, lot, depth, maxDepth, children, visited, visited');
        TracedOne(traced, children, was, next, lots);
      }
    }

    /** One lot of `TraceEach`: a truthy lot is traced one level deeper
        and appended labelled `rel`; a falsy one is skipped. */
    method TraceChild(next: Value, rel: string, lot: Value, depth: nat, maxDepth: int,
                      children: seq<FabricNode>, ghost start: set<Value>, visited: set<Value>)
      returns (children': seq<FabricNode>, visited': set<Value>)
      modifies this`lotRecordsCache, this`prodOrderCache
      requires Valid() && depth < maxDepth && next != lot
      requires AllLabelled(children, rel) && KidsSound(children, lot, depth + 1, maxDepth, production)
      requires Fresh(children, start, visited)
      ensures Valid()
      ensures LotsOf(children') == if Truthy(next) then LotsOf(children) + [next] else LotsOf(children)
      ensures AllLabelled(children', rel) && KidsSound(children', lot, depth + 1, maxDepth, production)
      ensures Fresh(children', start, visited')
      decreases maxDepth - depth, 0
    {
      children', visited' := children, visited;
      if Truthy(next) {
        var child;
        child, visited' := TraceLotOrigin(next, depth + 1, maxDepth, visited);
        KidsAppend(children, child, rel, lot, depth + 1, maxDepth, production);
        FreshAppend(children, child, rel, start, visited, visited');
        children' := children + [Labelled(child, rel)];
      }
    }

    /** The loop over `processes['Transfer']`: each record's details
        overwrite the last; its truthy `Lot Dest` other than the lot is
        traced as `Transferred to`; and every time, the rows transferred
        into the lot are traced as `Transferred from`. */
    method TraceTransfers(transfers: seq<Record>, lot: Value, depth: nat, maxDepth: int, visited: set<Value>)
      returns (fromKids: seq<FabricNode>, toKids: seq<FabricNode>, transfer: Option<TransferDetail>,
               visited': set<Value>)
      modifies this`lotRecordsCache, this`prodOrderCache
      requires Valid() && depth < maxDepth
      ensures Valid()
      ensures transfer == TransferDetailOf(transfers)
      ensures LotsOf(fromKids) == TransferredFrom(production, transfers, lot)
      ensures AllLabelled(fromKids, TransferredFromLabel)
      ensures LotsOf(toKids) == TransferredTo(transfers, lot)
      ensures AllLabelled(toKids, TransferredToLabel)
      ensures KidsSound(fromKids, lot, depth + 1, maxDepth, production)
      ensures KidsSound(toKids, lot, depth + 1, maxDepth, production)
      ensures FreshPair(fromKids, toKids, visited, visited')
      decreases maxDepth - depth, 2
    {
      fromKids, toKids, transfer, visited' := [], [], None, visited;
      var sourceLots := TruthyLotsOf(SourceTransfers(production, lot), lot);
      FreshPairEmpty(fromKids, toKids, visited);
      for i := 0 to |transfers|
        invariant Valid()
        invariant transfer == TransferDetailOf(transfers[..i])
        invariant LotsOf(fromKids) == Repeat(sourceLots, i)
        invariant AllLabelled(fromKids, TransferredFromLabel)
        invariant LotsOf(toKids) == TransferredTo(transfers[..i], lot)
        invariant AllLabelled(toKids, TransferredToLabel)
        invariant KidsSound(fromKids, lot, depth + 1, maxDepth, production)
        invariant KidsSound(toKids, lot, depth + 1, maxDepth, production)
        invariant FreshPair(fromKids, toKids, visited, visited')
      {
        var transferRecord := transfers[i];
        var destLot := Get(transferRecord, "Lot Dest");
        transfer := Some(TransferDetailFor(transferRecord));
        TransfersStep(transfers, i, lot);
        toKids, visited' := TraceDestination(destLot, lot, depth, maxDepth, fromKids, toKids, visited, visited');
        var sourceTransfers := SourceTransfers(production, lot);
        var more;
        ghost var before := visited';
        more, visited' := TraceSourceTransfers(sourceTransfers, lot, depth, maxDepth, visited');
        FreshPairConcat(fromKids, toKids, more, visited, before, visited');
        KidsConcat(fromKids, more, lot, depth + 1, maxDepth, production);
        LotsOfConcat(fromKids, more);
        AllLabelledConcat(fromKids, more, TransferredFromLabel);
        fromKids := fromKids + more;
      }
      WholePrefix(transfers);
    }

    /** One Transfer record's destination: a truthy `Lot Dest` other than
        the lot is traced one level deeper and appended to `toKids` as
        `Transferred to`; otherwise nothing changes. */
    method TraceDestination(destLot: Value, lot: Value, depth: nat, maxDepth: int,
                            ghost fromKids: seq<FabricNode>, toKids: seq<FabricNode>,
                            ghost start: set<Value>, visited: set<Value>)
      returns (toKids': seq<FabricNode>, visited': set<Value>)
      modifies this`lotRecordsCache, this`prodOrderCache
      requires Valid() && depth < maxDepth
      requires AllLabelled(toKids, TransferredToLabel) && KidsSound(toKids, lot, depth + 1, maxDepth, production)
      requires FreshPair(fromKids, toKids, start, visited)
      ensures Valid()
      ensures LotsOf(toKids') == LotsOf(toKids) + if Truthy(destLot) && destLot != lot then [destLot] else []
      ensures AllLabelled(toKids', TransferredToLabel) && KidsSound(toKids', lot, depth + 1, maxDepth, production)
      ensures FreshPair(fromKids, toKids', start, visited')
      decreases maxDepth - depth, 1
    {
      toKids', visited' := toKids, visited;
      if Truthy(destLot) && destLot != lot {
        var child;
        child, visited' := TraceLotOrigin(destLot, depth + 1, maxDepth, visited);
        FreshPairAppend(fromKids, toKids, child, TransferredToLabel, start, visited, visited');
        KidsAppend(toKids, child, TransferredToLabel, lot, depth + 1, maxDepth, production);
        toKids' := toKids + [Labelled(child, TransferredToLabel)];
      }
    }

    /** `for src_transfer in source_transfers`: each row's truthy
        `Lot No_` other than the lot is traced as `Transferred from`. */
    method TraceSourceTransfers(rows: seq<Record>, lot: Value, depth: nat, maxDepth: int, visited: set<Value>)
      returns (children: seq<FabricNode>, visited': set<Value>)
      modifies this`lotRecordsCache, this`prodOrderCache
      requires Valid() && depth < maxDepth
      ensures Valid()
      ensures LotsOf(children) == TruthyLotsOf(rows, lot)
      ensures AllLabelled(children, TransferredFromLabel)
      ensures KidsSound(children, lot, depth + 1, maxDepth, production)
      ensures Fresh(children, visited, visited')
      decreases maxDepth - depth, 1
    {
      children, visited' := [], visited;
      for i := 0 to |rows|
        invariant Valid()
        invariant LotsOf(children) == TruthyLotsOf(rows[..i], lot)
        invariant AllLabelled(children, TransferredFromLabel)
        invariant KidsSound(children, lot, depth + 1, maxDepth, production)
        invariant Fresh(children, visited, visited')
      {
        assert rows[..i + 1][..i] == rows[..i];
        var sourceLot := Get(rows[i], "Lot No_");
        if Truthy(sourceLot) && sourceLot != lot {
          ghost var before := visited';
          var child;
          child, visited' := TraceLotOrigin(sourceLot, depth + 1, maxDepth, visited');
          KidsAppend(children, child, TransferredFromLabel, lot, depth + 1, maxDepth, production);
          FreshAppend(children, child, TransferredFromLabel, visited, before, visited');
          children := children + [Labelled(child, TransferredFromLabel)];
        }
      }
      assert rows[..|rows|] == rows;
    }

    /** `get_lot_lineage(lot_no, max_depth)`: one trace from an empty
        visited set, whose size is the count of lots traced. */
    method GetLotLineage(lotNo: Value, maxDepth: int) returns (result: FabricLineage)
      modifies this`lotRecordsCache, this`prodOrderCache
      requires Valid()
      ensures Valid()
      ensures Lineage(result, lotNo, maxDepth, production)
    {
      var tree, visited := TraceLotOrigin(lotNo, 0, maxDepth, {});
      Single(tree);
      result := FabricLineage(lotNo, |visited|, tree);
    }

    /** `trace_multiple_lots(lot_numbers, max_depth)`: one lineage per
        distinct lot number, keyed by it. */
    method TraceMultipleLots(lotNumbers: seq<Value>, maxDepth: int) returns (results: map<Value, FabricLineage>)
      modifies this`lotRecordsCache, this`prodOrderCache
      requires Valid()
      ensures Valid()
      ensures forall l :: l in results <==> l in lotNumbers
      ensures forall l :: l in results ==> Lineage(results[l], l, maxDepth, production)
    {
      results := map[];
      for i := 0 to |lotNumbers|
        invariant Valid()
        invariant forall l :: l in results <==> l in lotNumbers[..i]
        invariant forall l :: l in results ==> Lineage(results[l], l, maxDepth, production)
      {
        var lineage := GetLotLineage(lotNumbers[i], maxDepth);
        results := results[lotNumbers[i] := lineage];
      }
      assert lotNumbers[..|lotNumbers|] == lotNumbers;
    }
  }

  /** After one more lot of the set is taken, the lots traced so far and
      the truthy lots still to take still make up the truthy lots of the
      set. */
  lemma TracedOne(traced: seq<FabricNode>, children: seq<FabricNode>, remaining: set<Value>, next: Value,
                  lots: set<Value>)
    requires next in remaining
    requires Enumerates(LotsOf(traced), TruthyLots(remaining), TruthyLots(lots))
    requires LotsOf(children) == if Truthy(next) then LotsOf(traced) + [next] else LotsOf(traced)
    ensures Enumerates(LotsOf(children), TruthyLots(remaining - {next}), TruthyLots(lots))
  {
    var rest := TruthyLots(remaining - {next});
    if Truthy(next) {
      assert TruthyLots(remaining) == rest + {next};
      MultisetAdd(rest, next);
    } else {
      assert TruthyLots(remaining) == rest;
    }
  }

  /** `xs` lists, each once, the elements of `all` that are not in `rest`. */
  ghost predicate Enumerates<T>(xs: seq<T>, rest: set<T>, all: set<T>) {
    multiset(xs) + multiset(rest) == multiset(all)
  }

  lemma MultisetAdd(s: set<Value>, x: Value)
    requires x !in s
    ensures multiset(s + {x}) == multiset(s) + multiset{x}
  {
  }

  /** A stub expands nothing; the lot it shows as already visited is. */
  lemma StubFresh(node: FabricNode, visited: set<Value>)
    requires node.warning.Some? && (node.warning == Some(AlreadyVisitedWarning) ==> node.lotNo in visited)
    ensures Fresh([node], visited, visited)
  {
    Single(node);
    UnionEmpty(visited);
  }

  /** A lot without records: `Not Found`, expanded, no children. */
  lemma NotFoundSound(node: FabricNode, depth: int, maxDepth: int, production: seq<Record>)
    requires node == FabricNode(node.lotNo, None, {"Not Found"}, [], [], NoDetails, false, None)
    requires Where(production, "Lot No_", node.lotNo) == [] && depth < maxDepth
    ensures Sound(node, depth, maxDepth, production)
  {
    var records := Where(production, "Lot No_", node.lotNo);
    var none: seq<FabricNode> := [];
    assert Group(records, Str("Output")) == [] && Group(records, Str("Consumption")) == [];
    assert Group(records, Str("Transfer")) == [] && Group(records, Str("Purchase")) == [];
    assert none + none == [];
    NodeSound(node, records, depth, maxDepth, production, none, none, none, none);
  }

  /** A childless expanded node visits its own lot and nothing else. */
  lemma LeafFresh(node: FabricNode, visited: set<Value>)
    requires node.warning.None? && node.sources == [] && node.destinations == [] && node.lotNo !in visited
    ensures Fresh([node], visited, visited + {node.lotNo})
  {
    FreshPairEmpty(node.sources, node.destinations, visited + {node.lotNo});
    FreshNode(node, visited, visited + {node.lotNo});
  }

  /** An expanded node's children, traced section by section (Output,
      Consumption, then the interleaved Transfer lists), add their
      expanded lots to the visited set as if traced as sources and
      destinations. */
  lemma NodeFresh(node: FabricNode, consumed: seq<FabricNode>, produced: seq<FabricNode>,
                  transferredFrom: seq<FabricNode>, transferredTo: seq<FabricNode>,
                  v1: set<Value>, v2: set<Value>, v3: set<Value>, v4: set<Value>)
    requires node.sources == consumed + transferredFrom && node.destinations == produced + transferredTo
    requires Fresh(consumed, v1, v2) && Fresh(produced, v2, v3) && FreshPair(transferredFrom, transferredTo, v3, v4)
    ensures FreshPair(node.sources, node.destinations, v1, v4)
  {
    var c, p, f, t := ForestTally(consumed), ForestTally(produced), ForestTally(transferredFrom),
                      ForestTally(transferredTo);
    AddsPlus(c, p, v1, v2, v3);
    ForestConcat(transferredFrom, transferredTo);
    AddsPlus(Plus(c, p), Plus(f, t), v1, v3, v4);
    PlusRegroup(c, p, f, t);
    ForestConcat(consumed, transferredFrom);
    ForestConcat(produced, transferredTo);
    ForestConcat(node.sources, node.destinations);
  }

  /** The four sections a lot's details and children are read from are
      the groups of its records under those process types. */
  ghost predicate SectionsAreGroups(processes: map<Value, seq<Record>>, lotData: seq<Record>) {
    && Section(processes, Str("Output")) == Group(lotData, Str("Output"))
    && Section(processes, Str("Consumption")) == Group(lotData, Str("Consumption"))
    && Section(processes, Str("Transfer")) == Group(lotData, Str("Transfer"))
    && Section(processes, Str("Purchase")) == Group(lotData, Str("Purchase"))
  }

  lemma GroupedSections(processes: map<Value, seq<Record>>, lotData: seq<Record>)
    requires forall k :: Section(processes, k) == Group(lotData, k)
    ensures SectionsAreGroups(processes, lotData)
  {
    var output, consumption, transfer, purchase := Str("Output"), Str("Consumption"), Str("Transfer"), Str("Purchase");
    assert Section(processes, output) == Group(lotData, output);
    assert Section(processes, consumption) == Group(lotData, consumption);
    assert Section(processes, transfer) == Group(lotData, transfer);
    assert Section(processes, purchase) == Group(lotData, purchase);
  }

  /** `NodeSound`, with each section read from the grouping of the lot's
      records rather than from the records themselves. */
  lemma SectionsSound(node: FabricNode, lotData: seq<Record>, processes: map<Value, seq<Record>>,
                      depth: int, maxDepth: int, production: seq<Record>,
                      consumed: seq<FabricNode>, produced: seq<FabricNode>,
                      transferredFrom: seq<FabricNode>, transferredTo: seq<FabricNode>)
    requires node.warning.None? && depth < maxDepth
    requires lotData == Where(production, "Lot No_", node.lotNo) && lotData != []
    requires SectionsAreGroups(processes, lotData)
    requires node.processTypes == ProcessTypes(lotData)
    requires node.details == Details(Some(BasicOf(lotData[0])),
                                     OutputDetailOf(Section(processes, Str("Output"))),
                                     ConsumptionDetailOf(Section(processes, Str("Consumption"))),
                                     TransferDetailOf(Section(processes, Str("Transfer"))),
                                     PurchaseDetailOf(Section(processes, Str("Purchase"))))
    requires node.isOrigin == (Section(processes, Str("Purchase")) != [])
    requires node.sources == consumed + transferredFrom && node.destinations == produced + transferredTo
    requires multiset(LotsOf(consumed)) ==
             ExpectedChildren(production, Section(processes, Str("Output")), "Consumption", node.lotNo)
    requires multiset(LotsOf(produced)) ==
             ExpectedChildren(production, Section(processes, Str("Consumption")), "Output", node.lotNo)
    requires LotsOf(transferredFrom) == TransferredFrom(production, Section(processes, Str("Transfer")), node.lotNo)
    requires LotsOf(transferredTo) == TransferredTo(Section(processes, Str("Transfer")), node.lotNo)
    requires AllLabelled(consumed, ConsumedLabel) && AllLabelled(produced, ProducedLabel)
    requires AllLabelled(transferredFrom, TransferredFromLabel) && AllLabelled(transferredTo, TransferredToLabel)
    requires KidsSound(consumed, node.lotNo, depth + 1, maxDepth, production)
    requires KidsSound(produced, node.lotNo, depth + 1, maxDepth, production)
    requires KidsSound(transferredFrom, node.lotNo, depth + 1, maxDepth, production)
    requires KidsSound(transferredTo, node.lotNo, depth + 1, maxDepth, production)
    ensures Sound(node, depth, maxDepth, production)
  {
    NodeSound(node, lotData, depth, maxDepth, production, consumed, produced, transferredFrom, transferredTo);
  }

  /** An expanded node assembled from its sections fits its records. */
  lemma NodeSound(node: FabricNode, lotData: seq<Record>, depth: int, maxDepth: int, production: seq<Record>,
                  consumed: seq<FabricNode>, produced: seq<FabricNode>,
                  transferredFrom: seq<FabricNode>, transferredTo: seq<FabricNode>)
    requires node.warning.None? && depth < maxDepth
    requires lotData == Where(production, "Lot No_", node.lotNo)
    requires node.processTypes == ProcessTypes(lotData) && node.details == DetailsOf(lotData)
    requires node.isOrigin == (Group(lotData, Str("Purchase")) != [])
    requires node.sources == consumed + transferredFrom && node.destinations == produced + transferredTo
    requires multiset(LotsOf(consumed)) ==
             ExpectedChildren(production, Group(lotData, Str("Output")), "Consumption", node.lotNo)
    requires multiset(LotsOf(produced)) ==
             ExpectedChildren(production, Group(lotData, Str("Consumption")), "Output", node.lotNo)
    requires LotsOf(transferredFrom) == TransferredFrom(production, Group(lotData, Str("Transfer")), node.lotNo)
    requires LotsOf(transferredTo) == TransferredTo(Group(lotData, Str("Transfer")), node.lotNo)
    requires AllLabelled(consumed, ConsumedLabel) && AllLabelled(produced, ProducedLabel)
    requires AllLabelled(transferredFrom, TransferredFromLabel) && AllLabelled(transferredTo, TransferredToLabel)
    requires KidsSound(consumed, node.lotNo, depth + 1, maxDepth, production)
    requires KidsSound(produced, node.lotNo, depth + 1, maxDepth, production)
    requires KidsSound(transferredFrom, node.lotNo, depth + 1, maxDepth, production)
    requires KidsSound(transferredTo, node.lotNo, depth + 1, maxDepth, production)
    ensures Sound(node, depth, maxDepth, production)
  {
    var lot := node.lotNo;
    BlocksConcat(consumed, ExpectedChildren(production, Group(lotData, Str("Output")), "Consumption", lot),
                 ConsumedLabel, transferredFrom, TransferredFrom(production, Group(lotData, Str("Transfer")), lot),
                 TransferredFromLabel);
    BlocksConcat(produced, ExpectedChildren(production, Group(lotData, Str("Consumption")), "Output", lot),
                 ProducedLabel, transferredTo, TransferredTo(Group(lotData, Str("Transfer")), lot),
                 TransferredToLabel);
    KidsConcat(consumed, transferredFrom, lot, depth + 1, maxDepth, production);
    KidsConcat(produced, transferredTo, lot, depth + 1, maxDepth, production);
  }
}
