/** The five-step join of `build_purchase_lot_mapping`
    (backend_processor.py:125-236), which resolves a sale contract to the
    consumption lots of the production orders it leads to:

      EACL Navision [Lot Number]      = ACOM Navision Sale [Sale Contract]
      ACOM Navision Sale [Lot #]      = ACOM Nav Transform [Sale Lot]
      ACOM Nav Transform [Prod. Lot]  = ACOM Nav Bridge [Lot No_(O)]
      ACOM Nav Bridge [Lot No_(D)]    = ACOM Production Results [Lot No_]
      Production Results [Prod_ Order No_] = main records [Prod_ Order No_],
                                         Consumption records only.

    Steps 1 to 4 compare keys after `norm` (trim, then uppercase); step 5
    compares the raw cell values. Every stage is a nested loop that keeps
    every matching pair, so one entry can fan out into many. */
module ContractJoin {
  import opened Text
  import opened Records
  import opened Joins

  /** `norm(v)`: `str(v if v is not None else '').strip().upper()`. */
  function Norm(v: Value): (r: string)
    ensures v == Null ==> r == ""
  {
    NormText(if v == Null then "" else Display(v))
  }

  /** `norm` is idempotent. */
  lemma NormIdempotent(v: Value)
    ensures Norm(Str(Norm(v))) == Norm(v)
  {
    NormTextIdempotent(if v == Null then "" else Display(v));
  }

  /** One entry of a join step. The Python dictionaries of the five steps
      all have this shape, under different names:
        step 1: lotNumber, saleContract (from), saleLot (to), saleContractNumber
        step 2: lotNumber, saleLot (from), productionLot (to), saleContractNumber
        step 3: lotNumber, productionLot (from), bridgeDestLot (to), saleContractNumber
        step 4: lotNumber, bridgeDestLot (from), prodOrder (to), saleContractNumber
        step 5: lotNumber, prodOrder (from), consumptionLot (to), saleContractNumber */
  datatype Link = Link(lotNumber: string, from: Value, to: Value, saleContractNumber: Value)

  /** What `build_purchase_lot_mapping` returns. */
  datatype JoinSteps = JoinSteps(step1: seq<Link>, step2: seq<Link>, step3: seq<Link>, step4: seq<Link>, step5: seq<Link>)

  // ---------------------------------------------------------------------
  // The five stages

  /** An EACL row takes part only when its `Lot Number` is present and not blank. */
  predicate HasLotNumber(eacl: Record) {
    Get(eacl, "Lot Number") != Null && Strip(Display(Get(eacl, "Lot Number"))) != ""
  }

  /** Step 1 condition: `norm(acom.get('Sale Contract', '')) == norm(lot_number)`. */
  predicate Step1Match(eacl: Record, acom: Record) {
    HasLotNumber(eacl) && Norm(GetOr(acom, "Sale Contract", Str(""))) == Norm(Get(eacl, "Lot Number"))
  }

  function Step1Link(eacl: Record, acom: Record): Link {
    Link(Display(Get(eacl, "Lot Number")), Get(acom, "Sale Contract"), Get(acom, "Lot #"), Get(eacl, "Sale Contract #"))
  }

  /** Steps 2-4 condition: `norm(row.get(matchCol, '')) == norm(item[to])`. */
  function HopMatch(matchCol: string): (Link, Record) -> bool {
    (item: Link, row: Record) => Norm(GetOr(row, matchCol, Str(""))) == Norm(item.to)
  }

  /** Steps 2-4 entry: the lot number and sale contract number carried
      forward, the previous key kept, the next key read from the row. */
  function HopLink(takeCol: string): (Link, Record) -> Link {
    (item: Link, row: Record) => Link(item.lotNumber, item.to, Get(row, takeCol), item.saleContractNumber)
  }

  /** Step 5 condition, raw equality:
      `r.get('Prod_ Order No_') == item['prodOrder'] and r.get('Process Type') == 'Consumption'`. */
  predicate Step5Match(item: Link, r: Record) {
    Get(r, "Prod_ Order No_") == item.to && Get(r, "Process Type") == Str("Consumption")
  }

  function Step5Link(item: Link, r: Record): Link {
    Link(item.lotNumber, item.to, Get(r, "Lot No_"), item.saleContractNumber)
  }

  function Hop(items: seq<Link>, table: seq<Record>, matchCol: string, takeCol: string): seq<Link> {
    Join(items, table, HopMatch(matchCol), HopLink(takeCol))
  }

  /** All five steps over the sheets. */
  function Steps(eacl: seq<Record>, sale: seq<Record>, transform: seq<Record>, bridge: seq<Record>,
                 results: seq<Record>, records: seq<Record>): JoinSteps
  {
    var step1 := Join(eacl, sale, Step1Match, Step1Link);
    var step2 := Hop(step1, transform, "Sale Lot", "Production Lot");
    var step3 := Hop(step2, bridge, "Lot No_(O)", "Lot No_(D)");
    var step4 := Hop(step3, results, "Lot No_", "Prod_ Order No_");
    JoinSteps(step1, step2, step3, step4, Join(step4, records, Step5Match, Step5Link))
  }

  /** Step 1 entries: an EACL row with a non-blank lot number paired with a
      sale row whose normalised `Sale Contract` equals it; EACL rows with a
      missing or blank lot number contribute nothing. */
  lemma Step1Member(eacl: seq<Record>, sale: seq<Record>, l: Link)
    ensures l in Join(eacl, sale, Step1Match, Step1Link) <==>
            exists i, j :: 0 <= i < |eacl| && 0 <= j < |sale| && HasLotNumber(eacl[i]) &&
                           Norm(GetOr(sale[j], "Sale Contract", Str(""))) == Norm(Get(eacl[i], "Lot Number")) &&
                           l == Link(Display(Get(eacl[i], "Lot Number")), Get(sale[j], "Sale Contract"),
                                     Get(sale[j], "Lot #"), Get(eacl[i], "Sale Contract #"))
  {
    JoinMember(eacl, sale, Step1Match, Step1Link, l);
  }

  /** Steps 2-4 entries: a previous entry paired with a row whose
      normalised key equals the entry's normalised `to`; `lotNumber` and
      `saleContractNumber` are carried forward unchanged. */
  lemma HopMember(items: seq<Link>, table: seq<Record>, matchCol: string, takeCol: string, l: Link)
    ensures l in Hop(items, table, matchCol, takeCol) <==>
            exists i, j :: 0 <= i < |items| && 0 <= j < |table| &&
                           Norm(GetOr(table[j], matchCol, Str(""))) == Norm(items[i].to) &&
                           l == Link(items[i].lotNumber, items[i].to, Get(table[j], takeCol), items[i].saleContractNumber)
    ensures |Hop(items, table, matchCol, takeCol)| == TotalMatches(items, table, HopMatch(matchCol))
  {
    JoinMember(items, table, HopMatch(matchCol), HopLink(takeCol), l);
  }

  /** Step 5 entries: a step-4 entry paired with a main record marked
      Consumption whose `Prod_ Order No_` equals the entry's production
      order by raw, un-normalised equality. */
  lemma Step5Member(step4: seq<Link>, records: seq<Record>, l: Link)
    ensures l in Join(step4, records, Step5Match, Step5Link) <==>
            exists i, j :: 0 <= i < |step4| && 0 <= j < |records| &&
                           Get(records[j], "Prod_ Order No_") == step4[i].to &&
                           Get(records[j], "Process Type") == Str("Consumption") &&
                           l == Link(step4[i].lotNumber, step4[i].to, Get(records[j], "Lot No_"), step4[i].saleContractNumber)
  {
    JoinMember(step4, records, Step5Match, Step5Link, l);
  }

  // ---------------------------------------------------------------------
  // purchase_lot_map

  /** Records one step-5 entry: `str(saleContractNumber)` gets the lot
      appended unless it is already listed. */
  function AddLot(m: map<string, seq<Value>>, contract: string, lot: Value): map<string, seq<Value>> {
    if contract !in m then m[contract := [lot]]
    else if lot in m[contract] then m
    else m[contract := m[contract] + [lot]]
  }

  /** `purchase_lot_map` after the step-5 loop, from an empty map. */
  function LotMap(links: seq<Link>): map<string, seq<Value>> {
    if links == [] then map[]
    else
      var l := links[|links| - 1];
      AddLot(LotMap(links[..|links| - 1]), Display(l.saleContractNumber), l.to)
  }

  /** The map's contracts are exactly the sale contract numbers of the
      entries; each contract's list is duplicate-free and holds exactly the
      consumption lots of that contract's entries. */
  lemma {:induction false} LotMapContents(links: seq<Link>, c: string, lot: Value)
    ensures c in LotMap(links) <==> exists i :: 0 <= i < |links| && Display(links[i].saleContractNumber) == c
    ensures c in LotMap(links) ==> NoDup(LotMap(links)[c])
    ensures c in LotMap(links) ==>
              (lot in LotMap(links)[c] <==>
               exists i :: 0 <= i < |links| && Display(links[i].saleContractNumber) == c && links[i].to == lot)
  {
    if links != [] {
      var init := links[..|links| - 1];
      var l := links[|links| - 1];
      LotMapContents(init, c, lot);
      assert forall i :: 0 <= i < |init| ==> init[i] == links[i];
      var m := LotMap(init);
      if Display(l.saleContractNumber) == c && c in m && l.to !in m[c] {
        NoDupConcat(m[c], [l.to]);
      }
    }
  }

  /** Every lot listed under a contract is the `Lot No_` of a Consumption
      record whose production order (raw equality) is that of a step-4 entry
      for the contract; conversely each such record's lot is listed. */
  lemma PurchaseLotMapSound(step4: seq<Link>, records: seq<Record>, c: string, lot: Value)
    ensures var m := LotMap(Join(step4, records, Step5Match, Step5Link));
            c in m && lot in m[c] <==>
            exists i, j :: 0 <= i < |step4| && 0 <= j < |records| &&
                           Display(step4[i].saleContractNumber) == c &&
                           Get(records[j], "Prod_ Order No_") == step4[i].to &&
                           Get(records[j], "Process Type") == Str("Consumption") &&
                           Get(records[j], "Lot No_") == lot
  {
    var step5 := Join(step4, records, Step5Match, Step5Link);
    LotMapContents(step5, c, lot);
    if exists i, j :: 0 <= i < |step4| && 0 <= j < |records| &&
                      Display(step4[i].saleContractNumber) == c &&
                      Get(records[j], "Prod_ Order No_") == step4[i].to &&
                      Get(records[j], "Process Type") == Str("Consumption") &&
                      Get(records[j], "Lot No_") == lot {
      var i, j :| 0 <= i < |step4| && 0 <= j < |records| &&
                  Display(step4[i].saleContractNumber) == c &&
                  Get(records[j], "Prod_ Order No_") == step4[i].to &&
                  Get(records[j], "Process Type") == Str("Consumption") &&
                  Get(records[j], "Lot No_") == lot;
      var l := Step5Link(step4[i], records[j]);
      Step5Member(step4, records, l);
      var k :| 0 <= k < |step5| && step5[k] == l;
    }
    if c in LotMap(step5) && lot in LotMap(step5)[c] {
      var k :| 0 <= k < |step5| && Display(step5[k].saleContractNumber) == c && step5[k].to == lot;
      Step5Member(step4, records, step5[k]);
    }
  }

  /** The map update inside the step-5 loop: create the contract's list if
      missing, then append the lot if it is not listed yet. */
  method RecordLot(lotMap: map<string, seq<Value>>, saleContract: string, lot: Value)
    returns (res: map<string, seq<Value>>)
    ensures res == AddLot(lotMap, saleContract, lot)
  {
    res := lotMap;
    if saleContract !in res {
      res := res[saleContract := []];
    }
    if lot !in res[saleContract] {
      assert saleContract !in lotMap ==> [] + [lot] == [lot];
      res := res[saleContract := res[saleContract] + [lot]];
    }
  }

  /** The step-5 loop: the entries and the contract-to-lots map it builds
      from an empty map. */
  method RunStep5(step4: seq<Link>, records: seq<Record>) returns (step5: seq<Link>, lotMap: map<string, seq<Value>>)
    ensures step5 == Join(step4, records, Step5Match, Step5Link)
    ensures lotMap == LotMap(step5)
  {
    step5, lotMap := [], map[];
    for i := 0 to |step4|
      invariant step5 == Join(step4[..i], records, Step5Match, Step5Link)
      invariant lotMap == LotMap(step5)
    {
      assert step4[..i + 1][..i] == step4[..i];
      var item := step4[i];
      ghost var before := step5;
      for j := 0 to |records|
        invariant step5 == before + Matches(item, records[..j], Step5Match, Step5Link)
        invariant lotMap == LotMap(step5)
      {
        assert records[..j + 1][..j] == records[..j];
        var r := records[j];
        if Get(r, "Prod_ Order No_") == item.to && Get(r, "Process Type") == Str("Consumption") {
          var consumptionLotNo := Get(r, "Lot No_");
          var link := Link(item.lotNumber, item.to, consumptionLotNo, item.saleContractNumber);
          assert (step5 + [link])[..|step5|] == step5;
          step5 := step5 + [link];
          lotMap := RecordLot(lotMap, Display(item.saleContractNumber), consumptionLotNo);
        }
      }
      assert records[..|records|] == records;
    }
    assert step4[..|step4|] == step4;
  }
}
