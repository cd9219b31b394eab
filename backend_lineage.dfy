/** The recursive lineage trace of `get_lot_lineage`
    (backend_processor.py:283-365). From a lot, `build_node` follows
    origins (the lots consumed by the production order of the lot's first
    record) and destinations (the output lots of every production order in
    which the lot was consumed), up to a maximum depth. A lot is expanded
    at most once and an origin production order is followed at most once;
    both visited sets are shared by the whole trace. */
module BackendLineage {
  import opened Text
  import opened Records
  import opened Indexing

  /** The `direction` argument of `build_node`. */
  datatype Direction = Origin | Destination | Both

  /** A node of the lineage tree. */
  datatype Node = Node(lotNo: string, prodOrderNo: Value, description: Value, quantity: Value, unit: Value,
                       postingDate: string, documentType: Value,
                       origins: seq<Node>, destinations: seq<Node>, depth: int)

  /** The node `build_node` makes from the lot's first record, before any
      child is attached. */
  function NodeOf(lot: string, record: Record, depth: int): (n: Node)
    ensures n.lotNo == lot && n.depth == depth && n.origins == [] && n.destinations == []
  {
    Node(lot, GetOr(record, "Prod_ Order No_", Str("")), GetOr(record, "Description", Str("")),
         GetOr(record, "Quantity", Int(0)), GetOr(record, "Unit of Measure", Str("")),
         Display(GetOr(record, "Posting Date", Str(""))), GetOr(record, "Document Type", Str("")),
         [], [], depth)
  }

  /** The lots of a tree, root first, then the origin subtrees, then the
      destination subtrees. */
  function TreeLots(n: Node): seq<string>
    decreases n, 1
  {
    [n.lotNo] + ForestLots(n.origins) + ForestLots(n.destinations)
  }

  function ForestLots(ns: seq<Node>): seq<string>
    decreases ns, 0
  {
    if ns == [] then [] else ForestLots(ns[..|ns| - 1]) + TreeLots(ns[|ns| - 1])
  }

  function Lots(n: Option<Node>): seq<string> {
    if n.Some? then TreeLots(n.value) else []
  }

  // ---------------------------------------------------------------------
  // Which lots may be children

  /** The trimmed `Lot No_` of each record whose `Document Type` is `ty`. */
  function LotsOfType(recs: seq<Record>, ty: string): seq<string> {
    FilterMap(recs, r => Get(r, "Document Type") == Str(ty), r => KeyText(r, "Lot No_"))
  }

  lemma LotsOfTypeMember(recs: seq<Record>, ty: string, x: string)
    ensures x in LotsOfType(recs, ty) <==>
            exists j :: 0 <= j < |recs| && Get(recs[j], "Document Type") == Str(ty) && KeyText(recs[j], "Lot No_") == x
  {
    FilterMapMember(recs, r => Get(r, "Document Type") == Str(ty), r => KeyText(r, "Lot No_"), x);
  }

  /** The lots an origin trace of `lot` may reach: those consumed by the
      production order of the lot's first record. */
  function OriginLots(lotIndex: Index, prodOrderIndex: Index, lot: string): seq<string> {
    if lotIndex.Bucket(lot) == [] then []
    else
      var prodOrder := KeyText(lotIndex.Bucket(lot)[0], "Prod_ Order No_");
      if prodOrder == "" then [] else LotsOfType(prodOrderIndex.Bucket(prodOrder), "Consumption")
  }

  /** The lots a destination trace of `lot` may reach: the outputs of every
      production order (among `orders`) that consumed `lot`. */
  function DestinationLots(prodOrderIndex: Index, orders: seq<string>, lot: string): seq<string> {
    FlatMap(orders, o => if lot in LotsOfType(prodOrderIndex.Bucket(o), "Consumption")
                         then LotsOfType(prodOrderIndex.Bucket(o), "Output") else [])
  }

  /** A destination lot is an output of an order that consumed the lot. */
  lemma DestinationLotsMember(prodOrderIndex: Index, orders: seq<string>, lot: string, x: string)
    ensures x in DestinationLots(prodOrderIndex, orders, lot) <==>
            exists k :: 0 <= k < |orders| && lot in LotsOfType(prodOrderIndex.Bucket(orders[k]), "Consumption") &&
                        x in LotsOfType(prodOrderIndex.Bucket(orders[k]), "Output")
  {
    FlatMapMember(orders, o => if lot in LotsOfType(prodOrderIndex.Bucket(o), "Consumption")
                               then LotsOfType(prodOrderIndex.Bucket(o), "Output") else [], x);
  }

  /** An Output lot of an order that consumed `lot` is a destination of it. */
  lemma OutputIsDestination(prodOrderIndex: Index, lot: string, k: int, x: string)
    requires 0 <= k < |prodOrderIndex.order|
    requires lot in LotsOfType(prodOrderIndex.Bucket(prodOrderIndex.order[k]), "Consumption")
    requires x in LotsOfType(prodOrderIndex.Bucket(prodOrderIndex.order[k]), "Output")
    ensures x in DestinationLots(prodOrderIndex, prodOrderIndex.order, lot)
  {
    DestinationLotsMember(prodOrderIndex, prodOrderIndex.order, lot, x);
  }

  // ---------------------------------------------------------------------
  // What a traced tree satisfies

  /** Every node: within the depth bound, built from its lot's first
      record, shaped by its direction (an origin-built node has no
      destinations, a destination-built node no origins), and with
      children one level deeper that are non-empty lots the trace may
      reach from it. */
  ghost predicate Sound(n: Node, dir: Direction, lotIndex: Index, prodOrderIndex: Index, maxDepth: int)
    decreases n
  {
    0 <= n.depth <= maxDepth &&
    lotIndex.Bucket(n.lotNo) != [] &&
    n.(origins := [], destinations := []) == NodeOf(n.lotNo, lotIndex.Bucket(n.lotNo)[0], n.depth) &&
    (dir == Origin ==> n.destinations == []) &&
    (dir == Destination ==> n.origins == []) &&
    (forall i :: 0 <= i < |n.origins| ==>
       n.origins[i].depth == n.depth + 1 && n.origins[i].lotNo != "" &&
       n.origins[i].lotNo in OriginLots(lotIndex, prodOrderIndex, n.lotNo) &&
       Sound(n.origins[i], Origin, lotIndex, prodOrderIndex, maxDepth)) &&
    (forall i :: 0 <= i < |n.destinations| ==>
       n.destinations[i].depth == n.depth + 1 && n.destinations[i].lotNo != "" &&
       n.destinations[i].lotNo in DestinationLots(prodOrderIndex, prodOrderIndex.order, n.lotNo) &&
       Sound(n.destinations[i], Destination, lotIndex, prodOrderIndex, maxDepth))
  }

  /** The lots are distinct and were all first visited between `before`
      and `after`. */
  ghost predicate Within(lots: seq<string>, before: set<string>, after: set<string>) {
    NoDup(lots) && forall x :: x in lots ==> x in after && x !in before
  }

  /** Every lot first visited between `before` and `after` is one of the
      lots, or has no records. */
  ghost predicate Covered(lots: seq<string>, before: set<string>, after: set<string>, lotIndex: Index) {
    forall x :: x in after && x !in before ==> x in lots || lotIndex.Bucket(x) == []
  }

  /** The children gathered so far, with the visited lots grown from
      `before` to `after`. */
  ghost predicate Traced(cs: seq<Node>, depth: int, allowed: seq<string>, dir: Direction,
                         before: set<string>, after: set<string>,
                         lotIndex: Index, prodOrderIndex: Index, maxDepth: int)
  {
    before <= after &&
    Within(ForestLots(cs), before, after) && Covered(ForestLots(cs), before, after, lotIndex) &&
    forall i :: 0 <= i < |cs| ==>
      cs[i].depth == depth + 1 && cs[i].lotNo != "" && cs[i].lotNo in allowed &&
      Sound(cs[i], dir, lotIndex, prodOrderIndex, maxDepth)
  }

  /** Every non-empty lot of `lots` other than `lot` has been visited. */
  ghost predicate AllVisited(lots: seq<string>, lot: string, visited: set<string>) {
    forall x :: x in lots && x != "" && x != lot ==> x in visited
  }

  /** Each of the first `n` production orders of the index in which `lot`
      was consumed is in `followed` or in `orders`. */
  ghost predicate Scanned(lot: string, prodOrderIndex: Index, n: int, followed: set<string>, orders: set<string>) {
    forall k :: 0 <= k < n && k < |prodOrderIndex.order| &&
                lot in LotsOfType(prodOrderIndex.Bucket(prodOrderIndex.order[k]), "Consumption") ==>
                  prodOrderIndex.order[k] in followed || prodOrderIndex.order[k] in orders
  }

  /** Every order of `followed` consumed `lot`. */
  ghost predicate Consumers(lot: string, prodOrderIndex: Index, followed: set<string>) {
    forall o :: o in followed ==> lot in LotsOfType(prodOrderIndex.Bucket(o), "Consumption")
  }

  /** Every production order in which `lot` was consumed is in `followed`
      or in `orders` (the marked set as the branch leaves it), and
      `followed` holds only such orders. */
  ghost predicate ScannedAll(lot: string, prodOrderIndex: Index, followed: set<string>, orders: set<string>) {
    Scanned(lot, prodOrderIndex, |prodOrderIndex.order|, followed, orders) && Consumers(lot, prodOrderIndex, followed)
  }

  /** The scan of the destination branch moves past one more order. */
  lemma ScannedStep(lot: string, prodOrderIndex: Index, n: int,
                    followed: set<string>, followed': set<string>, orders: set<string>, orders': set<string>)
    requires 0 <= n < |prodOrderIndex.order|
    requires Scanned(lot, prodOrderIndex, n, followed, orders) && followed <= followed' && orders <= orders'
    requires var o := prodOrderIndex.order[n];
             o in followed' || o in orders' || lot !in LotsOfType(prodOrderIndex.Bucket(o), "Consumption")
    ensures Scanned(lot, prodOrderIndex, n + 1, followed', orders')
  {
  }

  /** Every Output lot of every followed order, other than `lot`, has been
      visited. */
  ghost predicate FollowedVisited(lot: string, prodOrderIndex: Index, followed: set<string>, visited: set<string>) {
    forall o :: o in followed ==> AllVisited(LotsOfType(prodOrderIndex.Bucket(o), "Output"), lot, visited)
  }

  lemma AllVisitedGrow(lots: seq<string>, lot: string, v1: set<string>, v2: set<string>)
    requires AllVisited(lots, lot, v1) && v1 <= v2
    ensures AllVisited(lots, lot, v2)
  {
  }

  lemma FollowedVisitedGrow(lot: string, prodOrderIndex: Index, followed: set<string>, v1: set<string>, v2: set<string>)
    requires FollowedVisited(lot, prodOrderIndex, followed, v1) && v1 <= v2
    ensures FollowedVisited(lot, prodOrderIndex, followed, v2)
  {
    forall o | o in followed
      ensures AllVisited(LotsOfType(prodOrderIndex.Bucket(o), "Output"), lot, v2)
    {
      AllVisitedGrow(LotsOfType(prodOrderIndex.Bucket(o), "Output"), lot, v1, v2);
    }
  }

  /** `x` is a lot the trace may reach from `y` in one step. */
  predicate Child(y: string, x: string, lotIndex: Index, prodOrderIndex: Index) {
    x in OriginLots(lotIndex, prodOrderIndex, y) || x in DestinationLots(prodOrderIndex, prodOrderIndex.order, y)
  }

  /** Every lot first visited between `before` and `after` is a candidate
      child of one of `lots`. */
  ghost predicate Reached(lots: seq<string>, before: set<string>, after: set<string>, lotIndex: Index, prodOrderIndex: Index) {
    forall x :: x in after && x !in before ==> exists y :: y in lots && Child(y, x, lotIndex, prodOrderIndex)
  }

  /** A reason for the trace, at lot `y`, to mark production order `o`
      followed: it is the order of `y`'s first record, or `y` was consumed
      in it and it has a non-empty Output lot other than `y`. */
  ghost predicate Marks(y: string, o: string, lotIndex: Index, prodOrderIndex: Index) {
    (lotIndex.Bucket(y) != [] && o == KeyText(lotIndex.Bucket(y)[0], "Prod_ Order No_")) ||
    (y in LotsOfType(prodOrderIndex.Bucket(o), "Consumption") &&
     exists x :: x in LotsOfType(prodOrderIndex.Bucket(o), "Output") && x != "" && x != y)
  }

  /** Every order first marked between `before` and `after` has a reason at
      one of `lots`. */
  ghost predicate Marked(lots: seq<string>, before: set<string>, after: set<string>, lotIndex: Index, prodOrderIndex: Index) {
    forall o :: o in after && o !in before ==> exists y :: y in lots && Marks(y, o, lotIndex, prodOrderIndex)
  }

  /** Two consecutive stretches of visits, each explained by lots of `c`. */
  lemma ReachedMerge(a: seq<string>, b: seq<string>, c: seq<string>, s0: set<string>, s1: set<string>, s2: set<string>,
                     lotIndex: Index, prodOrderIndex: Index)
    requires Reached(a, s0, s1, lotIndex, prodOrderIndex) && Reached(b, s1, s2, lotIndex, prodOrderIndex)
    requires forall y :: y in a ==> y in c
    requires forall y :: y in b ==> y in c
    ensures Reached(c, s0, s2, lotIndex, prodOrderIndex)
  {
  }

  /** Two consecutive stretches of marks, each explained by lots of `c`. */
  lemma MarkedMerge(a: seq<string>, b: seq<string>, c: seq<string>, s0: set<string>, s1: set<string>, s2: set<string>,
                    lotIndex: Index, prodOrderIndex: Index)
    requires Marked(a, s0, s1, lotIndex, prodOrderIndex) && Marked(b, s1, s2, lotIndex, prodOrderIndex)
    requires forall y :: y in a ==> y in c
    requires forall y :: y in b ==> y in c
    ensures Marked(c, s0, s2, lotIndex, prodOrderIndex)
  {
  }

  /** The lot of a record of type `ty` is one of the lots of that type. */
  lemma TypedLotMember(recs: seq<Record>, ty: string, j: int)
    requires 0 <= j < |recs| && Get(recs[j], "Document Type") == Str(ty)
    ensures KeyText(recs[j], "Lot No_") in LotsOfType(recs, ty)
  {
    LotsOfTypeMember(recs, ty, KeyText(recs[j], "Lot No_"));
  }

  /** One more record read: its lot is a candidate when its type is `ty`. */
  lemma LotsOfTypeSnoc(recs: seq<Record>, ty: string, i: int)
    requires 0 <= i < |recs|
    ensures LotsOfType(recs[..i + 1], ty) ==
            LotsOfType(recs[..i], ty) + if Get(recs[i], "Document Type") == Str(ty) then [KeyText(recs[i], "Lot No_")] else []
  {
    assert recs[..i + 1][..i] == recs[..i];
  }

  lemma WithinConcat(a: seq<string>, b: seq<string>, s0: set<string>, s1: set<string>, s2: set<string>, lotIndex: Index)
    requires s0 <= s1 <= s2
    requires Within(a, s0, s1) && Covered(a, s0, s1, lotIndex)
    requires Within(b, s1, s2) && Covered(b, s1, s2, lotIndex)
    ensures Within(a + b, s0, s2) && Covered(a + b, s0, s2, lotIndex)
  {
    NoDupConcat(a, b);
  }

  /** Adding the result of one more `build_node` call to the children. */
  lemma AppendChild(cs: seq<Node>, child: Option<Node>, depth: int, allowed: seq<string>, dir: Direction,
                    s0: set<string>, s1: set<string>, s2: set<string>,
                    lotIndex: Index, prodOrderIndex: Index, maxDepth: int)
    requires Traced(cs, depth, allowed, dir, s0, s1, lotIndex, prodOrderIndex, maxDepth)
    requires s1 <= s2 && Within(Lots(child), s1, s2) && Covered(Lots(child), s1, s2, lotIndex)
    requires child.Some? ==> child.value.depth == depth + 1 && child.value.lotNo != "" &&
                             child.value.lotNo in allowed && Sound(child.value, dir, lotIndex, prodOrderIndex, maxDepth)
    ensures Traced(cs + (if child.Some? then [child.value] else []), depth, allowed, dir, s0, s2,
                   lotIndex, prodOrderIndex, maxDepth)
  {
    AppendChildLots(cs, child, s0, s1, s2, lotIndex);
    AppendChildShape(cs, child, depth, allowed, dir, lotIndex, prodOrderIndex, maxDepth);
  }

  lemma AppendChildLots(cs: seq<Node>, child: Option<Node>, s0: set<string>, s1: set<string>, s2: set<string>,
                        lotIndex: Index)
    requires s0 <= s1 <= s2
    requires Within(ForestLots(cs), s0, s1) && Covered(ForestLots(cs), s0, s1, lotIndex)
    requires Within(Lots(child), s1, s2) && Covered(Lots(child), s1, s2, lotIndex)
    ensures var cs' := cs + (if child.Some? then [child.value] else []);
            Within(ForestLots(cs'), s0, s2) && Covered(ForestLots(cs'), s0, s2, lotIndex)
  {
    ForestLotsAppend(cs, child);
    WithinConcat(ForestLots(cs), Lots(child), s0, s1, s2, lotIndex);
  }

  lemma AppendChildShape(cs: seq<Node>, child: Option<Node>, depth: int, allowed: seq<string>, dir: Direction,
                         lotIndex: Index, prodOrderIndex: Index, maxDepth: int)
    requires forall i :: 0 <= i < |cs| ==>
               cs[i].depth == depth + 1 && cs[i].lotNo != "" && cs[i].lotNo in allowed &&
               Sound(cs[i], dir, lotIndex, prodOrderIndex, maxDepth)
    requires child.Some? ==> child.value.depth == depth + 1 && child.value.lotNo != "" &&
                             child.value.lotNo in allowed && Sound(child.value, dir, lotIndex, prodOrderIndex, maxDepth)
    ensures var cs' := cs + (if child.Some? then [child.value] else []);
            forall i :: 0 <= i < |cs'| ==>
              cs'[i].depth == depth + 1 && cs'[i].lotNo != "" && cs'[i].lotNo in allowed &&
              Sound(cs'[i], dir, lotIndex, prodOrderIndex, maxDepth)
  {
  }


  /** Every lot of a sound tree has records. */
  lemma {:induction false} SoundLotsIndexed(n: Node, dir: Direction, lotIndex: Index, prodOrderIndex: Index, maxDepth: int, x: string)
    requires Sound(n, dir, lotIndex, prodOrderIndex, maxDepth) && x in TreeLots(n)
    ensures lotIndex.Bucket(x) != []
    decreases n, 1
  {
    if x != n.lotNo {
      if x in ForestLots(n.origins) {
        SoundForestIndexed(n.origins, Origin, lotIndex, prodOrderIndex, maxDepth, x);
      } else {
        SoundForestIndexed(n.destinations, Destination, lotIndex, prodOrderIndex, maxDepth, x);
      }
    }
  }

  lemma {:induction false} SoundForestIndexed(ns: seq<Node>, dir: Direction, lotIndex: Index, prodOrderIndex: Index, maxDepth: int, x: string)
    requires forall i :: 0 <= i < |ns| ==> Sound(ns[i], dir, lotIndex, prodOrderIndex, maxDepth)
    requires x in ForestLots(ns)
    ensures lotIndex.Bucket(x) != []
    decreases ns, 0
  {
    var init := ns[..|ns| - 1];
    if x in ForestLots(init) {
      SoundForestIndexed(init, dir, lotIndex, prodOrderIndex, maxDepth, x);
    } else {
      SoundLotsIndexed(ns[|ns| - 1], dir, lotIndex, prodOrderIndex, maxDepth, x);
    }
  }

  /** No node has a child carrying its own lot number: the lots of a
      traced tree are distinct. */
  lemma NoChildRepeatsParent(n: Node, i: int)
    requires NoDup(TreeLots(n))
    ensures 0 <= i < |n.origins| ==> n.origins[i].lotNo != n.lotNo
    ensures 0 <= i < |n.destinations| ==> n.destinations[i].lotNo != n.lotNo
  {
    var o := ForestLots(n.origins);
    var d := ForestLots(n.destinations);
    assert TreeLots(n) == [n.lotNo] + (o + d);
    NoDupSplit([n.lotNo], o + d);
    assert n.lotNo !in o + d;
    if 0 <= i < |n.origins| {
      ForestContains(n.origins, i);
      assert n.origins[i].lotNo in o + d;
    }
    if 0 <= i < |n.destinations| {
      ForestContains(n.destinations, i);
      assert n.destinations[i].lotNo in o + d;
    }
  }

  /** A forest's lots include each tree's root lot. */
  lemma {:induction false} ForestContains(ns: seq<Node>, i: int)
    requires 0 <= i < |ns|
    ensures ns[i].lotNo in ForestLots(ns)
  {
    var init := ns[..|ns| - 1];
    if i < |init| {
      ForestContains(init, i);
      assert init[i] == ns[i];
    } else {
      assert TreeLots(ns[i])[0] == ns[i].lotNo;
    }
  }

  // ---------------------------------------------------------------------
  // The trace, as functions of the visited sets it starts from

  /** What one `build_node` call gives back: the node, and the two visited
      sets as the call leaves them. */
  datatype Built = Built(node: Option<Node>, lots: set<string>, orders: set<string>)

  /** Children gathered by a branch, and the visited sets as it leaves them. */
  datatype Gathered = Gathered(children: seq<Node>, lots: set<string>, orders: set<string>)

  /** `build_node(lot, depth, dir)` from the visited sets `lots` and `orders`. */
  function Trace(lot: string, depth: int, dir: Direction, maxDepth: int, lotIndex: Index, prodOrderIndex: Index,
                 lots: set<string>, orders: set<string>): Built
    decreases maxDepth - depth + 1, 4, 0
  {
    if depth > maxDepth || lot in lots then Built(None, lots, orders)
    else if lotIndex.Bucket(lot) == [] then Built(None, lots + {lot}, orders)
    else
      var o := if dir == Destination then Gathered([], lots + {lot}, orders)
               else Origins(lot, depth, maxDepth, lotIndex, prodOrderIndex, lots + {lot}, orders);
      var d := if dir == Origin then Gathered([], o.lots, o.orders)
               else Destinations(lot, 0, depth, maxDepth, lotIndex, prodOrderIndex, [], o.lots, o.orders);
      Built(Some(NodeOf(lot, lotIndex.Bucket(lot)[0], depth).(origins := o.children, destinations := d.children)),
            d.lots, d.orders)
  }

  /** The origin branch: the production order of the lot's first record, if
      set and not yet followed, is marked and its records are read. */
  function Origins(lot: string, depth: int, maxDepth: int, lotIndex: Index, prodOrderIndex: Index,
                   lots: set<string>, orders: set<string>): Gathered
    requires depth <= maxDepth && lotIndex.Bucket(lot) != []
    decreases maxDepth - depth + 1, 3, 0
  {
    var prodOrder := KeyText(lotIndex.Bucket(lot)[0], "Prod_ Order No_");
    if prodOrder != "" && prodOrder !in orders then
      Consume(lot, prodOrder, 0, depth, maxDepth, lotIndex, prodOrderIndex, [], lots, orders + {prodOrder})
    else Gathered([], lots, orders)
  }

  /** The records of the origin order from the `i`-th on. */
  function Consume(lot: string, prodOrder: string, i: int, depth: int, maxDepth: int,
                   lotIndex: Index, prodOrderIndex: Index, cs: seq<Node>, lots: set<string>, orders: set<string>): Gathered
    requires depth <= maxDepth && 0 <= i <= |prodOrderIndex.Bucket(prodOrder)|
    decreases maxDepth - depth + 1, 2, |prodOrderIndex.Bucket(prodOrder)| - i
  {
    if i == |prodOrderIndex.Bucket(prodOrder)| then Gathered(cs, lots, orders)
    else
      var g := ConsumeOne(lot, prodOrder, i, depth, maxDepth, lotIndex, prodOrderIndex, cs, lots, orders);
      Consume(lot, prodOrder, i + 1, depth, maxDepth, lotIndex, prodOrderIndex, g.children, g.lots, g.orders)
  }

  /** The `i`-th record of the origin order: a Consumption record with a
      non-empty lot other than `lot` has that lot traced one level deeper. */
  function ConsumeOne(lot: string, prodOrder: string, i: int, depth: int, maxDepth: int,
                      lotIndex: Index, prodOrderIndex: Index, cs: seq<Node>, lots: set<string>, orders: set<string>): Gathered
    requires depth <= maxDepth && 0 <= i < |prodOrderIndex.Bucket(prodOrder)|
    decreases maxDepth - depth + 1, 1, 0
  {
    var consRec := prodOrderIndex.Bucket(prodOrder)[i];
    var originLot := KeyText(consRec, "Lot No_");
    if Get(consRec, "Document Type") == Str("Consumption") && originLot != "" && originLot != lot then
      var b := Trace(originLot, depth + 1, Origin, maxDepth, lotIndex, prodOrderIndex, lots, orders);
      Gathered(cs + (if b.node.Some? then [b.node.value] else []), b.lots, b.orders)
    else Gathered(cs, lots, orders)
  }

  /** The destination branch from the `k`-th production order of the index
      on: an order not yet followed is scanned. */
  function Destinations(lot: string, k: int, depth: int, maxDepth: int, lotIndex: Index, prodOrderIndex: Index,
                        cs: seq<Node>, lots: set<string>, orders: set<string>): Gathered
    requires depth <= maxDepth && 0 <= k <= |prodOrderIndex.order|
    decreases maxDepth - depth + 1, 3, |prodOrderIndex.order| - k
  {
    if k == |prodOrderIndex.order| then Gathered(cs, lots, orders)
    else if prodOrderIndex.order[k] in orders then
      Destinations(lot, k + 1, depth, maxDepth, lotIndex, prodOrderIndex, cs, lots, orders)
    else
      var g := Scan(lot, k, 0, depth, maxDepth, lotIndex, prodOrderIndex, cs, lots, orders);
      Destinations(lot, k + 1, depth, maxDepth, lotIndex, prodOrderIndex, g.children, g.lots, g.orders)
  }

  /** The records of the `k`-th order from the `j`-th on: each Consumption
      record of `lot` has the order's outputs traced. */
  function Scan(lot: string, k: int, j: int, depth: int, maxDepth: int, lotIndex: Index, prodOrderIndex: Index,
                cs: seq<Node>, lots: set<string>, orders: set<string>): Gathered
    requires depth <= maxDepth && 0 <= k < |prodOrderIndex.order|
    requires 0 <= j <= |prodOrderIndex.Bucket(prodOrderIndex.order[k])|
    decreases maxDepth - depth + 1, 2, |prodOrderIndex.Bucket(prodOrderIndex.order[k])| - j
  {
    var prodRecords := prodOrderIndex.Bucket(prodOrderIndex.order[k]);
    if j == |prodRecords| then Gathered(cs, lots, orders)
    else if Get(prodRecords[j], "Document Type") == Str("Consumption") && KeyText(prodRecords[j], "Lot No_") == lot then
      var g := Outputs(lot, k, 0, depth, maxDepth, lotIndex, prodOrderIndex, cs, lots, orders);
      Scan(lot, k, j + 1, depth, maxDepth, lotIndex, prodOrderIndex, g.children, g.lots, g.orders)
    else Scan(lot, k, j + 1, depth, maxDepth, lotIndex, prodOrderIndex, cs, lots, orders)
  }

  /** The records of the `k`-th order from the `m`-th on, as outputs. */
  function Outputs(lot: string, k: int, m: int, depth: int, maxDepth: int, lotIndex: Index, prodOrderIndex: Index,
                   cs: seq<Node>, lots: set<string>, orders: set<string>): Gathered
    requires depth <= maxDepth && 0 <= k < |prodOrderIndex.order|
    requires 0 <= m <= |prodOrderIndex.Bucket(prodOrderIndex.order[k])|
    decreases maxDepth - depth + 1, 1, |prodOrderIndex.Bucket(prodOrderIndex.order[k])| - m
  {
    if m == |prodOrderIndex.Bucket(prodOrderIndex.order[k])| then Gathered(cs, lots, orders)
    else
      var g := OutputOne(lot, k, m, depth, maxDepth, lotIndex, prodOrderIndex, cs, lots, orders);
      Outputs(lot, k, m + 1, depth, maxDepth, lotIndex, prodOrderIndex, g.children, g.lots, g.orders)
  }

  /** The `m`-th record of the `k`-th order: an Output record with a
      non-empty lot other than `lot` marks the order followed and has that
      lot traced one level deeper. */
  function OutputOne(lot: string, k: int, m: int, depth: int, maxDepth: int, lotIndex: Index, prodOrderIndex: Index,
                     cs: seq<Node>, lots: set<string>, orders: set<string>): Gathered
    requires depth <= maxDepth && 0 <= k < |prodOrderIndex.order|
    requires 0 <= m < |prodOrderIndex.Bucket(prodOrderIndex.order[k])|
    decreases maxDepth - depth + 1, 0, 0
  {
    var outputRec := prodOrderIndex.Bucket(prodOrderIndex.order[k])[m];
    var destLot := KeyText(outputRec, "Lot No_");
    if Get(outputRec, "Document Type") == Str("Output") && destLot != "" && destLot != lot then
      var b := Trace(destLot, depth + 1, Destination, maxDepth, lotIndex, prodOrderIndex,
                     lots, orders + {prodOrderIndex.order[k]});
      Gathered(cs + (if b.node.Some? then [b.node.value] else []), b.lots, b.orders)
    else Gathered(cs, lots, orders)
  }

  // ---------------------------------------------------------------------
  // Everything the trace visits or marks has a reason in the tree

  /** A branch at `lot`, started from `cs`, `lots` and `orders`, left `g`:
      the children it had stay, every lot it first visited is a candidate
      child of `lot` or of a lot under the children, and every order it
      first marked has a reason at one of those lots. */
  ghost predicate Accounted(lot: string, cs: seq<Node>, lots: set<string>, orders: set<string>, g: Gathered,
                            lotIndex: Index, prodOrderIndex: Index)
  {
    (forall y :: y in ForestLots(cs) ==> y in ForestLots(g.children)) &&
    Reached([lot] + ForestLots(g.children), lots, g.lots, lotIndex, prodOrderIndex) &&
    Marked([lot] + ForestLots(g.children), orders, g.orders, lotIndex, prodOrderIndex)
  }

  lemma ForestLotsAppend(cs: seq<Node>, node: Option<Node>)
    ensures ForestLots(cs + (if node.Some? then [node.value] else [])) == ForestLots(cs) + Lots(node)
  {
    if node.Some? {
      assert (cs + [node.value])[..|cs|] == cs;
    } else {
      assert cs + [] == cs;
    }
  }

  /** Two branch stretches in a row. */
  lemma AccountedMerge(lot: string, cs: seq<Node>, lots: set<string>, orders: set<string>, g: Gathered, h: Gathered,
                       lotIndex: Index, prodOrderIndex: Index)
    requires Accounted(lot, cs, lots, orders, g, lotIndex, prodOrderIndex)
    requires Accounted(lot, g.children, g.lots, g.orders, h, lotIndex, prodOrderIndex)
    ensures Accounted(lot, cs, lots, orders, h, lotIndex, prodOrderIndex)
  {
  }

  /** One child traced from `parent`: the child itself is a candidate of
      `parent`, and everything its own trace added is accounted for by the
      lots of its node. */
  lemma ChildAccounted(parent: string, child: string, cs: seq<Node>, lots: set<string>, orders: set<string>,
                       orders1: set<string>, b: Built, lotIndex: Index, prodOrderIndex: Index)
    requires Child(parent, child, lotIndex, prodOrderIndex)
    requires Marked([parent], orders, orders1, lotIndex, prodOrderIndex)
    requires Reached(Lots(b.node), lots + {child}, b.lots, lotIndex, prodOrderIndex)
    requires Marked(Lots(b.node), orders1, b.orders, lotIndex, prodOrderIndex)
    ensures Accounted(parent, cs, lots, orders,
                      Gathered(cs + (if b.node.Some? then [b.node.value] else []), b.lots, b.orders),
                      lotIndex, prodOrderIndex)
  {
    var c := [parent] + ForestLots(cs + (if b.node.Some? then [b.node.value] else []));
    ForestLotsAppend(cs, b.node);
    assert Reached([parent], lots, lots + {child}, lotIndex, prodOrderIndex);
    ReachedMerge([parent], Lots(b.node), c, lots, lots + {child}, b.lots, lotIndex, prodOrderIndex);
    MarkedMerge([parent], Lots(b.node), c, orders, orders1, b.orders, lotIndex, prodOrderIndex);
  }

  /** Every lot `build_node(lot, ...)` first visits, other than `lot`, is a
      candidate child of a lot of the node it returns, and every order it
      first marks has a reason at one of those lots. */
  lemma {:induction false} TraceAccounted(lot: string, depth: int, dir: Direction, maxDepth: int,
                                          lotIndex: Index, prodOrderIndex: Index, lots: set<string>, orders: set<string>)
    ensures var b := Trace(lot, depth, dir, maxDepth, lotIndex, prodOrderIndex, lots, orders);
            Reached(Lots(b.node), lots + {lot}, b.lots, lotIndex, prodOrderIndex) &&
            Marked(Lots(b.node), orders, b.orders, lotIndex, prodOrderIndex)
    decreases maxDepth - depth + 1, 4, 0
  {
    if !(depth > maxDepth || lot in lots) && lotIndex.Bucket(lot) != [] {
      var o := if dir == Destination then Gathered([], lots + {lot}, orders)
               else Origins(lot, depth, maxDepth, lotIndex, prodOrderIndex, lots + {lot}, orders);
      if dir != Destination {
        OriginsAccounted(lot, depth, maxDepth, lotIndex, prodOrderIndex, lots + {lot}, orders);
      }
      var d := if dir == Origin then Gathered([], o.lots, o.orders)
               else Destinations(lot, 0, depth, maxDepth, lotIndex, prodOrderIndex, [], o.lots, o.orders);
      if dir != Origin {
        DestinationsAccounted(lot, 0, depth, maxDepth, lotIndex, prodOrderIndex, [], o.lots, o.orders);
      }
      var n := NodeOf(lot, lotIndex.Bucket(lot)[0], depth).(origins := o.children, destinations := d.children);
      var a, b := [lot] + ForestLots(o.children), [lot] + ForestLots(d.children);
      assert TreeLots(n) == a + ForestLots(d.children);
      ReachedMerge(a, b, TreeLots(n), lots + {lot}, o.lots, d.lots, lotIndex, prodOrderIndex);
      MarkedMerge(a, b, TreeLots(n), orders, o.orders, d.orders, lotIndex, prodOrderIndex);
    }
  }

  /** The origin branch marks only the order of the lot's first record. */
  lemma {:induction false} OriginsAccounted(lot: string, depth: int, maxDepth: int, lotIndex: Index, prodOrderIndex: Index,
                                            lots: set<string>, orders: set<string>)
    requires depth <= maxDepth && lotIndex.Bucket(lot) != []
    ensures Accounted(lot, [], lots, orders, Origins(lot, depth, maxDepth, lotIndex, prodOrderIndex, lots, orders),
                      lotIndex, prodOrderIndex)
    decreases maxDepth - depth + 1, 3, 0
  {
    var prodOrder := KeyText(lotIndex.Bucket(lot)[0], "Prod_ Order No_");
    if prodOrder != "" && prodOrder !in orders {
      ConsumeAccounted(lot, prodOrder, 0, depth, maxDepth, lotIndex, prodOrderIndex, [], lots, orders + {prodOrder});
      assert Marks(lot, prodOrder, lotIndex, prodOrderIndex);
      assert Marked([lot], orders, orders + {prodOrder}, lotIndex, prodOrderIndex);
      var g := Consume(lot, prodOrder, 0, depth, maxDepth, lotIndex, prodOrderIndex, [], lots, orders + {prodOrder});
      var c := [lot] + ForestLots(g.children);
      MarkedMerge([lot], c, c, orders, orders + {prodOrder}, g.orders, lotIndex, prodOrderIndex);
    }
  }

  lemma {:induction false} ConsumeAccounted(lot: string, prodOrder: string, i: int, depth: int, maxDepth: int,
                                            lotIndex: Index, prodOrderIndex: Index, cs: seq<Node>,
                                            lots: set<string>, orders: set<string>)
    requires depth <= maxDepth && 0 <= i <= |prodOrderIndex.Bucket(prodOrder)|
    requires lotIndex.Bucket(lot) != [] && prodOrder == KeyText(lotIndex.Bucket(lot)[0], "Prod_ Order No_") != ""
    ensures Accounted(lot, cs, lots, orders,
                      Consume(lot, prodOrder, i, depth, maxDepth, lotIndex, prodOrderIndex, cs, lots, orders),
                      lotIndex, prodOrderIndex)
    decreases maxDepth - depth + 1, 2, |prodOrderIndex.Bucket(prodOrder)| - i
  {
    if i < |prodOrderIndex.Bucket(prodOrder)| {
      var g := ConsumeOne(lot, prodOrder, i, depth, maxDepth, lotIndex, prodOrderIndex, cs, lots, orders);
      ConsumeOneAccounted(lot, prodOrder, i, depth, maxDepth, lotIndex, prodOrderIndex, cs, lots, orders);
      ConsumeAccounted(lot, prodOrder, i + 1, depth, maxDepth, lotIndex, prodOrderIndex, g.children, g.lots, g.orders);
      AccountedMerge(lot, cs, lots, orders, g,
                     Consume(lot, prodOrder, i + 1, depth, maxDepth, lotIndex, prodOrderIndex, g.children, g.lots, g.orders),
                     lotIndex, prodOrderIndex);
    }
  }

  lemma {:induction false} ConsumeOneAccounted(lot: string, prodOrder: string, i: int, depth: int, maxDepth: int,
                                               lotIndex: Index, prodOrderIndex: Index, cs: seq<Node>,
                                               lots: set<string>, orders: set<string>)
    requires depth <= maxDepth && 0 <= i < |prodOrderIndex.Bucket(prodOrder)|
    requires lotIndex.Bucket(lot) != [] && prodOrder == KeyText(lotIndex.Bucket(lot)[0], "Prod_ Order No_") != ""
    ensures Accounted(lot, cs, lots, orders,
                      ConsumeOne(lot, prodOrder, i, depth, maxDepth, lotIndex, prodOrderIndex, cs, lots, orders),
                      lotIndex, prodOrderIndex)
    decreases maxDepth - depth + 1, 1, 0
  {
    var consRec := prodOrderIndex.Bucket(prodOrder)[i];
    var originLot := KeyText(consRec, "Lot No_");
    if Get(consRec, "Document Type") == Str("Consumption") && originLot != "" && originLot != lot {
      TraceAccounted(originLot, depth + 1, Origin, maxDepth, lotIndex, prodOrderIndex, lots, orders);
      TypedLotMember(prodOrderIndex.Bucket(prodOrder), "Consumption", i);
      ChildAccounted(lot, originLot, cs, lots, orders, orders,
                     Trace(originLot, depth + 1, Origin, maxDepth, lotIndex, prodOrderIndex, lots, orders),
                     lotIndex, prodOrderIndex);
    }
  }

  lemma {:induction false} DestinationsAccounted(lot: string, k: int, depth: int, maxDepth: int,
                                                 lotIndex: Index, prodOrderIndex: Index, cs: seq<Node>,
                                                 lots: set<string>, orders: set<string>)
    requires depth <= maxDepth && 0 <= k <= |prodOrderIndex.order|
    ensures Accounted(lot, cs, lots, orders,
                      Destinations(lot, k, depth, maxDepth, lotIndex, prodOrderIndex, cs, lots, orders),
                      lotIndex, prodOrderIndex)
    decreases maxDepth - depth + 1, 3, |prodOrderIndex.order| - k
  {
    if k < |prodOrderIndex.order| {
      if prodOrderIndex.order[k] in orders {
        DestinationsAccounted(lot, k + 1, depth, maxDepth, lotIndex, prodOrderIndex, cs, lots, orders);
      } else {
        var g := Scan(lot, k, 0, depth, maxDepth, lotIndex, prodOrderIndex, cs, lots, orders);
        ScanAccounted(lot, k, 0, depth, maxDepth, lotIndex, prodOrderIndex, cs, lots, orders);
        DestinationsAccounted(lot, k + 1, depth, maxDepth, lotIndex, prodOrderIndex, g.children, g.lots, g.orders);
        AccountedMerge(lot, cs, lots, orders, g,
                       Destinations(lot, k + 1, depth, maxDepth, lotIndex, prodOrderIndex, g.children, g.lots, g.orders),
                       lotIndex, prodOrderIndex);
      }
    }
  }

  lemma {:induction false} ScanAccounted(lot: string, k: int, j: int, depth: int, maxDepth: int,
                                         lotIndex: Index, prodOrderIndex: Index, cs: seq<Node>,
                                         lots: set<string>, orders: set<string>)
    requires depth <= maxDepth && 0 <= k < |prodOrderIndex.order|
    requires 0 <= j <= |prodOrderIndex.Bucket(prodOrderIndex.order[k])|
    ensures Accounted(lot, cs, lots, orders,
                      Scan(lot, k, j, depth, maxDepth, lotIndex, prodOrderIndex, cs, lots, orders),
                      lotIndex, prodOrderIndex)
    decreases maxDepth - depth + 1, 2, |prodOrderIndex.Bucket(prodOrderIndex.order[k])| - j
  {
    var prodRecords := prodOrderIndex.Bucket(prodOrderIndex.order[k]);
    if j < |prodRecords| {
      if Get(prodRecords[j], "Document Type") == Str("Consumption") && KeyText(prodRecords[j], "Lot No_") == lot {
        TypedLotMember(prodRecords, "Consumption", j);
        var g := Outputs(lot, k, 0, depth, maxDepth, lotIndex, prodOrderIndex, cs, lots, orders);
        OutputsAccounted(lot, k, 0, depth, maxDepth, lotIndex, prodOrderIndex, cs, lots, orders);
        ScanAccounted(lot, k, j + 1, depth, maxDepth, lotIndex, prodOrderIndex, g.children, g.lots, g.orders);
        AccountedMerge(lot, cs, lots, orders, g,
                       Scan(lot, k, j + 1, depth, maxDepth, lotIndex, prodOrderIndex, g.children, g.lots, g.orders),
                       lotIndex, prodOrderIndex);
      } else {
        ScanAccounted(lot, k, j + 1, depth, maxDepth, lotIndex, prodOrderIndex, cs, lots, orders);
      }
    }
  }

  lemma {:induction false} OutputsAccounted(lot: string, k: int, m: int, depth: int, maxDepth: int,
                                            lotIndex: Index, prodOrderIndex: Index, cs: seq<Node>,
                                            lots: set<string>, orders: set<string>)
    requires depth <= maxDepth && 0 <= k < |prodOrderIndex.order|
    requires 0 <= m <= |prodOrderIndex.Bucket(prodOrderIndex.order[k])|
    requires lot in LotsOfType(prodOrderIndex.Bucket(prodOrderIndex.order[k]), "Consumption")
    ensures Accounted(lot, cs, lots, orders,
                      Outputs(lot, k, m, depth, maxDepth, lotIndex, prodOrderIndex, cs, lots, orders),
                      lotIndex, prodOrderIndex)
    decreases maxDepth - depth + 1, 1, |prodOrderIndex.Bucket(prodOrderIndex.order[k])| - m
  {
    if m < |prodOrderIndex.Bucket(prodOrderIndex.order[k])| {
      var g := OutputOne(lot, k, m, depth, maxDepth, lotIndex, prodOrderIndex, cs, lots, orders);
      OutputOneAccounted(lot, k, m, depth, maxDepth, lotIndex, prodOrderIndex, cs, lots, orders);
      OutputsAccounted(lot, k, m + 1, depth, maxDepth, lotIndex, prodOrderIndex, g.children, g.lots, g.orders);
      AccountedMerge(lot, cs, lots, orders, g,
                     Outputs(lot, k, m + 1, depth, maxDepth, lotIndex, prodOrderIndex, g.children, g.lots, g.orders),
                     lotIndex, prodOrderIndex);
    }
  }

  lemma {:induction false} OutputOneAccounted(lot: string, k: int, m: int, depth: int, maxDepth: int,
                                              lotIndex: Index, prodOrderIndex: Index, cs: seq<Node>,
                                              lots: set<string>, orders: set<string>)
    requires depth <= maxDepth && 0 <= k < |prodOrderIndex.order|
    requires 0 <= m < |prodOrderIndex.Bucket(prodOrderIndex.order[k])|
    requires lot in LotsOfType(prodOrderIndex.Bucket(prodOrderIndex.order[k]), "Consumption")
    ensures Accounted(lot, cs, lots, orders,
                      OutputOne(lot, k, m, depth, maxDepth, lotIndex, prodOrderIndex, cs, lots, orders),
                      lotIndex, prodOrderIndex)
    decreases maxDepth - depth + 1, 0, 0
  {
    var prodOrder := prodOrderIndex.order[k];
    var outputRec := prodOrderIndex.Bucket(prodOrder)[m];
    var destLot := KeyText(outputRec, "Lot No_");
    if Get(outputRec, "Document Type") == Str("Output") && destLot != "" && destLot != lot {
      TraceAccounted(destLot, depth + 1, Destination, maxDepth, lotIndex, prodOrderIndex, lots, orders + {prodOrder});
      TypedLotMember(prodOrderIndex.Bucket(prodOrder), "Output", m);
      OutputIsDestination(prodOrderIndex, lot, k, destLot);
      assert Marks(lot, prodOrder, lotIndex, prodOrderIndex);
      assert Marked([lot], orders, orders + {prodOrder}, lotIndex, prodOrderIndex);
      ChildAccounted(lot, destLot, cs, lots, orders, orders + {prodOrder},
                     Trace(destLot, depth + 1, Destination, maxDepth, lotIndex, prodOrderIndex, lots, orders + {prodOrder}),
                     lotIndex, prodOrderIndex);
    }
  }

  // ---------------------------------------------------------------------
  // The trace

  /** `build_node(lot, depth, direction)`, with the two visited sets
      passed in and handed back. */
  method BuildNode(lot: string, depth: int, dir: Direction, maxDepth: int, lotIndex: Index, prodOrderIndex: Index,
                   visitedLots: set<string>, visitedOrders: set<string>)
    returns (node: Option<Node>, visitedLots': set<string>, visitedOrders': set<string>, ghost followed: set<string>)
    requires 0 <= depth && prodOrderIndex.Valid()
    ensures node.None? <==> depth > maxDepth || lot in visitedLots || lotIndex.Bucket(lot) == []
    ensures depth > maxDepth || lot in visitedLots ==> visitedLots' == visitedLots && visitedOrders' == visitedOrders
    ensures depth <= maxDepth && lot !in visitedLots ==> lot in visitedLots'
    ensures visitedLots <= visitedLots' && visitedOrders <= visitedOrders'
    ensures node.Some? ==> node.value.lotNo == lot && node.value.depth == depth &&
                           Sound(node.value, dir, lotIndex, prodOrderIndex, maxDepth)
    ensures Within(Lots(node), visitedLots, visitedLots') && Covered(Lots(node), visitedLots, visitedLots', lotIndex)
    ensures node.Some? && dir != Destination && depth < maxDepth &&
            KeyText(lotIndex.Bucket(lot)[0], "Prod_ Order No_") !in visitedOrders ==>
              AllVisited(OriginLots(lotIndex, prodOrderIndex, lot), lot, visitedLots')
    ensures node.Some? && dir != Origin ==>
              followed !! visitedOrders && ScannedAll(lot, prodOrderIndex, followed, visitedOrders') &&
              (depth < maxDepth ==> FollowedVisited(lot, prodOrderIndex, followed, visitedLots'))
    ensures node.None? || dir == Origin ==> followed == {}
    ensures Built(node, visitedLots', visitedOrders') ==
            Trace(lot, depth, dir, maxDepth, lotIndex, prodOrderIndex, visitedLots, visitedOrders)
    ensures Reached(Lots(node), visitedLots + {lot}, visitedLots', lotIndex, prodOrderIndex) &&
            Marked(Lots(node), visitedOrders, visitedOrders', lotIndex, prodOrderIndex)
    decreases maxDepth - depth + 1, 5
  {
    TraceAccounted(lot, depth, dir, maxDepth, lotIndex, prodOrderIndex, visitedLots, visitedOrders);
    followed := {};
    if depth > maxDepth || lot in visitedLots {
      return None, visitedLots, visitedOrders, followed;
    }
    visitedLots', visitedOrders' := visitedLots + {lot}, visitedOrders;
    var records := lotIndex.Bucket(lot);
    if records == [] {
      return None, visitedLots', visitedOrders', followed;
    }
    var record := records[0];
    ghost var afterRoot := visitedLots';
    var origins: seq<Node> := [];
    if dir == Origin || dir == Both {
      origins, visitedLots', visitedOrders' := TraceOrigins(lot, depth, maxDepth, lotIndex, prodOrderIndex, visitedLots', visitedOrders');
    }
    ghost var afterOrigins := visitedLots';
    var destinations: seq<Node> := [];
    if dir == Destination || dir == Both {
      destinations, visitedLots', visitedOrders', followed :=
        TraceDestinations(lot, depth, maxDepth, lotIndex, prodOrderIndex, visitedLots', visitedOrders');
      if dir == Both && depth < maxDepth && KeyText(record, "Prod_ Order No_") !in visitedOrders {
        AllVisitedGrow(OriginLots(lotIndex, prodOrderIndex, lot), lot, afterOrigins, visitedLots');
      }
    }
    AssembleNode(lot, depth, dir, maxDepth, lotIndex, prodOrderIndex, origins, destinations,
                 visitedLots, afterRoot, afterOrigins, visitedLots');
    node := Some(NodeOf(lot, record, depth).(origins := origins, destinations := destinations));
  }

  /** The node `build_node` returns, made from the lot's first record and
      the children both branches traced, is sound, and its lots are the
      lot itself and those the branches visited. */
  lemma AssembleNode(lot: string, depth: int, dir: Direction, maxDepth: int, lotIndex: Index, prodOrderIndex: Index,
                     origins: seq<Node>, destinations: seq<Node>,
                     s0: set<string>, s1: set<string>, s2: set<string>, s3: set<string>)
    requires 0 <= depth <= maxDepth && lotIndex.Bucket(lot) != []
    requires lot !in s0 && s1 == s0 + {lot}
    requires Traced(origins, depth, OriginLots(lotIndex, prodOrderIndex, lot), Origin, s1, s2,
                    lotIndex, prodOrderIndex, maxDepth)
    requires Traced(destinations, depth, DestinationLots(prodOrderIndex, prodOrderIndex.order, lot), Destination,
                    s2, s3, lotIndex, prodOrderIndex, maxDepth)
    requires dir == Origin ==> destinations == []
    requires dir == Destination ==> origins == []
    ensures var n := NodeOf(lot, lotIndex.Bucket(lot)[0], depth).(origins := origins, destinations := destinations);
            Sound(n, dir, lotIndex, prodOrderIndex, maxDepth) &&
            Within(TreeLots(n), s0, s3) && Covered(TreeLots(n), s0, s3, lotIndex)
  {
    var n := NodeOf(lot, lotIndex.Bucket(lot)[0], depth).(origins := origins, destinations := destinations);
    assert TreeLots(n) == [lot] + ForestLots(origins) + ForestLots(destinations);
    WithinConcat([lot], ForestLots(origins), s0, s1, s2, lotIndex);
    WithinConcat([lot] + ForestLots(origins), ForestLots(destinations), s0, s2, s3, lotIndex);
  }

  /** The origin branch of `build_node`: when the production order of the
      lot's first record is set and not yet followed, each Consumption
      record of that order with a non-empty lot other than `lot` is traced
      one level deeper. */
  method TraceOrigins(lot: string, depth: int, maxDepth: int, lotIndex: Index, prodOrderIndex: Index,
                      visitedLots: set<string>, visitedOrders: set<string>)
    returns (origins: seq<Node>, visitedLots': set<string>, visitedOrders': set<string>)
    requires 0 <= depth <= maxDepth && prodOrderIndex.Valid()
    requires lot in visitedLots && lotIndex.Bucket(lot) != []
    ensures visitedOrders <= visitedOrders'
    ensures Traced(origins, depth, OriginLots(lotIndex, prodOrderIndex, lot), Origin, visitedLots, visitedLots',
                   lotIndex, prodOrderIndex, maxDepth)
    ensures var prodOrder := KeyText(lotIndex.Bucket(lot)[0], "Prod_ Order No_");
            (prodOrder == "" || prodOrder in visitedOrders ==>
               origins == [] && visitedLots' == visitedLots && visitedOrders' == visitedOrders) &&
            (prodOrder != "" ==> prodOrder in visitedOrders') &&
            (prodOrder !in visitedOrders && depth < maxDepth ==>
               AllVisited(OriginLots(lotIndex, prodOrderIndex, lot), lot, visitedLots'))
    ensures Gathered(origins, visitedLots', visitedOrders') ==
            Origins(lot, depth, maxDepth, lotIndex, prodOrderIndex, visitedLots, visitedOrders)
    decreases maxDepth - depth + 1, 2
  {
    origins, visitedLots', visitedOrders' := [], visitedLots, visitedOrders;
    var prodOrder := KeyText(lotIndex.Bucket(lot)[0], "Prod_ Order No_");
    if prodOrder != "" && prodOrder !in visitedOrders {
      visitedOrders' := visitedOrders' + {prodOrder};
      var consumptionRecords := prodOrderIndex.Bucket(prodOrder);
      ghost var allowed := OriginLots(lotIndex, prodOrderIndex, lot);
      for i := 0 to |consumptionRecords|
        invariant visitedOrders <= visitedOrders' && prodOrder in visitedOrders'
        invariant Traced(origins, depth, allowed, Origin, visitedLots, visitedLots', lotIndex, prodOrderIndex, maxDepth)
        invariant depth < maxDepth ==> AllVisited(LotsOfType(consumptionRecords[..i], "Consumption"), lot, visitedLots')
        invariant Origins(lot, depth, maxDepth, lotIndex, prodOrderIndex, visitedLots, visitedOrders) ==
                  Consume(lot, prodOrder, i, depth, maxDepth, lotIndex, prodOrderIndex, origins, visitedLots', visitedOrders')
      {
        LotsOfTypeSnoc(consumptionRecords, "Consumption", i);
        ghost var seen := visitedLots';
        origins, visitedLots', visitedOrders' :=
          FollowConsumption(lot, prodOrder, i, depth, maxDepth, lotIndex, prodOrderIndex, origins, visitedLots,
                            visitedLots', visitedOrders');
        if depth < maxDepth {
          AllVisitedGrow(LotsOfType(consumptionRecords[..i], "Consumption"), lot, seen, visitedLots');
        }
      }
      assert consumptionRecords[..|consumptionRecords|] == consumptionRecords;
    }
  }

  /** One record of the origin branch: a Consumption record with a
      non-empty lot other than `lot` has its lot traced one level deeper;
      any other record changes nothing. */
  method FollowConsumption(lot: string, prodOrder: string, i: int, depth: int, maxDepth: int,
                           lotIndex: Index, prodOrderIndex: Index, origins: seq<Node>, ghost base: set<string>,
                           visitedLots: set<string>, visitedOrders: set<string>)
    returns (origins': seq<Node>, visitedLots': set<string>, visitedOrders': set<string>)
    requires 0 <= depth <= maxDepth && prodOrderIndex.Valid()
    requires lotIndex.Bucket(lot) != [] && prodOrder == KeyText(lotIndex.Bucket(lot)[0], "Prod_ Order No_") != ""
    requires 0 <= i < |prodOrderIndex.Bucket(prodOrder)|
    requires lot in base
    requires Traced(origins, depth, OriginLots(lotIndex, prodOrderIndex, lot), Origin, base, visitedLots,
                    lotIndex, prodOrderIndex, maxDepth)
    ensures visitedOrders <= visitedOrders' && visitedLots <= visitedLots'
    ensures Traced(origins', depth, OriginLots(lotIndex, prodOrderIndex, lot), Origin, base, visitedLots',
                   lotIndex, prodOrderIndex, maxDepth)
    ensures var consRec := prodOrderIndex.Bucket(prodOrder)[i];
            var originLot := KeyText(consRec, "Lot No_");
            if Get(consRec, "Document Type") == Str("Consumption") && originLot != "" && originLot != lot then
              depth < maxDepth ==> originLot in visitedLots'
            else
              origins' == origins && visitedLots' == visitedLots && visitedOrders' == visitedOrders
    ensures Gathered(origins', visitedLots', visitedOrders') ==
            ConsumeOne(lot, prodOrder, i, depth, maxDepth, lotIndex, prodOrderIndex, origins, visitedLots, visitedOrders)
    decreases maxDepth - depth + 1, 1
  {
    origins', visitedLots', visitedOrders' := origins, visitedLots, visitedOrders;
    var consumptionRecords := prodOrderIndex.Bucket(prodOrder);
    var consRec := consumptionRecords[i];
    if Get(consRec, "Document Type") == Str("Consumption") {
      var originLot := KeyText(consRec, "Lot No_");
      if originLot != "" && originLot != lot {
        LotsOfTypeMember(consumptionRecords, "Consumption", originLot);
        origins', visitedLots', visitedOrders' :=
          Descend(originLot, Origin, depth, maxDepth, lotIndex, prodOrderIndex, origins,
                  OriginLots(lotIndex, prodOrderIndex, lot), base, visitedLots, visitedOrders);
      }
    }
  }

  /** The destination branch of `build_node`: every production order not
      yet marked, in index order, is scanned for Consumption records of
      `lot`. `followed` is the set of orders consuming `lot` that were
      scanned here; every other order consuming `lot` is among the marked
      orders. */
  method TraceDestinations(lot: string, depth: int, maxDepth: int, lotIndex: Index, prodOrderIndex: Index,
                           visitedLots: set<string>, visitedOrders: set<string>)
    returns (destinations: seq<Node>, visitedLots': set<string>, visitedOrders': set<string>, ghost followed: set<string>)
    requires 0 <= depth <= maxDepth && prodOrderIndex.Valid()
    requires lot in visitedLots
    ensures visitedOrders <= visitedOrders' && visitedLots <= visitedLots'
    ensures Traced(destinations, depth, DestinationLots(prodOrderIndex, prodOrderIndex.order, lot), Destination,
                   visitedLots, visitedLots', lotIndex, prodOrderIndex, maxDepth)
    ensures followed !! visitedOrders && ScannedAll(lot, prodOrderIndex, followed, visitedOrders')
    ensures depth < maxDepth ==> FollowedVisited(lot, prodOrderIndex, followed, visitedLots')
    ensures Gathered(destinations, visitedLots', visitedOrders') ==
            Destinations(lot, 0, depth, maxDepth, lotIndex, prodOrderIndex, [], visitedLots, visitedOrders)
    decreases maxDepth - depth + 1, 4
  {
    destinations, visitedLots', visitedOrders' := [], visitedLots, visitedOrders;
    followed := {};
    for i := 0 to |prodOrderIndex.order|
      invariant visitedOrders <= visitedOrders' && visitedLots <= visitedLots'
      invariant Traced(destinations, depth, DestinationLots(prodOrderIndex, prodOrderIndex.order, lot), Destination,
                       visitedLots, visitedLots', lotIndex, prodOrderIndex, maxDepth)
      invariant followed !! visitedOrders && Consumers(lot, prodOrderIndex, followed)
      invariant Scanned(lot, prodOrderIndex, i, followed, visitedOrders')
      invariant depth < maxDepth ==> FollowedVisited(lot, prodOrderIndex, followed, visitedLots')
      invariant Destinations(lot, 0, depth, maxDepth, lotIndex, prodOrderIndex, [], visitedLots, visitedOrders) ==
                Destinations(lot, i, depth, maxDepth, lotIndex, prodOrderIndex, destinations, visitedLots', visitedOrders')
    {
      var prodOrder := prodOrderIndex.order[i];
      ghost var followed0, orders0 := followed, visitedOrders';
      if prodOrder !in visitedOrders' {
        ghost var seen := visitedLots';
        destinations, visitedLots', visitedOrders' :=
          ScanOrder(lot, i, depth, maxDepth, lotIndex, prodOrderIndex, destinations, visitedLots, visitedLots', visitedOrders');
        if depth < maxDepth {
          FollowedVisitedGrow(lot, prodOrderIndex, followed, seen, visitedLots');
        }
        if lot in LotsOfType(prodOrderIndex.Bucket(prodOrder), "Consumption") {
          followed := followed + {prodOrder};
        }
      }
      ScannedStep(lot, prodOrderIndex, i, followed0, followed, orders0, visitedOrders');
    }
  }

  /** One production order of the destination branch: for every
      Consumption record of `lot` in it, the order's outputs are traced. */
  method ScanOrder(lot: string, i: int, depth: int, maxDepth: int, lotIndex: Index, prodOrderIndex: Index,
                   destinations: seq<Node>, ghost base: set<string>,
                   visitedLots: set<string>, visitedOrders: set<string>)
    returns (destinations': seq<Node>, visitedLots': set<string>, visitedOrders': set<string>)
    requires 0 <= depth <= maxDepth && prodOrderIndex.Valid() && 0 <= i < |prodOrderIndex.order|
    requires lot in base
    requires Traced(destinations, depth, DestinationLots(prodOrderIndex, prodOrderIndex.order, lot), Destination,
                    base, visitedLots, lotIndex, prodOrderIndex, maxDepth)
    ensures visitedOrders <= visitedOrders' && visitedLots <= visitedLots'
    ensures Traced(destinations', depth, DestinationLots(prodOrderIndex, prodOrderIndex.order, lot), Destination,
                   base, visitedLots', lotIndex, prodOrderIndex, maxDepth)
    ensures depth < maxDepth && lot in LotsOfType(prodOrderIndex.Bucket(prodOrderIndex.order[i]), "Consumption") ==>
              AllVisited(LotsOfType(prodOrderIndex.Bucket(prodOrderIndex.order[i]), "Output"), lot, visitedLots')
    ensures Gathered(destinations', visitedLots', visitedOrders') ==
            Scan(lot, i, 0, depth, maxDepth, lotIndex, prodOrderIndex, destinations, visitedLots, visitedOrders)
    decreases maxDepth - depth + 1, 3
  {
    destinations', visitedLots', visitedOrders' := destinations, visitedLots, visitedOrders;
    var prodRecords := prodOrderIndex.buckets[prodOrderIndex.order[i]];
    ghost var outputs := LotsOfType(prodRecords, "Output");
    ghost var consumed := false;
    for j := 0 to |prodRecords|
      invariant visitedOrders <= visitedOrders' && visitedLots <= visitedLots'
      invariant Traced(destinations', depth, DestinationLots(prodOrderIndex, prodOrderIndex.order, lot), Destination,
                       base, visitedLots', lotIndex, prodOrderIndex, maxDepth)
      invariant consumed && depth < maxDepth ==> AllVisited(outputs, lot, visitedLots')
      invariant !consumed ==> lot !in LotsOfType(prodRecords[..j], "Consumption")
      invariant Scan(lot, i, 0, depth, maxDepth, lotIndex, prodOrderIndex, destinations, visitedLots, visitedOrders) ==
                Scan(lot, i, j, depth, maxDepth, lotIndex, prodOrderIndex, destinations', visitedLots', visitedOrders')
    {
      LotsOfTypeSnoc(prodRecords, "Consumption", j);
      ghost var seen, before := visitedLots', consumed;
      var prodRec := prodRecords[j];
      if Get(prodRec, "Document Type") == Str("Consumption") {
        var consLot := KeyText(prodRec, "Lot No_");
        if consLot == lot {
          LotsOfTypeMember(prodRecords, "Consumption", lot);
          destinations', visitedLots', visitedOrders' :=
            TraceOutputs(lot, i, depth, maxDepth, lotIndex, prodOrderIndex, destinations', base, visitedLots', visitedOrders');
          consumed := true;
        }
      }
      if before && depth < maxDepth {
        AllVisitedGrow(outputs, lot, seen, visitedLots');
      }
    }
    assert prodRecords[..|prodRecords|] == prodRecords;
  }

  /** The innermost loop of the destination branch: each Output record of
      an order that consumed `lot` is handed to `FollowOutput`. */
  method TraceOutputs(lot: string, i: int, depth: int, maxDepth: int, lotIndex: Index, prodOrderIndex: Index,
                      destinations: seq<Node>, ghost base: set<string>,
                      visitedLots: set<string>, visitedOrders: set<string>)
    returns (destinations': seq<Node>, visitedLots': set<string>, visitedOrders': set<string>)
    requires 0 <= depth <= maxDepth && prodOrderIndex.Valid() && 0 <= i < |prodOrderIndex.order|
    requires lot in base
    requires lot in LotsOfType(prodOrderIndex.Bucket(prodOrderIndex.order[i]), "Consumption")
    requires Traced(destinations, depth, DestinationLots(prodOrderIndex, prodOrderIndex.order, lot), Destination,
                    base, visitedLots, lotIndex, prodOrderIndex, maxDepth)
    ensures visitedOrders <= visitedOrders' && visitedLots <= visitedLots'
    ensures Traced(destinations', depth, DestinationLots(prodOrderIndex, prodOrderIndex.order, lot), Destination,
                   base, visitedLots', lotIndex, prodOrderIndex, maxDepth)
    ensures depth < maxDepth ==>
              AllVisited(LotsOfType(prodOrderIndex.Bucket(prodOrderIndex.order[i]), "Output"), lot, visitedLots')
    ensures prodOrderIndex.order[i] in visitedOrders' ||
            (destinations' == destinations && visitedLots' == visitedLots && visitedOrders' == visitedOrders)
    ensures Gathered(destinations', visitedLots', visitedOrders') ==
            Outputs(lot, i, 0, depth, maxDepth, lotIndex, prodOrderIndex, destinations, visitedLots, visitedOrders)
    decreases maxDepth - depth + 1, 2
  {
    destinations', visitedLots', visitedOrders' := destinations, visitedLots, visitedOrders;
    var prodRecords := prodOrderIndex.buckets[prodOrderIndex.order[i]];
    for m := 0 to |prodRecords|
      invariant visitedOrders <= visitedOrders' && visitedLots <= visitedLots'
      invariant Traced(destinations', depth, DestinationLots(prodOrderIndex, prodOrderIndex.order, lot), Destination,
                       base, visitedLots', lotIndex, prodOrderIndex, maxDepth)
      invariant depth < maxDepth ==> AllVisited(LotsOfType(prodRecords[..m], "Output"), lot, visitedLots')
      invariant prodOrderIndex.order[i] in visitedOrders' ||
                (destinations' == destinations && visitedLots' == visitedLots && visitedOrders' == visitedOrders)
      invariant Outputs(lot, i, 0, depth, maxDepth, lotIndex, prodOrderIndex, destinations, visitedLots, visitedOrders) ==
                Outputs(lot, i, m, depth, maxDepth, lotIndex, prodOrderIndex, destinations', visitedLots', visitedOrders')
    {
      LotsOfTypeSnoc(prodRecords, "Output", m);
      ghost var seen := visitedLots';
      destinations', visitedLots', visitedOrders' :=
        FollowOutput(lot, i, m, depth, maxDepth, lotIndex, prodOrderIndex, destinations', base, visitedLots', visitedOrders');
      if depth < maxDepth {
        AllVisitedGrow(LotsOfType(prodRecords[..m], "Output"), lot, seen, visitedLots');
      }
    }
    assert prodRecords[..|prodRecords|] == prodRecords;
  }

  /** One record of the innermost loop: an Output record with a non-empty
      lot other than `lot` marks the order followed and has its lot traced
      one level deeper; any other record changes nothing. */
  method FollowOutput(lot: string, i: int, m: int, depth: int, maxDepth: int, lotIndex: Index, prodOrderIndex: Index,
                      destinations: seq<Node>, ghost base: set<string>,
                      visitedLots: set<string>, visitedOrders: set<string>)
    returns (destinations': seq<Node>, visitedLots': set<string>, visitedOrders': set<string>)
    requires 0 <= depth <= maxDepth && prodOrderIndex.Valid() && 0 <= i < |prodOrderIndex.order|
    requires 0 <= m < |prodOrderIndex.Bucket(prodOrderIndex.order[i])|
    requires lot in base
    requires lot in LotsOfType(prodOrderIndex.Bucket(prodOrderIndex.order[i]), "Consumption")
    requires Traced(destinations, depth, DestinationLots(prodOrderIndex, prodOrderIndex.order, lot), Destination,
                    base, visitedLots, lotIndex, prodOrderIndex, maxDepth)
    ensures visitedOrders <= visitedOrders' && visitedLots <= visitedLots'
    ensures Traced(destinations', depth, DestinationLots(prodOrderIndex, prodOrderIndex.order, lot), Destination,
                   base, visitedLots', lotIndex, prodOrderIndex, maxDepth)
    ensures var outputRec := prodOrderIndex.Bucket(prodOrderIndex.order[i])[m];
            var destLot := KeyText(outputRec, "Lot No_");
            if Get(outputRec, "Document Type") == Str("Output") && destLot != "" && destLot != lot then
              prodOrderIndex.order[i] in visitedOrders' && (depth < maxDepth ==> destLot in visitedLots')
            else
              destinations' == destinations && visitedLots' == visitedLots && visitedOrders' == visitedOrders
    ensures Gathered(destinations', visitedLots', visitedOrders') ==
            OutputOne(lot, i, m, depth, maxDepth, lotIndex, prodOrderIndex, destinations, visitedLots, visitedOrders)
    decreases maxDepth - depth + 1, 1
  {
    destinations', visitedLots', visitedOrders' := destinations, visitedLots, visitedOrders;
    var prodOrder := prodOrderIndex.order[i];
    var prodRecords := prodOrderIndex.buckets[prodOrder];
    var outputRec := prodRecords[m];
    if Get(outputRec, "Document Type") == Str("Output") {
      var destLot := KeyText(outputRec, "Lot No_");
      if destLot != "" && destLot != lot {
        LotsOfTypeMember(prodRecords, "Output", destLot);
        DestinationLotsMember(prodOrderIndex, prodOrderIndex.order, lot, destLot);
        destinations', visitedLots', visitedOrders' :=
          Descend(destLot, Destination, depth, maxDepth, lotIndex, prodOrderIndex, destinations,
                  DestinationLots(prodOrderIndex, prodOrderIndex.order, lot), base, visitedLots, visitedOrders + {prodOrder});
      }
    }
  }

  /** One child of either branch: `build_node(child, depth + 1, dir)`, whose
      node, if any, is attached to the children gathered so far. */
  method Descend(child: string, dir: Direction, depth: int, maxDepth: int, lotIndex: Index, prodOrderIndex: Index,
                 cs: seq<Node>, ghost allowed: seq<string>, ghost base: set<string>,
                 visitedLots: set<string>, visitedOrders: set<string>)
    returns (cs': seq<Node>, visitedLots': set<string>, visitedOrders': set<string>)
    requires 0 <= depth <= maxDepth && prodOrderIndex.Valid()
    requires child != "" && child in allowed
    requires Traced(cs, depth, allowed, dir, base, visitedLots, lotIndex, prodOrderIndex, maxDepth)
    ensures visitedOrders <= visitedOrders' && visitedLots <= visitedLots'
    ensures Traced(cs', depth, allowed, dir, base, visitedLots', lotIndex, prodOrderIndex, maxDepth)
    ensures depth < maxDepth ==> child in visitedLots'
    ensures var b := Trace(child, depth + 1, dir, maxDepth, lotIndex, prodOrderIndex, visitedLots, visitedOrders);
            cs' == cs + (if b.node.Some? then [b.node.value] else []) && visitedLots' == b.lots && visitedOrders' == b.orders
    decreases maxDepth - depth + 1, 0
  {
    var node;
    ghost var followed;
    node, visitedLots', visitedOrders', followed :=
      BuildNode(child, depth + 1, dir, maxDepth, lotIndex, prodOrderIndex, visitedLots, visitedOrders);
    AppendChild(cs, node, depth, allowed, dir, base, visitedLots, visitedLots', lotIndex, prodOrderIndex, maxDepth);
    cs' := cs + (if node.Some? then [node.value] else []);
  }
}
