/** The node dictionaries `trace_lot_origin` builds
    (fabric-lineage-tracker-fixed.py:58-206), and what every traced tree
    satisfies: stubs where the trace was cut off, and expanded nodes whose
    process types, details and children follow from the lot's records. */
module FabricTree {
  import opened Records
  import opened FabricTable

  const MaxDepthWarning := "Max depth reached"
  const AlreadyVisitedWarning := "Already visited"
  const ConsumedLabel := "Consumed to produce this lot"
  const ProducedLabel := "Produced by consuming this lot"
  const TransferredToLabel := "Transferred to"
  const TransferredFromLabel := "Transferred from"

  /** One node. A stub carries a warning; an expanded node does not.
      `isOrigin` stands for the presence of the `is_origin` key, and
      `relationship` is set by the parent once the child is returned. */
  datatype FabricNode = FabricNode(lotNo: Value, warning: Option<string>, processTypes: set<string>,
                                   sources: seq<FabricNode>, destinations: seq<FabricNode>,
                                   details: Details, isOrigin: bool, relationship: Option<string>)

  /** `child['relationship'] = rel` */
  function Labelled(n: FabricNode, rel: string): (r: FabricNode)
    ensures r.lotNo == n.lotNo && r.relationship == Some(rel)
  {
    n.(relationship := Some(rel))
  }

  /** The lot numbers of a list of nodes, in order. */
  function LotsOf(ns: seq<FabricNode>): (r: seq<Value>)
    ensures |r| == |ns|
  {
    if ns == [] then [] else LotsOf(ns[..|ns| - 1]) + [ns[|ns| - 1].lotNo]
  }

  lemma {:induction false} LotsOfConcat(a: seq<FabricNode>, b: seq<FabricNode>)
    ensures LotsOf(a + b) == LotsOf(a) + LotsOf(b)
  {
    if b == [] {
      assert a + b == a;
    } else {
      assert (a + b)[..|a + b| - 1] == a + b[..|b| - 1];
      LotsOfConcat(a, b[..|b| - 1]);
    }
  }

  /** The lot numbers after one more child. */
  lemma LotsOfAppend(ns: seq<FabricNode>, n: FabricNode)
    ensures LotsOf(ns + [n]) == LotsOf(ns) + [n.lotNo]
  {
    assert (ns + [n])[..|ns|] == ns;
  }

  // ---------------------------------------------------------------------
  // Expanded lots

  /** What a tree adds up to: the lots it expands (its nodes without a
      warning), how many expanded nodes it has, and the lots of its stubs
      warned `Already visited`. */
  datatype Tally = Tally(expanded: set<Value>, count: nat, revisited: set<Value>)

  const NoTally := Tally({}, 0, {})

  function Plus(a: Tally, b: Tally): Tally {
    Tally(a.expanded + b.expanded, a.count + b.count, a.revisited + b.revisited)
  }

  function TreeTally(n: FabricNode): Tally
    decreases n, 1
  {
    if n.warning == Some(AlreadyVisitedWarning) then Tally({}, 0, {n.lotNo})
    else if n.warning.Some? then NoTally
    else
      var kids := Plus(ForestTally(n.sources), ForestTally(n.destinations));
      Tally({n.lotNo} + kids.expanded, 1 + kids.count, kids.revisited)
  }

  function ForestTally(ns: seq<FabricNode>): Tally
    decreases ns, 0
  {
    if ns == [] then NoTally else Plus(ForestTally(ns[..|ns| - 1]), TreeTally(ns[|ns| - 1]))
  }

  /** Tracing from visited set `before` to `after` added the lots the
      tally expanded, and as many new lots as it has expanded nodes (so
      from an empty set, no lot is expanded twice); every lot it shows as
      already visited is visited by the end. */
  ghost predicate Adds(t: Tally, before: set<Value>, after: set<Value>) {
    after == before + t.expanded && |after| == |before| + t.count && t.revisited <= after
  }

  /** The children `ns` were traced one after another from `before` to `after`. */
  ghost predicate Fresh(ns: seq<FabricNode>, before: set<Value>, after: set<Value>) {
    Adds(ForestTally(ns), before, after)
  }

  /** Two lists of children were traced interleaved, from `before` to
      `after`: together they tally as one list. */
  ghost predicate FreshPair(a: seq<FabricNode>, b: seq<FabricNode>, before: set<Value>, after: set<Value>) {
    Fresh(a + b, before, after)
  }

  /** The tally of a concatenation adds those of its parts. */
  lemma {:induction false} ForestConcat(a: seq<FabricNode>, b: seq<FabricNode>)
    ensures ForestTally(a + b) == Plus(ForestTally(a), ForestTally(b))
  {
    if b == [] {
      assert a + b == a;
    } else {
      var init := b[..|b| - 1];
      assert (a + b)[..|a + b| - 1] == a + init;
      assert (a + b)[|a + b| - 1] == b[|b| - 1];
      ForestConcat(a, init);
    }
  }

  /** One tree as a forest. */
  lemma Single(n: FabricNode)
    ensures ForestTally([n]) == TreeTally(n)
  {
    assert [n][..0] == [];
  }

  // Set identities, stated for any element type so that the solver does
  // not reason about them with the lot values in view.

  lemma DisjointCard<T>(a: set<T>, b: set<T>)
    requires a !! b
    ensures |a + b| == |a| + |b|
  {
    assert a * b == {};
  }

  lemma UnionEmpty<T>(s: set<T>)
    ensures s + {} == s
  {
  }

  lemma UnionAssoc<T>(a: set<T>, b: set<T>, c: set<T>)
    ensures a + b + c == a + (b + c)
  {
  }

  lemma UnionRotate<T>(a: set<T>, b: set<T>, c: set<T>)
    ensures a + b + c == a + c + b
  {
  }

  lemma UnionSwap<T>(a: set<T>, b: set<T>, c: set<T>, d: set<T>)
    ensures a + b + (c + d) == a + c + (b + d)
  {
  }

  /** Tracing one thing after another. */
  lemma AddsPlus(t: Tally, u: Tally, v0: set<Value>, v1: set<Value>, v2: set<Value>)
    requires Adds(t, v0, v1) && Adds(u, v1, v2)
    ensures Adds(Plus(t, u), v0, v2)
  {
    UnionAssoc(v0, t.expanded, u.expanded);
  }

  /** Tracing one group of children after another. */
  lemma FreshConcat(a: seq<FabricNode>, b: seq<FabricNode>, v0: set<Value>, v1: set<Value>, v2: set<Value>)
    requires Fresh(a, v0, v1) && Fresh(b, v1, v2)
    ensures Fresh(a + b, v0, v2)
  {
    ForestConcat(a, b);
    AddsPlus(ForestTally(a), ForestTally(b), v0, v1, v2);
  }

  /** Adding tallies in another grouping gives the same tally. */
  lemma PlusRegroup(a: Tally, b: Tally, c: Tally, d: Tally)
    ensures Plus(Plus(a, b), Plus(c, d)) == Plus(Plus(a, c), Plus(b, d))
  {
    UnionSwap(a.expanded, b.expanded, c.expanded, d.expanded);
    UnionSwap(a.revisited, b.revisited, c.revisited, d.revisited);
  }

  /** Nothing traced yet. */
  lemma FreshPairEmpty(a: seq<FabricNode>, b: seq<FabricNode>, v: set<Value>)
    requires a == [] && b == []
    ensures FreshPair(a, b, v, v)
  {
    assert a + b == [];
    assert ForestTally([]) == NoTally;
    UnionEmpty(v);
  }

  /** One more child traced into the second list. */
  lemma FreshPairAppend(a: seq<FabricNode>, b: seq<FabricNode>, child: FabricNode, rel: string,
                        v0: set<Value>, v1: set<Value>, v2: set<Value>)
    requires FreshPair(a, b, v0, v1) && Fresh([child], v1, v2)
    ensures FreshPair(a, b + [Labelled(child, rel)], v0, v2)
  {
    var c := [Labelled(child, rel)];
    LabelledTally(child, rel);
    FreshConcat(a + b, c, v0, v1, v2);
    assert a + (b + c) == a + b + c;
  }

  /** More children traced into the first list. */
  lemma FreshPairConcat(a: seq<FabricNode>, b: seq<FabricNode>, more: seq<FabricNode>,
                        v0: set<Value>, v1: set<Value>, v2: set<Value>)
    requires FreshPair(a, b, v0, v1) && Fresh(more, v1, v2)
    ensures FreshPair(a + more, b, v0, v2)
  {
    FreshConcat(a + b, more, v0, v1, v2);
    ForestConcat(a + b, more);
    ForestConcat(a, b);
    ForestConcat(a + more, b);
    ForestConcat(a, more);
    var ta, tb, tm := ForestTally(a), ForestTally(b), ForestTally(more);
    assert Plus(Plus(ta, tb), tm) == Plus(Plus(ta, tm), tb) by {
      UnionRotate(ta.expanded, tb.expanded, tm.expanded);
      UnionRotate(ta.revisited, tb.revisited, tm.revisited);
    }
  }

  /** The visited set after an expanded node: its own lot, then its
      children's expanded lots. */
  lemma FreshNode(n: FabricNode, visited: set<Value>, after: set<Value>)
    requires n.warning.None? && n.lotNo !in visited
    requires FreshPair(n.sources, n.destinations, visited + {n.lotNo}, after)
    ensures Fresh([n], visited, after) && n.lotNo in after
  {
    Single(n);
    ForestConcat(n.sources, n.destinations);
    var kids := Plus(ForestTally(n.sources), ForestTally(n.destinations));
    DisjointCard(visited, {n.lotNo});
    UnionAssoc(visited, {n.lotNo}, kids.expanded);
  }

  /** A relationship label changes nothing the visited set looks at. */
  lemma LabelledTally(n: FabricNode, rel: string)
    ensures ForestTally([Labelled(n, rel)]) == ForestTally([n])
  {
    Single(n);
    Single(Labelled(n, rel));
  }

  // ---------------------------------------------------------------------
  // What a traced tree satisfies

  /** A cut-off node: the warning says why (the depth bound wins over an
      earlier visit), the process types are still looked up, and there
      are no children and no details. */
  ghost predicate Stub(n: FabricNode, depth: int, maxDepth: int, production: seq<Record>) {
    n.warning == Some(if depth >= maxDepth then MaxDepthWarning else AlreadyVisitedWarning) &&
    n.processTypes == ProcessTypes(Where(production, "Lot No_", n.lotNo)) &&
    n.sources == [] && n.destinations == [] && n.details == NoDetails && !n.isOrigin
  }

  /** Every node of the list carries the relationship `rel`. */
  predicate AllLabelled(ns: seq<FabricNode>, rel: string) {
    ns == [] || (AllLabelled(ns[..|ns| - 1], rel) && ns[|ns| - 1].relationship == Some(rel))
  }

  lemma {:induction false} AllLabelledConcat(a: seq<FabricNode>, b: seq<FabricNode>, rel: string)
    requires AllLabelled(a, rel) && AllLabelled(b, rel)
    ensures AllLabelled(a + b, rel)
  {
    if b != [] {
      assert (a + b)[..|a + b| - 1] == a + b[..|b| - 1];
      AllLabelledConcat(a, b[..|b| - 1], rel);
    } else {
      assert a + b == a;
    }
  }

  /** A list of children made of one block labelled `firstLabel` whose
      lots are the multiset `first` (traced in an unspecified order),
      followed by a block labelled `restLabel` whose lots are `rest`. */
  ghost predicate Blocks(ns: seq<FabricNode>, first: multiset<Value>, firstLabel: string,
                         rest: seq<Value>, restLabel: string) {
    |ns| == |first| + |rest| &&
    multiset(LotsOf(ns[..|first|])) == first && LotsOf(ns[|first|..]) == rest &&
    AllLabelled(ns[..|first|], firstLabel) && AllLabelled(ns[|first|..], restLabel)
  }

  /** An expanded node as its lot's records determine it: process types,
      details and `is_origin`; as sources, the consumption lots of its
      output orders, then the lots transferred into it; as destinations,
      the output lots of its consumption orders, then the lots it was
      transferred to. A lot without records gets `Not Found`, no details
      and no children. */
  ghost predicate Fits(n: FabricNode, production: seq<Record>) {
    var records := Where(production, "Lot No_", n.lotNo);
    var transfers := Group(records, Str("Transfer"));
    n.processTypes == ProcessTypes(records) &&
    n.details == DetailsOf(records) &&
    n.isOrigin == (Group(records, Str("Purchase")) != []) &&
    Blocks(n.sources, ExpectedChildren(production, Group(records, Str("Output")), "Consumption", n.lotNo),
           ConsumedLabel, TransferredFrom(production, transfers, n.lotNo), TransferredFromLabel) &&
    Blocks(n.destinations, ExpectedChildren(production, Group(records, Str("Consumption")), "Output", n.lotNo),
           ProducedLabel, TransferredTo(transfers, n.lotNo), TransferredToLabel)
  }

  /** A tree traced at `depth` under bound `maxDepth`: stubs are cut-off
      nodes, expanded nodes lie above the bound and fit their records,
      and no child carries its parent's lot. */
  ghost predicate Sound(n: FabricNode, depth: int, maxDepth: int, production: seq<Record>)
    decreases n, 2
  {
    if n.warning.Some? then Stub(n, depth, maxDepth, production)
    else depth < maxDepth && Expanded(n, depth, maxDepth, production)
  }

  /** An expanded node that fits its records and whose children, one
      level deeper, are sound and do not carry its lot. */
  ghost predicate Expanded(n: FabricNode, depth: int, maxDepth: int, production: seq<Record>)
    decreases n, 1
  {
    Fits(n, production) &&
    KidsSound(n.sources, n.lotNo, depth + 1, maxDepth, production) &&
    KidsSound(n.destinations, n.lotNo, depth + 1, maxDepth, production)
  }

  ghost predicate KidsSound(ns: seq<FabricNode>, parent: Value, depth: int, maxDepth: int, production: seq<Record>)
    decreases ns, 0
  {
    ns == [] ||
    (KidsSound(ns[..|ns| - 1], parent, depth, maxDepth, production) &&
     ns[|ns| - 1].lotNo != parent && Sound(ns[|ns| - 1], depth, maxDepth, production))
  }

  /** Two lists of sound children of the same parent make one. */
  lemma {:induction false} KidsConcat(a: seq<FabricNode>, b: seq<FabricNode>, parent: Value, depth: int,
                                      maxDepth: int, production: seq<Record>)
    requires KidsSound(a, parent, depth, maxDepth, production)
    requires KidsSound(b, parent, depth, maxDepth, production)
    ensures KidsSound(a + b, parent, depth, maxDepth, production)
  {
    if b != [] {
      assert (a + b)[..|a + b| - 1] == a + b[..|b| - 1];
      KidsConcat(a, b[..|b| - 1], parent, depth, maxDepth, production);
    } else {
      assert a + b == a;
    }
  }

  /** A sound child, labelled `rel` and appended to its sound siblings
      labelled `rel`. */
  lemma KidsAppend(children: seq<FabricNode>, child: FabricNode, rel: string, parent: Value, depth: int,
                   maxDepth: int, production: seq<Record>)
    requires KidsSound(children, parent, depth, maxDepth, production) && AllLabelled(children, rel)
    requires Sound(child, depth, maxDepth, production) && child.lotNo != parent
    ensures KidsSound(children + [Labelled(child, rel)], parent, depth, maxDepth, production)
    ensures AllLabelled(children + [Labelled(child, rel)], rel)
    ensures LotsOf(children + [Labelled(child, rel)]) == LotsOf(children) + [child.lotNo]
  {
    assert Sound(Labelled(child, rel), depth, maxDepth, production) == Sound(child, depth, maxDepth, production);
    assert (children + [Labelled(child, rel)])[..|children|] == children;
  }

  /** A child traced after its siblings, labelled and appended to them. */
  lemma FreshAppend(children: seq<FabricNode>, child: FabricNode, rel: string,
                    v0: set<Value>, v1: set<Value>, v2: set<Value>)
    requires Fresh(children, v0, v1) && Fresh([child], v1, v2)
    ensures Fresh(children + [Labelled(child, rel)], v0, v2)
  {
    LabelledTally(child, rel);
    FreshConcat(children, [Labelled(child, rel)], v0, v1, v2);
  }

  /** A first block and a second block, each labelled, make `Blocks`. */
  lemma BlocksConcat(first: seq<FabricNode>, m: multiset<Value>, firstLabel: string,
                     rest: seq<FabricNode>, r: seq<Value>, restLabel: string)
    requires multiset(LotsOf(first)) == m && AllLabelled(first, firstLabel)
    requires LotsOf(rest) == r && AllLabelled(rest, restLabel)
    ensures Blocks(first + rest, m, firstLabel, r, restLabel)
  {
    assert |m| == |LotsOf(first)| == |first|;
    assert (first + rest)[..|first|] == first;
    assert (first + rest)[|first|..] == rest;
  }

  // ---------------------------------------------------------------------
  // Height

  /** Levels of a tree: 1 for a node without children. */
  function Height(n: FabricNode): nat
    decreases n, 1
  {
    1 + Max(ForestHeight(n.sources), ForestHeight(n.destinations))
  }

  function ForestHeight(ns: seq<FabricNode>): nat
    decreases ns, 0
  {
    if ns == [] then 0 else Max(ForestHeight(ns[..|ns| - 1]), Height(ns[|ns| - 1]))
  }

  function Max(a: nat, b: nat): nat {
    if a < b then b else a
  }

  /** Every call is one level deeper and nothing is expanded at the bound,
      so a tree traced from `depth` has at most `maxDepth - depth + 1`
      levels (one, a stub, when the bound is already reached). */
  lemma {:induction false} SoundHeight(n: FabricNode, depth: int, maxDepth: int, production: seq<Record>)
    requires Sound(n, depth, maxDepth, production)
    ensures Height(n) <= if depth < maxDepth then maxDepth - depth + 1 else 1
    decreases n, 2
  {
    if n.warning.None? {
      ExpandedHeight(n, depth, maxDepth, production);
    } else {
      assert ForestHeight(n.sources) == 0 && ForestHeight(n.destinations) == 0;
    }
  }

  lemma {:induction false} ExpandedHeight(n: FabricNode, depth: int, maxDepth: int, production: seq<Record>)
    requires depth < maxDepth && Expanded(n, depth, maxDepth, production)
    ensures Height(n) <= maxDepth - depth + 1
    decreases n, 1
  {
    KidsHeight(n.sources, n.lotNo, depth + 1, maxDepth, production);
    KidsHeight(n.destinations, n.lotNo, depth + 1, maxDepth, production);
  }

  lemma {:induction false} KidsHeight(ns: seq<FabricNode>, parent: Value, depth: int, maxDepth: int,
                                      production: seq<Record>)
    requires KidsSound(ns, parent, depth, maxDepth, production)
    ensures ForestHeight(ns) <= if depth < maxDepth then maxDepth - depth + 1 else 1
    decreases ns, 0
  {
    if ns != [] {
      KidsHeight(ns[..|ns| - 1], parent, depth, maxDepth, production);
      SoundHeight(ns[|ns| - 1], depth, maxDepth, production);
    }
  }
}
