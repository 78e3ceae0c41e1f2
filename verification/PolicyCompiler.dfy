/** Compiling the lane graph into market policies, whole or split by operation, and choosing a packing. */
module PolicyCompiler {
  import opened Wrappers
  import opened Seqs
  import Sets
  import opened PolicyCatalog

  // ----- When a policy compiles -----

  /** All eleven lanes and nothing else. */
  predicate Complete(graph: Graph) {
    |graph| == 11 && forall lane :: lane in Lanes() ==> lane in graph
  }

  /** The graph names one layout for the operation on the lane. */
  predicate NamedOnce(graph: Graph, lane: Lane, op: Operation) {
    lane in graph && Count(graph[lane].layouts, op) == 1
  }

  /** The operations are some, each once, and every lane of the market names each of them once. */
  predicate Compiles(market: Market, operations: seq<Operation>, graph: Graph) {
    && operations != [] && Distinct(operations) && Complete(graph)
    && forall lane, op :: lane in Lanes() && lane.market == market && op in operations ==> NamedOnce(graph, lane, op)
  }

  /** The two checks the compiler makes on a lane. */
  predicate LaneChecks(layouts: seq<Choice>, operations: seq<Operation>) {
    |Selected(layouts, Elements(operations))| == |operations| && NoRepeat(Selected(layouts, Elements(operations)))
  }

  /** A count check and a duplicate check leave each operation exactly one layout. */
  lemma ChecksNameOnce(layouts: seq<Choice>, operations: seq<Operation>)
    requires Distinct(operations)
    ensures LaneChecks(layouts, operations) <==> forall op :: op in operations ==> Count(layouts, op) == 1
  {
    hide Selected, Count, NoRepeat, Distinct;
    var ops := Elements(operations);
    DistinctCard(operations);
    SelectedSize(layouts, ops);
    OperationsSize(ops);
    NoRepeatIsCount(layouts, ops);
    assert forall op :: op in operations <==> op in ops;
    if LaneChecks(layouts, operations) {
      OnesAddUp(layouts, ops);
    }
  }

  lemma OnesAddUp(layouts: seq<Choice>, ops: set<Operation>)
    requires forall op :: op in ops ==> Count(layouts, op) <= 1
    requires One(ops, layouts, Deposit) + One(ops, layouts, Withdraw) + One(ops, layouts, Borrow) + One(ops, layouts, Repay)
          == InSet(ops, Deposit) + InSet(ops, Withdraw) + InSet(ops, Borrow) + InSet(ops, Repay)
    ensures forall op :: op in ops ==> Count(layouts, op) == 1
  {
    hide Count;
    forall op | op in ops ensures Count(layouts, op) == 1 {
      match op { case Deposit => case Withdraw => case Borrow => case Repay => }
    }
  }

  // ----- What a policy is made of -----

  /** A layout of a lane, from which one constraint is made. */
  datatype Entry = Entry(lane: Lane, choice: Choice)

  function LaneEntries(lane: Lane, chosen: seq<Choice>): seq<Entry> {
    seq(|chosen|, i requires 0 <= i < |chosen| => Entry(lane, chosen[i]))
  }

  function Entries(lanes: seq<Lane>, market: Market, ops: set<Operation>, graph: Graph): seq<Entry>
    requires forall lane :: lane in lanes ==> lane in graph
  {
    if lanes == [] then []
    else
      var last := lanes[|lanes| - 1];
      Entries(lanes[..|lanes| - 1], market, ops, graph)
      + if last.market == market then LaneEntries(last, Selected(graph[last].layouts, ops)) else []
  }

  function ConstraintsOf(entries: seq<Entry>, graph: Graph): seq<Constraint>
    requires forall e :: e in entries ==> e.lane in graph
  {
    seq(|entries|, i requires 0 <= i < |entries| =>
        assert entries[i] in entries; ConstraintOf(graph[entries[i].lane].accounts, entries[i].choice.layout))
  }

  lemma {:induction false} EntryMembers(lanes: seq<Lane>, market: Market, ops: set<Operation>, graph: Graph, e: Entry)
    requires forall lane :: lane in lanes ==> lane in graph
    ensures e in Entries(lanes, market, ops, graph) <==>
      && e.lane in lanes && e.lane.market == market
      && e.choice in graph[e.lane].layouts && e.choice.operation in ops
  {
    if lanes != [] {
      var init, last := lanes[..|lanes| - 1], lanes[|lanes| - 1];
      EntryMembers(init, market, ops, graph, e);
      LaneEntryMembers(last, Selected(graph[last].layouts, ops), e);
      SelectedMembers(graph[last].layouts, ops, e.choice);
      assert lanes == init + [last];
    }
  }

  lemma LaneEntryMembers(lane: Lane, chosen: seq<Choice>, e: Entry)
    ensures e in LaneEntries(lane, chosen) <==> e.lane == lane && e.choice in chosen
  {
    if e.lane == lane && e.choice in chosen {
      var i :| 0 <= i < |chosen| && chosen[i] == e.choice;
      assert LaneEntries(lane, chosen)[i] == e;
    }
  }

  /** The policy of a market for some operations. */
  function Policy(market: Market, operations: seq<Operation>, graph: Graph): seq<Constraint>
    requires Complete(graph)
  {
    var entries := Entries(Lanes(), market, Elements(operations), graph);
    EntriesInGraph(market, Elements(operations), graph);
    ConstraintsOf(entries, graph)
  }

  lemma EntriesInGraph(market: Market, ops: set<Operation>, graph: Graph)
    requires Complete(graph)
    ensures forall e :: e in Entries(Lanes(), market, ops, graph) ==> e.lane in graph
  {
    forall e | e in Entries(Lanes(), market, ops, graph) ensures e.lane in graph {
      EntryMembers(Lanes(), market, ops, graph, e);
    }
  }

  // ----- What a policy permits -----

  /** The instruction is one of these operations, on one lane of the market, with exactly that lane's accounts. */
  ghost predicate Allowed(market: Market, operations: seq<Operation>, graph: Graph, ix: Instruction)
    requires Complete(graph)
  {
    exists lane, choice :: lane in Lanes() && lane.market == market && choice in graph[lane].layouts
      && choice.operation in operations && Exact(graph[lane].accounts, choice.layout, ix)
  }

  lemma PolicyPermitsExactly(market: Market, operations: seq<Operation>, graph: Graph, ix: Instruction)
    requires Complete(graph)
    ensures Permits(Policy(market, operations, graph), ix) <==> Allowed(market, operations, graph, ix)
  {
    hide Entries, Lanes, Exact, Matches, ConstraintOf;
    var ops := Elements(operations);
    var entries := Entries(Lanes(), market, ops, graph);
    var policy := Policy(market, operations, graph);
    EntriesInGraph(market, ops, graph);
    if Permits(policy, ix) {
      var c :| c in policy && Matches(c, ix);
      var i :| 0 <= i < |policy| && policy[i] == c;
      var e := entries[i];
      EntryMembers(Lanes(), market, ops, graph, e);
      MatchesExactly(graph[e.lane].accounts, e.choice.layout, ix);
    }
    if Allowed(market, operations, graph, ix) {
      var lane, choice :| lane in Lanes() && lane.market == market && choice in graph[lane].layouts
        && choice.operation in operations && Exact(graph[lane].accounts, choice.layout, ix);
      var e := Entry(lane, choice);
      EntryMembers(Lanes(), market, ops, graph, e);
      MatchesExactly(graph[lane].accounts, choice.layout, ix);
      var i :| 0 <= i < |entries| && entries[i] == e;
      assert policy[i] in policy;
    }
  }

  // ----- Splitting a policy -----

  /** The parts share out the operations: none is empty, and each operation is in exactly one place of one part. */
  ghost predicate SharesOut(parts: seq<seq<Operation>>, operations: seq<Operation>) {
    && operations != [] && Distinct(operations)
    && (forall k :: 0 <= k < |parts| ==> parts[k] != [] && Distinct(parts[k]))
    && (forall k, l :: 0 <= k < l < |parts| ==> Elements(parts[k]) !! Elements(parts[l]))
    && (forall op :: op in operations <==> exists k :: 0 <= k < |parts| && op in parts[k])
  }

  /** Splitting never makes a market compile or fail to compile. */
  lemma SplitCompiles(market: Market, operations: seq<Operation>, parts: seq<seq<Operation>>, graph: Graph)
    requires SharesOut(parts, operations)
    ensures Compiles(market, operations, graph) <==> forall k :: 0 <= k < |parts| ==> Compiles(market, parts[k], graph)
  {
    hide NamedOnce, Complete, Distinct, Lanes;
    assert operations[0] in operations;
    if forall k :: 0 <= k < |parts| ==> Compiles(market, parts[k], graph) {
      forall lane, op | lane in Lanes() && lane.market == market && op in operations ensures NamedOnce(graph, lane, op) {
        var k :| 0 <= k < |parts| && op in parts[k];
        assert Compiles(market, parts[k], graph);
      }
    }
  }

  /** The split policies together permit exactly what the unsplit policy permits. */
  lemma SplitPermits(market: Market, operations: seq<Operation>, parts: seq<seq<Operation>>, graph: Graph, ix: Instruction)
    requires SharesOut(parts, operations) && Complete(graph)
    ensures Permits(Policy(market, operations, graph), ix) <==>
      exists k :: 0 <= k < |parts| && Permits(Policy(market, parts[k], graph), ix)
  {
    hide Permits, Policy, Complete, Allowed, SharesOut;
    PolicyPermitsExactly(market, operations, graph, ix);
    forall k | 0 <= k < |parts| ensures Permits(Policy(market, parts[k], graph), ix) <==> Allowed(market, parts[k], graph, ix) {
      PolicyPermitsExactly(market, parts[k], graph, ix);
    }
    AllowedSplit(market, operations, parts, graph, ix);
  }

  lemma AllowedSplit(market: Market, operations: seq<Operation>, parts: seq<seq<Operation>>, graph: Graph, ix: Instruction)
    requires SharesOut(parts, operations) && Complete(graph)
    ensures Allowed(market, operations, graph, ix) <==> exists k :: 0 <= k < |parts| && Allowed(market, parts[k], graph, ix)
  {
    hide Lanes, Exact, Distinct;
    if Allowed(market, operations, graph, ix) {
      var lane, choice :| lane in Lanes() && lane.market == market && choice in graph[lane].layouts
        && choice.operation in operations && Exact(graph[lane].accounts, choice.layout, ix);
      var k :| 0 <= k < |parts| && choice.operation in parts[k];
      assert Allowed(market, parts[k], graph, ix);
    }
  }

  // ----- Each lane and operation once -----

  function CountEntries(entries: seq<Entry>, lane: Lane, op: Operation): nat {
    if entries == [] then 0
    else
      var last := entries[|entries| - 1];
      CountEntries(entries[..|entries| - 1], lane, op) + if last.lane == lane && last.choice.operation == op then 1 else 0
  }

  lemma {:induction false} CountConcat(a: seq<Entry>, b: seq<Entry>, lane: Lane, op: Operation)
    ensures CountEntries(a + b, lane, op) == CountEntries(a, lane, op) + CountEntries(b, lane, op)
  {
    if b == [] {
      assert a + b == a;
    } else {
      CountConcat(a, b[..|b| - 1], lane, op);
      assert (a + b)[..|a + b| - 1] == a + b[..|b| - 1];
    }
  }

  lemma {:induction false} CountLane(own: Lane, chosen: seq<Choice>, lane: Lane, op: Operation)
    ensures CountEntries(LaneEntries(own, chosen), lane, op) == if own == lane then Count(chosen, op) else 0
  {
    if chosen != [] {
      CountLane(own, chosen[..|chosen| - 1], lane, op);
      assert LaneEntries(own, chosen)[..|chosen| - 1] == LaneEntries(own, chosen[..|chosen| - 1]);
    }
  }

  lemma {:induction false} CountSelected(layouts: seq<Choice>, ops: set<Operation>, op: Operation)
    ensures Count(Selected(layouts, ops), op) == if op in ops then Count(layouts, op) else 0
  {
    if layouts != [] {
      var init, last := layouts[..|layouts| - 1], layouts[|layouts| - 1];
      CountSelected(init, ops, op);
      var selected := Selected(init, ops);
      assert (selected + [last])[..|selected|] == selected;
      assert selected + [] == selected;
    }
  }

  lemma {:induction false} CountMarket(lanes: seq<Lane>, market: Market, ops: set<Operation>, graph: Graph, lane: Lane, op: Operation)
    requires Distinct(lanes) && forall l :: l in lanes ==> l in graph
    ensures CountEntries(Entries(lanes, market, ops, graph), lane, op)
         == if lane in lanes && lane.market == market && op in ops then Count(graph[lane].layouts, op) else 0
  {
    hide Count, Selected;
    if lanes != [] {
      var init, last := lanes[..|lanes| - 1], lanes[|lanes| - 1];
      CountMarket(init, market, ops, graph, lane, op);
      CountSelected(graph[last].layouts, ops, op);
      CountLane(last, Selected(graph[last].layouts, ops), lane, op);
      CountConcat(Entries(init, market, ops, graph),
                  if last.market == market then LaneEntries(last, Selected(graph[last].layouts, ops)) else [], lane, op);
      assert lanes == init + [last];
    }
  }

  lemma LanesDistinct()
    ensures Distinct(Lanes())
  {
  }

  /** A compiled policy holds one constraint for each of its operations on each lane of its market, and no other. */
  lemma CompiledOnce(market: Market, operations: seq<Operation>, graph: Graph, lane: Lane, op: Operation)
    requires Compiles(market, operations, graph)
    ensures CountEntries(Entries(Lanes(), market, Elements(operations), graph), lane, op)
         == if lane in Lanes() && lane.market == market && op in operations then 1 else 0
  {
    hide Lanes, Distinct, Entries, CountEntries, Count;
    LanesDistinct();
    CountMarket(Lanes(), market, Elements(operations), graph, lane, op);
    assert lane in Lanes() && lane.market == market && op in operations ==> NamedOnce(graph, lane, op);
  }

  const ALL_OPERATIONS := [Deposit, Withdraw, Borrow, Repay]

  /** The entries of the five market policies, one market after the other. */
  ghost function CatalogEntries(graph: Graph): seq<Entry>
    requires Complete(graph)
  {
    var ops := Elements(ALL_OPERATIONS);
    Entries(Lanes(), Onre, ops, graph) + Entries(Lanes(), Prime, ops, graph) + Entries(Lanes(), Maple, ops, graph)
    + Entries(Lanes(), Auto, ops, graph) + Entries(Lanes(), Ethena, ops, graph)
  }

  lemma AllOperations(op: Operation)
    ensures op in ALL_OPERATIONS && Distinct(ALL_OPERATIONS)
  {
    assert ALL_OPERATIONS[0] == Deposit && ALL_OPERATIONS[1] == Withdraw && ALL_OPERATIONS[2] == Borrow && ALL_OPERATIONS[3] == Repay;
  }

  /** When all five markets compile, each operation on each lane has exactly one constraint in the catalog. */
  lemma CatalogOnce(graph: Graph, lane: Lane, op: Operation)
    requires forall market :: Compiles(market, ALL_OPERATIONS, graph)
    ensures Complete(graph)
    ensures CountEntries(CatalogEntries(graph), lane, op) == if lane in Lanes() then 1 else 0
  {
    hide Lanes, Distinct, Entries, CountEntries, Compiles, Elements;
    AllOperations(op);
    assert Complete(graph) by { CompilesComplete(Onre, ALL_OPERATIONS, graph); }
    var ops := Elements(ALL_OPERATIONS);
    var onre, prime, maple := Entries(Lanes(), Onre, ops, graph), Entries(Lanes(), Prime, ops, graph), Entries(Lanes(), Maple, ops, graph);
    var auto, ethena := Entries(Lanes(), Auto, ops, graph), Entries(Lanes(), Ethena, ops, graph);
    CompiledOnce(Onre, ALL_OPERATIONS, graph, lane, op);
    CompiledOnce(Prime, ALL_OPERATIONS, graph, lane, op);
    CompiledOnce(Maple, ALL_OPERATIONS, graph, lane, op);
    CompiledOnce(Auto, ALL_OPERATIONS, graph, lane, op);
    CompiledOnce(Ethena, ALL_OPERATIONS, graph, lane, op);
    CountConcat(onre, prime, lane, op);
    CountConcat(onre + prime, maple, lane, op);
    CountConcat(onre + prime + maple, auto, lane, op);
    CountConcat(onre + prime + maple + auto, ethena, lane, op);
    match lane.market { case Onre => case Prime => case Maple => case Auto => case Ethena => }
  }

  lemma CompilesComplete(market: Market, operations: seq<Operation>, graph: Graph)
    requires Compiles(market, operations, graph)
    ensures Complete(graph)
  {
  }

  /** Eleven keys with every lane among them are the eleven lanes and no other. */
  lemma CompleteIsExact(keys: set<Lane>)
    ensures |keys| == 11 && (forall lane :: lane in Lanes() ==> lane in keys) <==> keys == Elements(Lanes())
  {
    LanesDistinct();
    DistinctCard(Lanes());
    LaneCount();
    if |keys| == 11 && forall lane :: lane in Lanes() ==> lane in keys {
      Sets.SubsetCard(Elements(Lanes()), keys);
    }
    if keys == Elements(Lanes()) {
      assert forall lane :: lane in Lanes() ==> lane in Elements(Lanes());
    }
  }

  // ----- The compiler -----

  method LaneConstraints(accounts: LaneAccounts, layouts: seq<Choice>) returns (r: Result<seq<Constraint>, CatalogError>)
    ensures r.Ok? <==> layouts != [] && NoRepeat(layouts)
    ensures r.Err? ==> r.error == IncompleteLaneGraph
    ensures r.Ok? ==> |r.value| == |layouts| && forall i :: 0 <= i < |layouts| ==> r.value[i] == ConstraintOf(accounts, layouts[i].layout)
  {
    hide ConstraintOf;
    if layouts == [] { return Err(IncompleteLaneGraph); }
    var seen: set<Operation> := {};
    var out: seq<Constraint> := [];
    var i := 0;
    while i < |layouts|
      invariant 0 <= i <= |layouts| && |out| == i
      invariant forall op :: op in seen <==> exists k :: 0 <= k < i && layouts[k].operation == op
      invariant NoRepeat(layouts[..i])
      invariant forall k :: 0 <= k < i ==> out[k] == ConstraintOf(accounts, layouts[k].layout)
    {
      if layouts[i].operation in seen { return Err(IncompleteLaneGraph); }
      seen := seen + {layouts[i].operation};
      out := out + [ConstraintOf(accounts, layouts[i].layout)];
      i := i + 1;
    }
    assert layouts[..|layouts|] == layouts;
    r := Ok(out);
  }

  /** The lanes before n of the market pass the checks. */
  ghost predicate LanesPass(n: nat, market: Market, operations: seq<Operation>, graph: Graph)
    requires n <= 11 && Complete(graph)
  {
    forall i :: 0 <= i < n && Lanes()[i].market == market ==> LaneChecks(graph[Lanes()[i]].layouts, operations)
  }

  lemma LanesPassCompiles(market: Market, operations: seq<Operation>, graph: Graph)
    requires operations != [] && Distinct(operations) && Complete(graph)
    ensures LanesPass(11, market, operations, graph) <==> Compiles(market, operations, graph)
  {
    hide LaneChecks, Lanes, Distinct, Count;
    LaneCount();
    forall lane | lane in Lanes() && lane.market == market
      ensures LaneChecks(graph[lane].layouts, operations) <==> forall op :: op in operations ==> NamedOnce(graph, lane, op)
    {
      ChecksNameOnce(graph[lane].layouts, operations);
    }
    if Compiles(market, operations, graph) {
      forall i | 0 <= i < 11 && Lanes()[i].market == market ensures LaneChecks(graph[Lanes()[i]].layouts, operations) {
        assert Lanes()[i] in Lanes();
      }
    }
  }

  lemma LaneCount()
    ensures |Lanes()| == 11
  {
  }

  /** One more lane of the market adds its selected layouts. */
  lemma EntriesStep(n: nat, market: Market, operations: seq<Operation>, graph: Graph)
    requires n < 11 && Complete(graph) && |Lanes()| == 11
    ensures forall m, e :: 0 <= m <= 11 && e in Entries(Lanes()[..m], market, Elements(operations), graph) ==> e.lane in graph
    ensures ConstraintsOf(Entries(Lanes()[..n + 1], market, Elements(operations), graph), graph)
         == ConstraintsOf(Entries(Lanes()[..n], market, Elements(operations), graph), graph)
            + if Lanes()[n].market == market
              then LanePolicy(graph[Lanes()[n]], Selected(graph[Lanes()[n]].layouts, Elements(operations)))
              else []
  {
    hide Lanes, ConstraintOf, Selected;
    var ops := Elements(operations);
    forall m, e | 0 <= m <= 11 && e in Entries(Lanes()[..m], market, ops, graph) ensures e.lane in graph {
      EntryMembers(Lanes()[..m], market, ops, graph, e);
    }
    assert Lanes()[..n + 1][..n] == Lanes()[..n];
  }

  function LanePolicy(graph: LaneGraph, chosen: seq<Choice>): seq<Constraint> {
    seq(|chosen|, i requires 0 <= i < |chosen| => ConstraintOf(graph.accounts, chosen[i].layout))
  }

  method CreateMarketPolicy(market: Market, operations: seq<Operation>, graph: Graph) returns (r: Result<seq<Constraint>, CatalogError>)
    ensures r.Ok? <==> Compiles(market, operations, graph)
    ensures r.Err? ==> r.error == IncompleteLaneGraph
    ensures r.Ok? ==> r.value == Policy(market, operations, graph)
  {
    hide Lanes, Entries, Selected, ConstraintOf, Distinct, ConstraintsOf, NoRepeat;
    if operations == [] || !Complete(graph) { return Err(IncompleteLaneGraph); }
    DistinctCard(operations);
    var allowed := Elements(operations);
    if |allowed| != |operations| { return Err(IncompleteLaneGraph); }
    LanesPassCompiles(market, operations, graph);
    LaneCount();
    NoLanes(market, allowed, graph);
    var constraints: seq<Constraint> := [];
    var n := 0;
    while n < 11
      invariant 0 <= n <= 11
      invariant LanesPass(n, market, operations, graph)
      invariant forall e :: e in Entries(Lanes()[..n], market, allowed, graph) ==> e.lane in graph
      invariant constraints == ConstraintsOf(Entries(Lanes()[..n], market, allowed, graph), graph)
    {
      var lane := Lanes()[n];
      EntriesStep(n, market, operations, graph);
      if lane.market == market {
        var selected := Selected(graph[lane].layouts, allowed);
        if |selected| != |operations| { return Err(IncompleteLaneGraph); }
        var added := LaneConstraints(graph[lane].accounts, selected);
        if added.Err? { return Err(added.error); }
        assert added.value == LanePolicy(graph[lane], selected);
        constraints := constraints + added.value;
      }
      n := n + 1;
    }
    assert Lanes()[..11] == Lanes();
    r := Ok(constraints);
  }

  lemma NoLanes(market: Market, ops: set<Operation>, graph: Graph)
    requires Complete(graph)
    ensures Entries(Lanes()[..0], market, ops, graph) == [] && ConstraintsOf([], graph) == []
  {
  }

  const MARKETS := [Onre, Prime, Maple, Auto, Ethena]

  lemma EveryMarket(market: Market)
    ensures market in MARKETS
  {
    assert MARKETS[0] == Onre && MARKETS[1] == Prime && MARKETS[2] == Maple && MARKETS[3] == Auto && MARKETS[4] == Ethena;
  }

  method CreateMarketPolicies(graph: Graph) returns (r: Result<seq<seq<Constraint>>, CatalogError>)
    ensures r.Ok? <==> forall market :: Compiles(market, ALL_OPERATIONS, graph)
    ensures r.Err? ==> r.error == IncompleteLaneGraph
    ensures r.Ok? ==> Complete(graph)
    ensures r.Ok? ==> |r.value| == 5 && forall k :: 0 <= k < 5 ==> r.value[k] == Policy(MARKETS[k], ALL_OPERATIONS, graph)
  {
    hide Lanes, Policy, NamedOnce;
    if !Complete(graph) {
      assert !Compiles(Onre, ALL_OPERATIONS, graph);
      return Err(IncompleteLaneGraph);
    }
    var out: seq<seq<Constraint>> := [];
    var k := 0;
    while k < 5
      invariant 0 <= k <= 5 && |out| == k
      invariant forall j :: 0 <= j < k ==> Compiles(MARKETS[j], ALL_OPERATIONS, graph) && out[j] == Policy(MARKETS[j], ALL_OPERATIONS, graph)
    {
      var policy := CreateMarketPolicy(MARKETS[k], ALL_OPERATIONS, graph);
      if policy.Err? { return Err(policy.error); }
      out := out + [policy.value];
      k := k + 1;
    }
    forall market ensures Compiles(market, ALL_OPERATIONS, graph) {
      EveryMarket(market);
    }
    r := Ok(out);
  }

  // ----- Permissions -----

  datatype CatalogAccount = Resolved(value: string) | Unresolved(name: string, resumeCondition: string)

  datatype LaneReserves = LaneReserves(collateralReserve: CatalogAccount, debtReserve: CatalogAccount, obligation: CatalogAccount)

  datatype Permission = Permission(
    lane: Lane, operation: Operation, debtReserve: CatalogAccount, collateralReserve: CatalogAccount, obligation: CatalogAccount)

  function PermissionFor(graph: map<Lane, LaneReserves>, lane: Lane, op: Operation): Permission
    requires lane in graph
  {
    Permission(lane, op, graph[lane].debtReserve, graph[lane].collateralReserve, graph[lane].obligation)
  }

  /** The permissions are exactly those of the lanes, each once. */
  ghost predicate Expanded(graph: map<Lane, LaneReserves>, lanes: seq<Lane>, permissions: seq<Permission>)
    requires forall lane :: lane in lanes ==> lane in graph
  {
    && |permissions| == 4 * |lanes|
    && (forall lane, op :: lane in lanes ==> multiset(permissions)[PermissionFor(graph, lane, op)] == 1)
    && (forall p :: p in permissions ==> p.lane in lanes && p == PermissionFor(graph, p.lane, p.operation))
  }

  /** Four permissions for each lane of a complete graph, and no permission at all for any other graph. */
  method ExpandPermissions(graph: map<Lane, LaneReserves>) returns (r: Result<seq<Permission>, CatalogError>)
    ensures r.Ok? <==> graph.Keys == Elements(Lanes())
    ensures r.Err? ==> r.error == IncompleteLaneGraph
    ensures r.Ok? ==> |r.value| == 44
    ensures r.Ok? ==> (forall lane :: lane in Lanes() ==> lane in graph) && Expanded(graph, Lanes(), r.value)
  {
    hide Lanes, Expanded, PermissionFor, Distinct;
    LaneCount();
    LanesDistinct();
    CompleteIsExact(graph.Keys);
    if |graph| != 11 || exists lane :: lane in Lanes() && lane !in graph { return Err(IncompleteLaneGraph); }
    var out: seq<Permission> := [];
    var n := 0;
    NoneExpanded(graph);
    assert Lanes()[..0] == [];
    while n < 11
      invariant 0 <= n <= 11 && |out| == 4 * n
      invariant Expanded(graph, Lanes()[..n], out)
    {
      var lane := Lanes()[n];
      FourMore(graph, out, Lanes(), n);
      out := out + [PermissionFor(graph, lane, Deposit), PermissionFor(graph, lane, Withdraw),
                    PermissionFor(graph, lane, Borrow), PermissionFor(graph, lane, Repay)];
      n := n + 1;
    }
    assert Lanes()[..11] == Lanes();
    r := Ok(out);
  }

  lemma NoneExpanded(graph: map<Lane, LaneReserves>)
    ensures Expanded(graph, [], [])
  {
  }

  lemma FourMore(graph: map<Lane, LaneReserves>, out: seq<Permission>, lanes: seq<Lane>, n: nat)
    requires n < |lanes| && Distinct(lanes) && forall lane :: lane in lanes ==> lane in graph
    requires Expanded(graph, lanes[..n], out)
    ensures Expanded(graph, lanes[..n + 1], out + [PermissionFor(graph, lanes[n], Deposit), PermissionFor(graph, lanes[n], Withdraw),
                                                   PermissionFor(graph, lanes[n], Borrow), PermissionFor(graph, lanes[n], Repay)])
  {
    var four := [PermissionFor(graph, lanes[n], Deposit), PermissionFor(graph, lanes[n], Withdraw),
                 PermissionFor(graph, lanes[n], Borrow), PermissionFor(graph, lanes[n], Repay)];
    assert lanes[..n + 1] == lanes[..n] + [lanes[n]];
    assert lanes[n] !in lanes[..n];
    assert multiset(out + four) == multiset(out) + multiset(four);
    assert multiset(four) == multiset{four[0], four[1], four[2], four[3]};
    forall lane, op | lane in lanes[..n + 1] ensures multiset(out + four)[PermissionFor(graph, lane, op)] == 1 {
      var p := PermissionFor(graph, lane, op);
      if lane == lanes[n] {
        assert p !in out;
        match op { case Deposit => case Withdraw => case Borrow => case Repay => }
      } else {
        assert p !in four;
      }
    }
  }

  // ----- Packing -----

  const SOLANA_PACKET_BYTES := 1232

  datatype PackingRung = MarketRung | RiskDirection | Lifecycle | LaneRung | SplitSwapOrBridge

  datatype SignedPacket = SignedPacket(policy: string, bytes: nat)

  datatype PackingSelection = PackingSelection(rung: PackingRung, packets: seq<SignedPacket>)

  predicate Fits(packets: seq<SignedPacket>) {
    packets != [] && forall i :: 0 <= i < |packets| ==> packets[i].bytes <= SOLANA_PACKET_BYTES
  }

  ghost predicate FirstFitting(layouts: seq<PackingSelection>, k: int) {
    0 <= k < |layouts| && Fits(layouts[k].packets) && forall j :: 0 <= j < k ==> !Fits(layouts[j].packets)
  }

  /** The first layout whose packets all fit, and an error only where none does. */
  method SelectFirstFittingLayout(layouts: seq<PackingSelection>) returns (r: Result<PackingSelection, CatalogError>)
    ensures r.Ok? ==> exists k :: FirstFitting(layouts, k) && layouts[k] == r.value
    ensures r.Err? ==> r.error == NoSafePackingRung && forall k :: 0 <= k < |layouts| ==> !Fits(layouts[k].packets)
  {
    var k := 0;
    while k < |layouts|
      invariant 0 <= k <= |layouts|
      invariant forall j :: 0 <= j < k ==> !Fits(layouts[j].packets)
    {
      if Fits(layouts[k].packets) {
        assert FirstFitting(layouts, k);
        return Ok(layouts[k]);
      }
      k := k + 1;
    }
    r := Err(NoSafePackingRung);
  }
}
