/** Queries over the routing graph of a flow: edges, entry steps, cycles, reachability. */
module Dag {
  import opened Wrappers
  import opened Ordering
  import opened FlowTypes
  import opened Closure

  // ----- edges --------------------------------------------------------------------------

  predicate IsSelfRejectLoop(step: Step) {
    step.onReject.Some? && step.onReject.value.AsSlice() == [step.id]
  }

  /** The routes that count as forward progress; `on_failure` is a recovery edge. */
  function ForwardRoutes(step: Step): seq<StepId> {
    RouteTargets(step.onSuccess) + RouteTargets(step.onApprove) + RouteTargets(step.onReject)
  }

  function AllRoutes(step: Step): seq<StepId> {
    RouteTargets(step.onSuccess) + RouteTargets(step.onFailure)
    + RouteTargets(step.onApprove) + RouteTargets(step.onReject)
  }

  /** Whether a target is an edge at all: not `done`, and not the step itself when its
      `on_reject` loops back (whatever field names it). */
  predicate Counts(step: Step, target: StepId) {
    target != DONE && !(IsSelfRejectLoop(step) && target == step.id)
  }

  ghost predicate Edge(flow: Flow, a: StepId, b: StepId) {
    exists s :: s in flow.steps && s.id == a && b in AllRoutes(s) && Counts(s, b)
  }

  ghost predicate ForwardEdge(flow: Flow, a: StepId, b: StepId) {
    exists s :: s in flow.steps && s.id == a && b in ForwardRoutes(s) && Counts(s, b)
  }

  /** A route names a step, alone or in its list. */
  predicate Names(route: Option<RouteTarget>, id: StepId) {
    route == Some(One(id)) || (route.Some? && route.value.Many? && id in route.value.targets)
  }

  /** The rejection of this step goes back to it and nowhere else. */
  predicate OnlyItself(s: Step) {
    s.onReject == Some(One(s.id)) || s.onReject == Some(Many([s.id]))
  }

  /** Some route of the step but `on_failure` names another step, or the step itself where rejection
      is not the way back. */
  predicate GoesOn(s: Step, b: StepId) {
    b != "done" && !(b == s.id && OnlyItself(s))
    && (Names(s.onSuccess, b) || Names(s.onApprove, b) || Names(s.onReject, b))
  }

  /** So does its `on_failure`. */
  predicate Recovers(s: Step, b: StepId) {
    b != "done" && !(b == s.id && OnlyItself(s)) && Names(s.onFailure, b)
  }

  /** What the edges are, route by route. */
  lemma EdgesExactly(flow: Flow, a: StepId, b: StepId)
    ensures Edge(flow, a, b) <==> exists s :: s in flow.steps && s.id == a && (GoesOn(s, b) || Recovers(s, b))
    ensures ForwardEdge(flow, a, b) <==> exists s :: s in flow.steps && s.id == a && GoesOn(s, b)
  {
    forall s: Step
      ensures b in AllRoutes(s) && Counts(s, b) <==> GoesOn(s, b) || Recovers(s, b)
      ensures b in ForwardRoutes(s) && Counts(s, b) <==> GoesOn(s, b)
    {
      StepEdges(s, b);
    }
    hide AllRoutes, ForwardRoutes, Counts, GoesOn, Recovers;
  }

  lemma StepEdges(s: Step, b: StepId)
    ensures b in AllRoutes(s) && Counts(s, b) <==> GoesOn(s, b) || Recovers(s, b)
    ensures b in ForwardRoutes(s) && Counts(s, b) <==> GoesOn(s, b)
  {
    NamesRoute(s.onSuccess, b);
    NamesRoute(s.onFailure, b);
    NamesRoute(s.onApprove, b);
    NamesRoute(s.onReject, b);
    LoopsBackOnly(s);
    hide Names, OnlyItself, IsSelfRejectLoop, RouteTargets;
  }

  lemma NamesRoute(route: Option<RouteTarget>, b: StepId)
    ensures Names(route, b) <==> b in RouteTargets(route)
  {
  }

  lemma LoopsBackOnly(s: Step)
    ensures OnlyItself(s) <==> IsSelfRejectLoop(s)
  {
    if IsSelfRejectLoop(s) && s.onReject.value.One? { assert [s.onReject.value.target][0] == [s.id][0]; }
  }

  ghost predicate IsAdjacency(flow: Flow, adj: Graph) {
    && (forall s :: s in flow.steps ==> s.id in adj)
    && (forall a, b :: a in adj && b in adj[a] <==> Edge(flow, a, b))
  }

  ghost predicate IsForwardAdjacency(flow: Flow, adj: Graph) {
    && (forall s :: s in flow.steps ==> s.id in adj)
    && (forall a, b :: a in adj && b in adj[a] <==> ForwardEdge(flow, a, b))
  }

  /** The targets of one route list that count as edges. */
  function CountedTargets(step: Step, targets: seq<StepId>): set<StepId> {
    set t | t in targets && Counts(step, t)
  }

  method CollectTargets(step: Step, targets: seq<StepId>) returns (out: set<StepId>)
    ensures out == CountedTargets(step, targets)
  {
    out := {};
    for i := 0 to |targets|
      invariant out == CountedTargets(step, targets[..i])
    {
      assert targets[..i + 1] == targets[..i] + [targets[i]];
      if Counts(step, targets[i]) { out := out + {targets[i]}; }
    }
    assert targets[..|targets|] == targets;
  }

  /** `adjacency`: step id to the ids it routes to. */
  method Adjacency(flow: Flow) returns (adj: Graph)
    ensures IsAdjacency(flow, adj)
  {
    adj := map[];
    for i := 0 to |flow.steps|
      invariant forall j :: 0 <= j < i ==> flow.steps[j].id in adj
      invariant forall a, b :: a in adj && b in adj[a] <==>
        exists j :: 0 <= j < i && flow.steps[j].id == a && b in AllRoutes(flow.steps[j]) && Counts(flow.steps[j], b)
    {
      var step := flow.steps[i];
      var found := CollectTargets(step, AllRoutes(step));
      ghost var before := adj;
      adj := adj[step.id := Next(adj, step.id) + found];
      forall a, b ensures (a in adj && b in adj[a]) <==>
        exists j :: 0 <= j < i + 1 && flow.steps[j].id == a && b in AllRoutes(flow.steps[j]) && Counts(flow.steps[j], b)
      {
        assert (a in adj && b in adj[a]) <==> (a in before && b in before[a]) || (a == step.id && b in found);
      }
    }
  }

  /** `forward_adjacency`: the same without `on_failure`. */
  method ForwardAdjacency(flow: Flow) returns (adj: Graph)
    ensures IsForwardAdjacency(flow, adj)
  {
    adj := map[];
    for i := 0 to |flow.steps|
      invariant forall j :: 0 <= j < i ==> flow.steps[j].id in adj
      invariant forall a, b :: a in adj && b in adj[a] <==>
        exists j :: 0 <= j < i && flow.steps[j].id == a && b in ForwardRoutes(flow.steps[j]) && Counts(flow.steps[j], b)
    {
      var step := flow.steps[i];
      var found := CollectTargets(step, ForwardRoutes(step));
      ghost var before := adj;
      adj := adj[step.id := Next(adj, step.id) + found];
      forall a, b ensures (a in adj && b in adj[a]) <==>
        exists j :: 0 <= j < i + 1 && flow.steps[j].id == a && b in ForwardRoutes(flow.steps[j])
            && Counts(flow.steps[j], b)
      {
        assert (a in adj && b in adj[a]) <==> (a in before && b in before[a]) || (a == step.id && b in found);
      }
    }
  }

  // ----- incoming edges, with multiplicity ----------------------------------------------

  /** The id of `step`, once for each time `target` occurs in `targets` as an edge. */
  function Occurrences(step: Step, targets: seq<StepId>, target: StepId): seq<StepId> {
    if targets == [] then []
    else
      var n := |targets| - 1;
      Occurrences(step, targets[..n], target)
      + (if targets[n] == target && Counts(step, target) then [step.id] else [])
  }

  /** The routing sources of `target`, one entry per edge, in step order. */
  function SourcesIn(steps: seq<Step>, target: StepId): seq<StepId> {
    if steps == [] then []
    else
      var n := |steps| - 1;
      SourcesIn(steps[..n], target) + Occurrences(steps[n], AllRoutes(steps[n]), target)
  }

  function Sources(flow: Flow, target: StepId): seq<StepId> {
    SourcesIn(flow.steps, target)
  }

  lemma OccurrencesNone(step: Step)
    ensures forall t :: Occurrences(step, [], t) == []
  {
  }

  lemma OccurrencesSnoc(step: Step, targets: seq<StepId>, k: nat, target: StepId)
    requires k < |targets|
    ensures Occurrences(step, targets[..k + 1], target) ==
            Occurrences(step, targets[..k], target)
                + (if targets[k] == target && Counts(step, target) then [step.id] else [])
  {
    assert targets[..k + 1][..k] == targets[..k];
  }

  lemma {:induction false} OccurrencesMembers(step: Step, targets: seq<StepId>, target: StepId)
    ensures forall x :: x in Occurrences(step, targets, target) <==>
              x == step.id && target in targets && Counts(step, target)
  {
    if targets != [] {
      var n := |targets| - 1;
      OccurrencesMembers(step, targets[..n], target);
      assert targets == targets[..n] + [targets[n]];
    }
  }

  lemma {:induction false} SourcesInMembers(steps: seq<Step>, target: StepId)
    ensures forall x :: x in SourcesIn(steps, target) <==>
      exists s :: s in steps && s.id == x && target in AllRoutes(s) && Counts(s, target)
  {
    if steps != [] {
      var n := |steps| - 1;
      SourcesInMembers(steps[..n], target);
      OccurrencesMembers(steps[n], AllRoutes(steps[n]), target);
      assert steps == steps[..n] + [steps[n]];
    }
  }

  lemma SourcesAreEdges(flow: Flow, target: StepId)
    ensures forall x :: x in Sources(flow, target) <==> Edge(flow, x, target)
  {
    SourcesInMembers(flow.steps, target);
  }

  function Incoming(m: map<StepId, seq<StepId>>, id: StepId): seq<StepId> {
    if id in m then m[id] else []
  }

  ghost predicate IsIncoming(flow: Flow, m: map<StepId, seq<StepId>>) {
    forall t :: (t in m <==> Sources(flow, t) != []) && Incoming(m, t) == Sources(flow, t)
  }

  method PushSources(step: Step, targets: seq<StepId>, incoming0: map<StepId, seq<StepId>>)
    returns (incoming: map<StepId, seq<StepId>>)
    requires forall t :: t in incoming0 ==> incoming0[t] != []
    ensures forall t :: t in incoming ==> incoming[t] != []
    ensures forall t :: Incoming(incoming, t) == Incoming(incoming0, t) + Occurrences(step, targets, t)
  {
    hide Occurrences;
    incoming := incoming0;
    OccurrencesNone(step);
    for k := 0 to |targets|
      invariant forall t :: t in incoming ==> incoming[t] != []
      invariant forall t :: Incoming(incoming, t) == Incoming(incoming0, t) + Occurrences(step, targets[..k], t)
    {
      var target := targets[k];
      ghost var before := incoming;
      if Counts(step, target) {
        incoming := incoming[target := Incoming(incoming, target) + [step.id]];
      }
      forall t ensures Incoming(incoming, t) == Incoming(incoming0, t) + Occurrences(step, targets[..k + 1], t) {
        OccurrencesSnoc(step, targets, k, t);
        assert Incoming(before, t) == Incoming(incoming0, t) + Occurrences(step, targets[..k], t);
      }
    }
    assert targets[..|targets|] == targets;
  }

  /** `steps_with_incoming_edges`: each targeted id with its sources, pushed one by one. */
  method StepsWithIncomingEdges(flow: Flow) returns (incoming: map<StepId, seq<StepId>>)
    ensures IsIncoming(flow, incoming)
  {
    incoming := map[];
    for i := 0 to |flow.steps|
      invariant forall t :: t in incoming ==> incoming[t] != []
      invariant forall t :: Incoming(incoming, t) == SourcesIn(flow.steps[..i], t)
    {
      incoming := PushSources(flow.steps[i], AllRoutes(flow.steps[i]), incoming);
      assert flow.steps[..i + 1][..i] == flow.steps[..i];
    }
    assert flow.steps[..|flow.steps|] == flow.steps;
  }

  // ----- entry steps --------------------------------------------------------------------

  function FilterIds(steps: seq<Step>, drop: set<StepId>): seq<StepId> {
    if steps == [] then []
    else
      var n := |steps| - 1;
      FilterIds(steps[..n], drop) + (if steps[n].id in drop then [] else [steps[n].id])
  }

  lemma {:induction false} FilterIdsMembers(steps: seq<Step>, drop: set<StepId>)
    ensures forall x :: x in FilterIds(steps, drop) <==> x !in drop && exists s :: s in steps && s.id == x
  {
    if steps != [] {
      var n := |steps| - 1;
      FilterIdsMembers(steps[..n], drop);
      assert steps == steps[..n] + [steps[n]];
    }
  }

  function Targeted(flow: Flow): set<StepId> {
    set s, t | s in flow.steps && t in AllRoutes(s) && Counts(s, t) :: t
  }

  function ForwardTargeted(flow: Flow): set<StepId> {
    set s, t | s in flow.steps && t in ForwardRoutes(s) && Counts(s, t) :: t
  }

  /** The steps no edge leads to; failing that, the steps no forward edge leads to. */
  function EntrySteps(flow: Flow): seq<StepId> {
    var strict := FilterIds(flow.steps, Targeted(flow));
    if strict != [] then strict else FilterIds(flow.steps, ForwardTargeted(flow))
  }

  lemma TargetedHasSources(flow: Flow, t: StepId)
    ensures t in Targeted(flow) <==> Sources(flow, t) != []
  {
    SourcesAreEdges(flow, t);
    if Sources(flow, t) != [] {
      assert Edge(flow, Sources(flow, t)[0], t);
    }
    if t in Targeted(flow) {
      var s :| s in flow.steps && t in AllRoutes(s) && Counts(s, t);
      assert Edge(flow, s.id, t);
    }
  }

  /** The entries: the steps that no edge leads to or, where there is no such step, those that no
      forward edge leads to. */
  lemma EntriesExactly(flow: Flow, id: StepId)
    ensures id in EntrySteps(flow) <==>
              flow.Defined(id) &&
              if exists x :: flow.Defined(x) && forall a :: !Edge(flow, a, x)
              then forall a :: !Edge(flow, a, id)
              else forall a :: !ForwardEdge(flow, a, id)
  {
    hide *;
    TargetedExactly(flow);
    ForwardTargetedExactly(flow);
    KeptIds(flow, Targeted(flow));
    KeptIds(flow, ForwardTargeted(flow));
    SomeMember(FilterIds(flow.steps, Targeted(flow)));
    EntriesAre(flow);
  }

  lemma EntriesAre(flow: Flow)
    ensures EntrySteps(flow) ==
            if FilterIds(flow.steps, Targeted(flow)) != [] then FilterIds(flow.steps, Targeted(flow))
            else FilterIds(flow.steps, ForwardTargeted(flow))
  {
    hide FilterIds, Targeted, ForwardTargeted;
  }

  lemma KeptIds(flow: Flow, drop: set<StepId>)
    ensures forall x :: x in FilterIds(flow.steps, drop) <==> x !in drop && flow.Defined(x)
  {
    FilterIdsMembers(flow.steps, drop);
    hide FilterIds;
  }

  lemma TargetedExactly(flow: Flow)
    ensures forall x :: x in Targeted(flow) <==> exists a :: Edge(flow, a, x)
  {
    forall x ensures x in Targeted(flow) <==> exists a :: Edge(flow, a, x) {
      if s :| s in flow.steps && x in AllRoutes(s) && Counts(s, x) { assert Edge(flow, s.id, x); }
    }
  }

  lemma ForwardTargetedExactly(flow: Flow)
    ensures forall x :: x in ForwardTargeted(flow) <==> exists a :: ForwardEdge(flow, a, x)
  {
    forall x ensures x in ForwardTargeted(flow) <==> exists a :: ForwardEdge(flow, a, x) {
      if s :| s in flow.steps && x in ForwardRoutes(s) && Counts(s, x) { assert ForwardEdge(flow, s.id, x); }
    }
  }

  method KeepIds(steps: seq<Step>, drop: set<StepId>) returns (out: seq<StepId>)
    ensures out == FilterIds(steps, drop)
  {
    out := [];
    for i := 0 to |steps|
      invariant out == FilterIds(steps[..i], drop)
    {
      assert steps[..i + 1][..i] == steps[..i];
      if steps[i].id !in drop { out := out + [steps[i].id]; }
    }
    assert steps[..|steps|] == steps;
  }

  /** `entry_steps`, over the incoming-edge and forward-adjacency maps. */
  method FindEntrySteps(flow: Flow) returns (entries: seq<StepId>)
    ensures entries == EntrySteps(flow)
  {
    var incoming := StepsWithIncomingEdges(flow);
    forall t ensures t in incoming.Keys <==> t in Targeted(flow) {
      TargetedHasSources(flow, t);
    }
    assert incoming.Keys == Targeted(flow);
    entries := KeepIds(flow.steps, incoming.Keys);
    if entries == [] {
      var adj := ForwardAdjacency(flow);
      var targeted := set a, b | a in adj && b in adj[a] :: b;
      forall b ensures b in targeted <==> b in ForwardTargeted(flow) {
        if b in ForwardTargeted(flow) {
          var s :| s in flow.steps && b in ForwardRoutes(s) && Counts(s, b);
          assert ForwardEdge(flow, s.id, b);
        }
      }
      assert targeted == ForwardTargeted(flow);
      entries := KeepIds(flow.steps, targeted);
    }
  }

  /** No forward edge leads to an entry step. */
  lemma EntryHasNoForwardSource(flow: Flow, id: StepId)
    requires id in EntrySteps(flow)
    ensures flow.Defined(id) && forall a :: !ForwardEdge(flow, a, id)
  {
    FilterIdsMembers(flow.steps, Targeted(flow));
    FilterIdsMembers(flow.steps, ForwardTargeted(flow));
    assert forall s :: s in flow.steps && id in ForwardRoutes(s) ==> id in AllRoutes(s);
  }

  // ----- cycle search -------------------------------------------------------------------

  datatype Color = White | Gray | Black

  function ColorOf(color: map<StepId, Color>, id: StepId): Color {
    if id in color then color[id] else White
  }

  function PositionOf(xs: seq<StepId>, x: StepId): (r: nat)
    requires x in xs
    ensures r < |xs| && xs[r] == x
  {
    if xs[0] == x then 0 else 1 + PositionOf(xs[1..], x)
  }

  /** The state of a depth-first search: the stack holds exactly the gray nodes and is a
      walk; `rank` is the finishing order of the black nodes, whose edges only lead to black
      nodes that finished earlier; `seen` is everything that is not white. */
  ghost predicate SearchInv(adj: Graph, color: map<StepId, Color>, stack: seq<StepId>, rank: map<StepId, nat>,
                            seen: set<StepId>) {
    && (forall id :: id in seen <==> ColorOf(color, id) != White)
    && (forall id :: id in stack <==> ColorOf(color, id) == Gray)
    && (forall id :: id in rank <==> ColorOf(color, id) == Black)
    && Walk(adj, stack)
    && (forall id :: id in rank ==> rank[id] < |rank|)
    && (forall a, b {:trigger b in Next(adj, a)} :: a in rank && b in Next(adj, a) ==> b in rank && rank[b] < rank[a])
  }

  lemma SubsetSize(a: set<StepId>, b: set<StepId>)
    requires a <= b
    ensures |a| <= |b|
    ensures a < b ==> |a| < |b|
  {
    var c := b - a;
    assert b == a + c;
  }

  lemma WithinNext(adj: Graph, space: set<StepId>, a: StepId, b: StepId)
    requires Within(adj, space) && b in Next(adj, a)
    ensures b in space
  {
    assert a in adj && adj[a] <= space;
  }

  lemma SearchColors(adj: Graph, color: map<StepId, Color>, stack: seq<StepId>, rank: map<StepId, nat>,
                     seen: set<StepId>, id: StepId)
    requires SearchInv(adj, color, stack, rank, seen)
    ensures match ColorOf(color, id)
            case White => id !in seen && id !in rank && id !in stack
            case Gray => id in seen && id in stack
            case Black => id in seen && id in rank
    ensures Walk(adj, stack)
  {
  }

  /** Entering a white node turns it gray and pushes it. */
  lemma Enter(adj: Graph, color: map<StepId, Color>, stack: seq<StepId>, rank: map<StepId, nat>, seen: set<StepId>,
              node: StepId)
    requires SearchInv(adj, color, stack, rank, seen) && node !in seen
    requires stack != [] ==> node in Next(adj, stack[|stack| - 1])
    ensures SearchInv(adj, color[node := Gray], stack + [node], rank, seen + {node})
  {
    var color' := color[node := Gray];
    assert ColorOf(color, node) == White;
    EnteredColors(color, node);
    WalkOn(adj, stack, node);
    hide Walk, ColorOf, Next;
    forall id ensures id in stack + [node] <==> id in stack || id == node {}
  }

  lemma EnteredColors(color: map<StepId, Color>, node: StepId)
    ensures forall id :: ColorOf(color[node := Gray], id) == if id == node then Gray else ColorOf(color, id)
  {
    forall id ensures ColorOf(color[node := Gray], id) == if id == node then Gray else ColorOf(color, id) {}
  }

  lemma WalkOn(adj: Graph, stack: seq<StepId>, node: StepId)
    requires Walk(adj, stack) && (stack != [] ==> node in Next(adj, stack[|stack| - 1]))
    ensures Walk(adj, stack + [node])
  {
    hide Next;
    var path := stack + [node];
    forall i, j | 0 <= i && j == i + 1 && j < |path| ensures path[j] in Next(adj, path[i]) {
      if j < |stack| { assert stack[j] in Next(adj, stack[i]); }
    }
  }

  /** Leaving a node whose successors are all finished makes it the last to finish. */
  lemma Leave(adj: Graph, color: map<StepId, Color>, stack: seq<StepId>, rank: map<StepId, nat>, seen: set<StepId>,
              node: StepId)
    requires SearchInv(adj, color, stack + [node], rank, seen)
    requires node !in stack
    requires forall b :: b in Next(adj, node) ==> b in rank
    ensures SearchInv(adj, color[node := Black], stack, rank[node := |rank|], seen)
  {
    var color', rank' := color[node := Black], rank[node := |rank|];
    assert node in stack + [node];
    assert ColorOf(color, node) == Gray && node !in rank && |rank'| == |rank| + 1;
    forall id ensures ColorOf(color', id) == if id == node then Black else ColorOf(color, id) {}
    forall id ensures id in stack + [node] <==> id in stack || id == node {}
    forall i, j | 0 <= i && j == i + 1 && j < |stack| ensures stack[j] in Next(adj, stack[i]) {
      assert (stack + [node])[j] in Next(adj, (stack + [node])[i]);
    }
  }

  /** An edge back to a gray node closes a cycle along the stack. */
  lemma BackEdge(adj: Graph, stack: seq<StepId>, next: StepId)
    requires Walk(adj, stack) && stack != []
    requires next in Next(adj, stack[|stack| - 1]) && next in stack
    ensures IsCycle(adj, stack[PositionOf(stack, next)..] + [next])
  {
    var p, n := PositionOf(stack, next), |stack|;
    var path := stack[p..] + [next];
    forall i, j | 0 <= i && j == i + 1 && j < |path| ensures path[j] in Next(adj, path[i]) {
      assert path[i] == stack[p + i];
      if j < n - p { assert path[j] == stack[p + j]; }
    }
  }

  /** Having seen one node more leaves fewer to see. */
  lemma Nearer(space: set<StepId>, seen0: set<StepId>, seen: set<StepId>, node: StepId)
    requires node in space && node !in seen0 && seen0 + {node} <= seen
    ensures |space - seen| < |space - seen0|
  {
    assert node in space - seen0 && node !in space - seen;
    SubsetSize(space - seen, space - seen0);
  }

  lemma AllRanked(next: set<StepId>, neighbors: seq<StepId>, ranked: set<StepId>)
    requires forall x :: x in neighbors <==> x in next
    requires RankedUpTo(neighbors, |neighbors|, ranked)
    ensures forall b :: b in next ==> b in ranked
  {
  }

  predicate RankedUpTo(neighbors: seq<StepId>, i: nat, ranked: set<StepId>)
    requires i <= |neighbors|
  {
    forall k | 0 <= k < i :: neighbors[k] in ranked
  }

  lemma NoneRanked(neighbors: seq<StepId>, ranked: set<StepId>)
    ensures RankedUpTo(neighbors, 0, ranked)
  {
  }

  lemma OneMoreRanked(neighbors: seq<StepId>, i: nat, before: set<StepId>, ranked: set<StepId>)
    requires i < |neighbors| && RankedUpTo(neighbors, i, before) && before <= ranked && neighbors[i] in ranked
    ensures RankedUpTo(neighbors, i + 1, ranked)
  {
  }

  /** `visit`: explores `node`; returns a cycle, or `None` with `node` finished and the stack
      as it was. */
  method Visit(node: StepId, adj: Graph, color0: map<StepId, Color>, stack0: seq<StepId>,
      ghost rank0: map<StepId, nat>, ghost seen0: set<StepId>, ghost space: set<StepId>)
    returns (cycle: Option<seq<StepId>>, color: map<StepId, Color>, ghost rank: map<StepId, nat>,
             ghost seen: set<StepId>)
    requires SearchInv(adj, color0, stack0, rank0, seen0)
    requires Within(adj, space) && node in space && node !in seen0
    requires stack0 != [] ==> node in Next(adj, stack0[|stack0| - 1])
    ensures cycle.Some? ==> IsCycle(adj, cycle.value)
    ensures cycle.None? ==> SearchInv(adj, color, stack0, rank, seen)
    ensures cycle.None? ==> seen0 <= seen && rank0.Keys <= rank.Keys && node in rank
    decreases |space - seen0|, 1
  {
    hide *;
    var stack := stack0 + [node];
    color, rank, seen := color0[node := Gray], rank0, seen0 + {node};
    SearchColors(adj, color0, stack0, rank0, seen0, node);
    Enter(adj, color0, stack0, rank0, seen0, node);
    Nearer(space, seen0, seen, node);

    var neighbors := Sort(Next(adj, node));
    NoneRanked(neighbors, rank.Keys);
    var i := 0;
    while i < |neighbors|
      invariant 0 <= i <= |neighbors|
      invariant SearchInv(adj, color, stack, rank, seen)
      invariant seen0 + {node} <= seen && rank0.Keys <= rank.Keys
      invariant RankedUpTo(neighbors, i, rank.Keys)
    {
      Nearer(space, seen0, seen, node);
      ghost var ranked := rank.Keys;
      cycle, color, rank, seen := Follow(neighbors[i], adj, color, stack, rank, seen, space);
      if cycle.Some? { return; }
      OneMoreRanked(neighbors, i, ranked, rank.Keys);
      i := i + 1;
    }
    AllRanked(Next(adj, node), neighbors, rank.Keys);
    Leave(adj, color, stack0, rank, seen, node);
    cycle, color, rank := None, color[node := Black], rank[node := |rank|];
  }

  /** One edge out of the node on top of the stack, by the color of its head. */
  method Follow(next: StepId, adj: Graph, color0: map<StepId, Color>, stack: seq<StepId>,
      ghost rank0: map<StepId, nat>, ghost seen0: set<StepId>, ghost space: set<StepId>)
    returns (cycle: Option<seq<StepId>>, color: map<StepId, Color>, ghost rank: map<StepId, nat>,
             ghost seen: set<StepId>)
    requires SearchInv(adj, color0, stack, rank0, seen0)
    requires Within(adj, space) && stack != [] && next in Next(adj, stack[|stack| - 1])
    ensures cycle.Some? ==> IsCycle(adj, cycle.value)
    ensures cycle.None? ==> SearchInv(adj, color, stack, rank, seen)
    ensures cycle.None? ==> seen0 <= seen && rank0.Keys <= rank.Keys && next in rank
    decreases |space - seen0|, 2
  {
    hide *;
    color, rank, seen := color0, rank0, seen0;
    SearchColors(adj, color, stack, rank, seen, next);
    match ColorOf(color, next) {
      case White =>
        WithinNext(adj, space, stack[|stack| - 1], next);
        cycle, color, rank, seen := Visit(next, adj, color, stack, rank, seen, space);
      case Gray =>
        BackEdge(adj, stack, next);
        cycle := Some(stack[PositionOf(stack, next)..] + [next]);
      case Black =>
        cycle := None;
    }
  }

  lemma FreshSearch(adj: Graph, color: map<StepId, Color>)
    requires forall id :: id in color ==> color[id] == White
    ensures SearchInv(adj, color, [], map[], {})
  {
  }

  lemma FinishedSearch(adj: Graph, color: map<StepId, Color>, rank: map<StepId, nat>, seen: set<StepId>)
    requires SearchInv(adj, color, [], rank, seen) && adj.Keys <= rank.Keys
    ensures Ranked(adj, rank)
  {
    forall a, b | b in Next(adj, a) ensures a in rank && b in rank && rank[b] < rank[a] {
      assert a in adj;
    }
  }

  /** The search over all roots: a cycle if there is one, else a rank that every edge
      lowers. */
  method SearchCycle(adj: Graph, color0: map<StepId, Color>)
    returns (cycle: Option<seq<StepId>>, ghost rank: map<StepId, nat>)
    requires forall id :: id in color0 ==> color0[id] == White
    ensures cycle.Some? ==> IsCycle(adj, cycle.value)
    ensures cycle.None? ==> Ranked(adj, rank)
  {
    hide SearchInv, IsCycle, Ranked;
    var color := color0;
    ghost var seen := {};
    rank := map[];
    FreshSearch(adj, color);
    ghost var space := SpaceAround(adj, {});
    var ids := Sort(adj.Keys);
    var i := 0;
    while i < |ids|
      invariant 0 <= i <= |ids|
      invariant SearchInv(adj, color, [], rank, seen)
      invariant forall k :: 0 <= k < i ==> ids[k] in rank
    {
      assert ids[i] in ids;
      SearchColors(adj, color, [], rank, seen, ids[i]);
      if ColorOf(color, ids[i]) == White {
        cycle, color, rank, seen := Visit(ids[i], adj, color, [], rank, seen, space);
        if cycle.Some? { return; }
      }
      i := i + 1;
    }
    cycle := None;
    assert adj.Keys <= rank.Keys;
    FinishedSearch(adj, color, rank, seen);
  }

  ghost predicate ForwardAcyclic(flow: Flow) {
    forall adj, path :: IsForwardAdjacency(flow, adj) ==> !IsCycle(adj, path)
  }

  ghost predicate ForwardRanked(flow: Flow, rank: map<StepId, nat>) {
    forall a, b :: ForwardEdge(flow, a, b) ==> a in rank && b in rank && rank[b] < rank[a]
  }

  lemma ForwardAdjacencyUnique(flow: Flow, a: Graph, b: Graph, path: seq<StepId>)
    requires IsForwardAdjacency(flow, a) && IsForwardAdjacency(flow, b)
    ensures IsCycle(a, path) == IsCycle(b, path)
  {
    forall x, y ensures y in Next(a, x) <==> y in Next(b, x) {
      assert y in Next(a, x) <==> ForwardEdge(flow, x, y);
      assert y in Next(b, x) <==> ForwardEdge(flow, x, y);
    }
  }

  /** `find_cycle`, sound and complete: it reports a cycle exactly when the forward graph has
      one, the reported path is one, and otherwise every forward edge falls in some rank. */
  method FindCycle(flow: Flow) returns (cycle: Option<seq<StepId>>, ghost rank: map<StepId, nat>)
    ensures cycle.None? <==> ForwardAcyclic(flow)
    ensures cycle.Some? ==> |cycle.value| >= 2 && cycle.value[0] == cycle.value[|cycle.value| - 1]
    ensures cycle.Some? ==>
              forall i, j :: 0 <= i && j == i + 1 && j < |cycle.value| ==>
                  ForwardEdge(flow, cycle.value[i], cycle.value[j])
    ensures cycle.None? ==> ForwardRanked(flow, rank)
  {
    var adj := ForwardAdjacency(flow);
    var color := map s | s in flow.steps :: s.id := White;
    cycle, rank := SearchCycle(adj, color);
    if cycle.None? {
      RankedForward(flow, adj, rank);
    } else {
      CycleForward(flow, adj, cycle.value);
    }
  }

  lemma RankedForward(flow: Flow, adj: Graph, rank: map<StepId, nat>)
    requires IsForwardAdjacency(flow, adj) && Ranked(adj, rank)
    ensures ForwardAcyclic(flow) && ForwardRanked(flow, rank)
  {
    RankedHasNoCycle(adj, rank);
    forall other, path | IsForwardAdjacency(flow, other) ensures !IsCycle(other, path) {
      ForwardAdjacencyUnique(flow, adj, other, path);
    }
    forall a, b | ForwardEdge(flow, a, b) ensures a in rank && b in rank && rank[b] < rank[a] {
      assert b in Next(adj, a);
    }
  }

  lemma CycleForward(flow: Flow, adj: Graph, path: seq<StepId>)
    requires IsForwardAdjacency(flow, adj) && IsCycle(adj, path)
    ensures !ForwardAcyclic(flow)
    ensures forall i, j :: 0 <= i && j == i + 1 && j < |path| ==> ForwardEdge(flow, path[i], path[j])
  {
    forall i, j | 0 <= i && j == i + 1 && j < |path| ensures ForwardEdge(flow, path[i], path[j]) {
      assert path[j] in Next(adj, path[i]);
    }
  }

  // ----- reachability -------------------------------------------------------------------

  /** `reachable_from`: the least set that holds `start` and every edge out of its members. */
  method ReachableFrom(flow: Flow, start: StepId) returns (seen: set<StepId>)
    ensures !flow.Defined(start) ==> seen == {}
    ensures forall adj :: IsAdjacency(flow, adj) && flow.Defined(start) ==> LeastClosed(adj, {start}, seen)
  {
    hide Pending, LeastClosed, IsAdjacency, Elems;
    var adj := Adjacency(flow);
    seen := {};
    if flow.StepOf(start).None? { return; }
    var stack := [start];
    ghost var space := SpaceAround(adj, {start});
    PendingStart(adj, start);
    while stack != []
      invariant seen + Elems(stack) <= space
      invariant Pending(adj, {start}, seen, Elems(stack))
      decreases |space - seen|, |stack|
    {
      var n := |stack| - 1;
      var node := stack[n];
      ElemsPop(stack);
      ghost var todo := Elems(stack);
      stack := stack[..n];
      if node !in seen {
        SubsetSize(space - (seen + {node}), space - seen);
        var more := Sort(Next(adj, node));
        ElemsAppend(stack, more, Next(adj, node));
        PendingStep(adj, {start}, seen, todo, node, Elems(stack + more));
        seen, stack := seen + {node}, stack + more;
      } else {
        PendingStep(adj, {start}, seen, todo, node, Elems(stack));
      }
    }
    PendingDone(adj, {start}, seen);
    forall other | IsAdjacency(flow, other) ensures LeastClosed(other, {start}, seen) {
      SameEdges(flow, adj, other, {start}, seen);
    }
  }

  lemma SameEdges(flow: Flow, a: Graph, b: Graph, seed: set<StepId>, s: set<StepId>)
    requires IsAdjacency(flow, a) && IsAdjacency(flow, b)
    requires LeastClosed(a, seed, s)
    ensures LeastClosed(b, seed, s)
  {
    forall x, y ensures y in Next(a, x) <==> y in Next(b, x) {
      assert y in Next(a, x) <==> Edge(flow, x, y);
      assert y in Next(b, x) <==> Edge(flow, x, y);
    }
  }
}
