/** What the acyclicity check buys: an entry always exists, a sole forward entry reaches the
    whole flow, and, if failure routes fall too, runs end but for one gap. */
module Entries {
  import opened FlowTypes
  import opened Closure
  import opened Dag
  import opened RunTypes
  import opened Engine
  import opened Store
  import opened Core
  import opened Machine
  import opened Invariants
  import opened Validate
  import opened Soundness
  import opened Termination
  import opened Confluence

  // ----- entries ------------------------------------------------------------------------

  function RankOf(rank: map<StepId, nat>, id: StepId): nat {
    if id in rank then rank[id] else 0
  }

  /** A step none of the steps of the list outranks. */
  lemma {:induction false} Highest(steps: seq<Step>, rank: map<StepId, nat>) returns (top: Step)
    requires steps != []
    ensures top in steps && forall s :: s in steps ==> RankOf(rank, s.id) <= RankOf(rank, top.id)
  {
    var n := |steps| - 1;
    top := steps[n];
    if n > 0 {
      var other := Highest(steps[..n], rank);
      if RankOf(rank, other.id) > RankOf(rank, top.id) { top := other; }
      assert steps == steps[..n] + [steps[n]];
    }
  }

  lemma NoForwardSourceIsEntry(flow: Flow, step: Step)
    requires step in flow.steps && forall a :: !ForwardEdge(flow, a, step.id)
    ensures step.id in FilterIds(flow.steps, ForwardTargeted(flow))
  {
    FilterIdsMembers(flow.steps, ForwardTargeted(flow));
    if step.id in ForwardTargeted(flow) {
      var s :| s in flow.steps && step.id in ForwardRoutes(s) && Counts(s, step.id);
      assert ForwardEdge(flow, s.id, step.id);
    }
  }

  /** A non-empty flow in which the cycle check finds nothing has an entry step. */
  lemma EntryExists(flow: Flow, rank: map<StepId, nat>)
    requires flow.steps != [] && ForwardRanked(flow, rank)
    ensures EntrySteps(flow) != []
  {
    var top := Highest(flow.steps, rank);
    assert forall a :: ForwardEdge(flow, a, top.id) ==> RankOf(rank, a) <= RankOf(rank, top.id);
    NoForwardSourceIsEntry(flow, top);
  }

  lemma ForwardIsEdge(flow: Flow, a: StepId, b: StepId)
    requires ForwardEdge(flow, a, b)
    ensures Edge(flow, a, b) && flow.Defined(a)
  {
  }

  ghost predicate HasForwardSource(flow: Flow, id: StepId) {
    exists a :: ForwardEdge(flow, a, id)
  }

  /** When only the entry lacks a forward predecessor, everything is reachable from it. */
  lemma EntryCovers(flow: Flow, rank: map<StepId, nat>, entry: StepId, adj: Graph, seen: set<StepId>)
    requires ForwardRanked(flow, rank)
    requires forall id :: flow.Defined(id) && id != entry ==> HasForwardSource(flow, id)
    requires IsAdjacency(flow, adj) && LeastClosed(adj, {entry}, seen)
    ensures StepIds(flow) <= seen
  {
    if flow.steps != [] {
      var top := Highest(flow.steps, rank);
      forall id | flow.Defined(id) ensures id in seen {
        Covered(flow, rank, entry, adj, seen, id, RankOf(rank, top.id));
      }
    }
  }

  lemma {:induction false} Covered(flow: Flow, rank: map<StepId, nat>, entry: StepId, adj: Graph, seen: set<StepId>,
                                   id: StepId, top: nat)
    requires ForwardRanked(flow, rank) && flow.Defined(id)
    requires forall x :: flow.Defined(x) ==> RankOf(rank, x) <= top
    requires forall x :: flow.Defined(x) && x != entry ==> HasForwardSource(flow, x)
    requires IsAdjacency(flow, adj) && LeastClosed(adj, {entry}, seen)
    ensures id in seen
    decreases top - RankOf(rank, id)
  {
    hide StepIds;
    if id != entry {
      assert HasForwardSource(flow, id);
      var a :| ForwardEdge(flow, a, id);
      ForwardIsEdge(flow, a, id);
      Covered(flow, rank, entry, adj, seen, a, top);
      assert id in Next(adj, a);
    }
  }

  /** A step no edge leads to is only reachable from itself. */
  lemma OnlyEntriesAreUnreached(flow: Flow, entry: StepId, adj: Graph, seen: set<StepId>, id: StepId)
    requires IsAdjacency(flow, adj) && LeastClosed(adj, {entry}, seen)
    requires id != entry && Sources(flow, id) == []
    ensures id !in seen
  {
    SourcesAreEdges(flow, id);
    var rest := seen - {id};
    forall a, b | b in Next(adj, a) && a in rest ensures b in rest {
      assert Edge(flow, a, b);
    }
    assert {entry} <= rest && Closed(adj, rest);
  }

  // ----- does an accepted flow start ----------------------------------------------------

  /** Starting the run activates something. */
  predicate Begins(flow: Flow, state: RunState) {
    var r := Transition(flow, state, Event.RunStarted);
    r.Ok? && r.value.activations != []
  }

  /** Starting an accepted flow activates something exactly when its entry is not called
      `done`, waits for no needs, and has an input that resolves. */
  lemma AcceptedStarts(flow: Flow, state: RunState)
    requires Accepted(flow) && state.steps == map[]
    ensures var entry := EntrySteps(flow)[0];
            && flow.Defined(entry)
            && (Begins(flow, state) <==>
                  && entry != DONE && flow.StepOf(entry).value.needs == []
                  && ResolveInput(flow.StepOf(entry).value, BuildContext(flow, state)).Ok?)
  {
    var entry := EntrySteps(flow)[0];
    EntryHasNoForwardSource(flow, entry);
    OneEntry(flow, entry);
    StartedEntry(flow, state, entry);
    hide Transition, Accepted, EntrySteps, ResolveInput, BuildContext;
  }

  predicate StopMove(m: Move) {
    m.Did? && (m.event.RunDeadlineExceeded? || m.event.CancelRequested?)
  }

  /** A run that has no rows: its state is that of a new run until somebody stops it. */
  predicate Untouched(new_: NewRun, r: Run) {
    r.state.steps == map[] && (r.phase == RunPhase.Running ==> r.state == NewPlay(new_).state)
  }

  lemma UntouchedMove(new_: NewRun, r: Run, m: Move)
    requires !Begins(new_.definition, NewPlay(new_).state) && Untouched(new_, r) && CanMove(new_.definition, r, m)
    ensures Untouched(new_, Moved(new_.definition, r, m))
    ensures !StopMove(m) ==> Moved(new_.definition, r, m).phase == r.phase
  {
    hide ActivateTargets, EntrySteps, ActiveExcluding, BuildContext;
    if m.Did? {
      var e := Transition(new_.definition, r.state, m.event).value;
      assert m.event.RunStarted? || StopMove(m);
      assert e.activations[..m.j] == [] && Overlay(e.next.steps, []) == e.next.steps;
    }
  }

  /** A run that activates nothing when it starts has no rows in any reachable state, and is
      Running until it is stopped. */
  lemma {:induction false} NeverBegins(new_: NewRun, moves: seq<Move>)
    requires !Begins(new_.definition, NewPlay(new_).state) && Playable(new_.definition, NewPlay(new_), moves)
    ensures var r := Play(new_.definition, NewPlay(new_), moves);
            Untouched(new_, r) && ((forall m :: m in moves ==> !StopMove(m)) ==> r.phase == RunPhase.Running)
    decreases |moves|
  {
    if moves != [] {
      hide Begins, Untouched, CanMove, Moved;
      var n := |moves| - 1;
      NeverBegins(new_, moves[..n]);
      UntouchedMove(new_, Play(new_.definition, NewPlay(new_), moves[..n]), moves[n]);
    }
  }

  /** A run of a flow ever gets a row exactly when starting it activates something. */
  lemma BeginsOrNeverRuns(new_: NewRun)
    ensures Begins(new_.definition, NewPlay(new_).state) <==>
              exists moves :: Playable(new_.definition, NewPlay(new_), moves)
                              && Play(new_.definition, NewPlay(new_), moves).state.steps != map[]
  {
    var flow, start := new_.definition, NewPlay(new_);
    if Begins(flow, start.state) {
      var e := Transition(flow, start.state, Event.RunStarted).value;
      var m := Did(Event.RunStarted, |e.activations|);
      NewInvariant(new_);
      VerdictsOpen(flow, start);
      AfterRows(flow, start, Event.RunStarted, e, |e.activations|);
      hide Transition, NextIsMarked, Ends, Activates, EntrySteps, Overlay, NoVerdictYet;
      PlaySnoc(flow, start, [], m);
      assert e.activations[..|e.activations|] == e.activations;
      var id := e.activations[0].stepId;
      assert e.activations[0] in e.activations && id in ActIds(e.activations);
      assert RowAfter(start.state.steps, Event.RunStarted, e, |e.activations|,
                      After(start, e, |e.activations|).state.steps, id);
      assert Play(flow, start, [] + [m]).state.steps != map[];
    } else {
      hide *;
      forall moves | Playable(flow, start, moves) ensures Play(flow, start, moves).state.steps == map[] {
        NeverBegins(new_, moves);
        NoRowsYet(new_, Play(flow, start, moves));
      }
    }
  }

  lemma NoRowsYet(new_: NewRun, r: Run)
    requires Untouched(new_, r)
    ensures r.state.steps == map[]
  {
  }

  // ----- do runs end --------------------------------------------------------------------

  /** A step that loops back when rejected and names itself in the route of its success as
      well: the edge of that route is not an edge for the cycle check. */
  predicate HandsToItself(step: Step) {
    IsSelfRejectLoop(step) && step.id != DONE && step.id in SuccessRoute(step)
  }

  /** Failure routes fall in the same ranks as forward ones. */
  ghost predicate FailureFalls(flow: Flow, rank: map<StepId, nat>) {
    forall s, t :: s in flow.steps && t in RouteTargets(s.onFailure) && IsStep(flow, t) ==>
      s.id in rank && t in rank && rank[t] < rank[s.id]
  }

  /** In an acyclic flow whose failure routes fall too, everything a run can follow is layered,
      so that runs end, exactly when no step hands over to itself. */
  lemma LayeredExactly(flow: Flow, rank: map<StepId, nat>)
    requires UniqueIds(flow) && ForwardRanked(flow, rank) && FailureFalls(flow, rank)
    ensures (exists layers, top :: Layered(flow, layers, top)) <==> forall s :: s in flow.steps ==> !HandsToItself(s)
  {
    if forall s :: s in flow.steps ==> !HandsToItself(s) {
      var layers, top := LayersFrom(flow, rank);
    }
    if exists layers, top :: Layered(flow, layers, top) {
      var layers, top :| Layered(flow, layers, top);
      forall s | s in flow.steps ensures !HandsToItself(s) {
        StepOfUnique(flow, s);
        SelfHandover(flow, s);
      }
    }
  }

  lemma SelfHandover(flow: Flow, s: Step)
    requires s in flow.steps
    ensures HandsToItself(s) ==> s.id in HandoverTargets(s) && IsStep(flow, s.id)
  {
  }

  lemma LayersFrom(flow: Flow, rank: map<StepId, nat>) returns (layers: map<StepId, nat>, top: nat)
    requires ForwardRanked(flow, rank) && FailureFalls(flow, rank)
    requires forall s :: s in flow.steps ==> !HandsToItself(s)
    ensures Layered(flow, layers, top)
  {
    layers := map id | id in StepIds(flow) :: RankOf(rank, id);
    top := 0;
    if flow.steps != [] {
      var highest := Highest(flow.steps, rank);
      top := RankOf(rank, highest.id) + 1;
    }
    hide *;
    forall id | flow.Defined(id)
      ensures id in layers && layers[id] < top
      ensures forall t :: t in HandoverTargets(flow.StepOf(id).value) && IsStep(flow, t) ==>
                t in layers && layers[t] < layers[id]
    {
      LayerBelow(flow, rank, flow.StepOf(id).value);
    }
    ByLayers(flow, layers, top);
  }

  lemma ByLayers(flow: Flow, layers: map<StepId, nat>, top: nat)
    requires forall id :: flow.Defined(id) ==>
               && id in layers && layers[id] < top
               && (forall t :: t in HandoverTargets(flow.StepOf(id).value) && IsStep(flow, t) ==>
                   t in layers && layers[t] < layers[id])
    ensures Layered(flow, layers, top)
  {
  }

  lemma LayerBelow(flow: Flow, rank: map<StepId, nat>, s: Step)
    requires ForwardRanked(flow, rank) && FailureFalls(flow, rank) && s in flow.steps && !HandsToItself(s)
    ensures forall t :: t in HandoverTargets(s) && IsStep(flow, t) ==>
              flow.Defined(t) && RankOf(rank, t) < RankOf(rank, s.id)
  {
    hide HandoverTargets, ForwardRanked, FailureFalls, HandsToItself;
    forall t | t in HandoverTargets(s) && IsStep(flow, t) ensures RankOf(rank, t) < RankOf(rank, s.id) {
      HandoverFalls(flow, rank, s, t);
    }
  }

  lemma HandoverFalls(flow: Flow, rank: map<StepId, nat>, s: Step, t: StepId)
    requires ForwardRanked(flow, rank) && FailureFalls(flow, rank)
    requires s in flow.steps && !HandsToItself(s) && t in HandoverTargets(s) && IsStep(flow, t)
    ensures s.id in rank && t in rank && rank[t] < rank[s.id]
  {
    if t !in RouteTargets(s.onFailure) {
      assert t in ForwardRoutes(s);
      assert Counts(s, t);
      assert ForwardEdge(flow, s.id, t);
    }
  }
}
