/** Writes beside a submit. Job handles and notes are written outside the run's lock, so they
    may land between any two batches of a submit. Nothing the engine or the planned batches
    depend on reads them: whatever lands wherever, the store is as the submits alone would
    have left it, but for those handles and notes. */
module Asides {
  import opened Wrappers
  import opened FlowTypes
  import opened RunTypes
  import opened Engine
  import opened Ports
  import opened Store
  import opened Scheduler
  import opened Core
  import opened Refinement
  import opened Machine
  import opened Invariants
  import opened Stored
  import Recovery

  // ----- single store effects -----------------------------------------------------------

  /** A stored run, and the batches that the submit under way has yet to flush. */
  datatype Desk = Desk(view: RunView, pending: seq<seq<Mutation>>)

  /** A submit takes the lock, loads and decides; it flushes one batch; the process stops; or
      something is written beside it. */
  datatype Act = Begin(event: Event) | Flush | Crash | Beside(write: Action)

  predicate Able(d: Desk, a: Act) {
    match a
    case Begin(event) => d.pending == [] && Enabled(RunStateOf(d.view.rec), event)
    case Flush => d.pending != []
    case Crash => true
    case Beside(write) => !write.Submit? && Possible(d.view, write)
  }

  function Acted(d: Desk, a: Act): Desk {
    match a
    case Begin(event) => d.(pending := BatchesFor(d.view, event))
    case Flush =>
      if d.pending == [] then d
      else (match ApplyBatch(d.view, d.pending[0])
            case Err(_) => Desk(d.view, [])
            case Ok(v) => Desk(v, d.pending[1..]))
    case Crash => d.(pending := [])
    case Beside(write) => if write.Submit? then d else d.(view := Happens(d.view, write))
  }

  function DeskAfter(v: RunView, acts: seq<Act>): Desk {
    if acts == [] then Desk(v, []) else Acted(DeskAfter(v, acts[..|acts| - 1]), acts[|acts| - 1])
  }

  ghost predicate Episode(v: RunView, acts: seq<Act>) {
    acts == [] || (Episode(v, acts[..|acts| - 1]) && Able(DeskAfter(v, acts[..|acts| - 1]), acts[|acts| - 1]))
  }

  // ----- the same but for handles and notes ---------------------------------------------

  /** The records of a trail that say something about a status or the end. */
  function Told(trail: seq<RunEventRecord>): seq<RunEventRecord> {
    if trail == [] then []
    else
      var n := |trail| - 1;
      Told(trail[..n]) + (if SideNote(trail[n]) then [] else [trail[n]])
  }

  ghost predicate SameRows(a: seq<StepRecord>, b: seq<StepRecord>) {
    |a| == |b| && forall i :: 0 <= i < |a| ==> a[i].run == b[i].run
  }

  ghost predicate SameRec(x: RunRecord, y: RunRecord) {
    x.(steps := []) == y.(steps := []) && SameRows(x.steps, y.steps)
  }

  ghost predicate SameBut(v: RunView, w: RunView) {
    SameRec(v.rec, w.rec) && Told(Trail(v.log)) == Told(Trail(w.log))
  }

  lemma {:induction false} LatestSame(a: seq<StepRecord>, b: seq<StepRecord>)
    requires SameRows(a, b)
    ensures Latest(a).Keys == Latest(b).Keys && forall id :: id in Latest(a) ==> Latest(a)[id].run == Latest(b)[id].run
  {
    if a != [] { LatestSame(a[..|a| - 1], b[..|b| - 1]); }
  }

  lemma StateSame(x: RunRecord, y: RunRecord)
    requires SameRec(x, y)
    ensures RunStateOf(x) == RunStateOf(y) && x.definition == y.definition && x.phase == y.phase
  {
    LatestSame(x.steps, y.steps);
    hide Latest, SameRows;
    assert x.(steps := []).definition == y.(steps := []).definition;
    assert x.(steps := []).cancelled == y.(steps := []).cancelled;
    assert x.(steps := []).phase == y.(steps := []).phase;
    assert RunStateOf(x).steps == RunStateOf(y).steps;
  }

  lemma LatestRowSame(x: RunRecord, y: RunRecord, id: StepId)
    requires SameRec(x, y)
    ensures LatestRow(x, id).Some? == LatestRow(y, id).Some?
    ensures LatestRow(x, id).Some? ==> LatestRow(x, id).value.run == LatestRow(y, id).value.run
  {
    LatestSame(x.steps, y.steps);
    hide Latest, SameRows;
  }

  // ----- one mutation -------------------------------------------------------------------

  lemma {:induction false} FindSame(a: seq<StepRecord>, b: seq<StepRecord>, id: StepId, attempt: nat)
    requires SameRows(a, b)
    ensures FindRow(a, id, attempt) == FindRow(b, id, attempt)
  {
    if a != [] { FindSame(a[1..], b[1..], id, attempt); }
  }

  lemma {:induction false} WithoutSame(a: seq<StepRecord>, b: seq<StepRecord>, id: StepId, attempt: nat)
    requires SameRows(a, b)
    ensures SameRows(Without(a, id, attempt), Without(b, id, attempt))
  {
    if a != [] { WithoutSame(a[..|a| - 1], b[..|b| - 1], id, attempt); }
  }

  ghost predicate SameResult(r: Result<RunRecord, StoreError>, s: Result<RunRecord, StoreError>) {
    (r.Ok? <==> s.Ok?) && (r.Ok? ==> SameRec(r.value, s.value))
  }

  lemma MutationSame(x: RunRecord, y: RunRecord, m: Mutation)
    requires SameRec(x, y)
    ensures SameResult(ApplyMutation(x, m), ApplyMutation(y, m))
  {
    if m.InsertStepRun? {
      WithoutSame(x.steps, y.steps, m.step.run.stepId, m.step.run.attempt);
    } else if PatchesRow(m) {
      FindSame(x.steps, y.steps, m.stepId, m.attempt);
    }
  }

  lemma {:induction false} AllSame(x: RunRecord, y: RunRecord, ms: seq<Mutation>)
    requires SameRec(x, y)
    ensures SameResult(ApplyAll(x, ms), ApplyAll(y, ms))
  {
    hide SameRec, ApplyMutation;
    if ms != [] {
      var n := |ms| - 1;
      AllSame(x, y, ms[..n]);
      if ApplyAll(x, ms[..n]).Ok? { MutationSame(ApplyAll(x, ms[..n]).value, ApplyAll(y, ms[..n]).value, ms[n]); }
    }
  }

  lemma TrailSnoc(log: seq<StoredRunEvent>, e: StoredRunEvent)
    ensures Trail(log + [e]) == Trail(log) + [e.record]
    ensures Told(Trail(log + [e])) == Told(Trail(log)) + (if SideNote(e.record) then [] else [e.record])
  {
    assert (log + [e])[..|log|] == log;
    assert (Trail(log) + [e.record])[..|Trail(log)|] == Trail(log);
  }

  lemma {:induction false} ToldSame(a: seq<StoredRunEvent>, b: seq<StoredRunEvent>, ms: seq<Mutation>)
    requires Told(Trail(a)) == Told(Trail(b))
    ensures Told(Trail(AppendAll(a, ms))) == Told(Trail(AppendAll(b, ms)))
  {
    hide Told, Trail, SideNote;
    if ms != [] {
      var n := |ms| - 1;
      ToldSame(a, b, ms[..n]);
      if ms[n].AppendEvent? {
        var c, d := AppendAll(a, ms[..n]), AppendAll(b, ms[..n]);
        TrailSnoc(c, StoredRunEvent(NextSequence(c), ms[n].event));
        TrailSnoc(d, StoredRunEvent(NextSequence(d), ms[n].event));
      }
    }
  }

  /** A batch is taken or refused alike, and leaves views that are the same again. */
  lemma BatchSame(v: RunView, w: RunView, ms: seq<Mutation>)
    requires SameBut(v, w)
    ensures ApplyBatch(v, ms).Ok? <==> ApplyBatch(w, ms).Ok?
    ensures ApplyBatch(v, ms).Ok? ==> SameBut(ApplyBatch(v, ms).value, ApplyBatch(w, ms).value)
  {
    AllSame(v.rec, w.rec, ms);
    ToldSame(v.log, w.log, ms);
    hide SameRec, ApplyAll, AppendAll, Told, Trail;
  }

  // ----- what is planned ----------------------------------------------------------------

  lemma BuildsSame(x: RunRecord, y: RunRecord, act: StepActivation)
    requires SameRec(x, y)
    ensures ActivationBuilds(x, act) == ActivationBuilds(y, act)
  {
    StateSame(x, y);
    hide RequestBuilds, BuildContext, RunStateOf, SameRec;
  }

  lemma {:induction false} CancelSame(x: RunRecord, y: RunRecord, ids: seq<StepId>)
    requires SameRec(x, y)
    ensures CancelAll(x, ids) == CancelAll(y, ids)
  {
    if ids != [] {
      CancelSame(x, y, ids[..|ids| - 1]);
      LatestRowSame(x, y, ids[|ids| - 1]);
      hide LatestRow, SameRec;
    }
  }

  lemma WritesSame(x: RunRecord, y: RunRecord, event: Event, cmd: Command)
    requires SameRec(x, y) && !cmd.ActivateSteps?
    ensures Writes(x, event, cmd) == Writes(y, event, cmd)
  {
    match cmd {
      case WaitApproval(id) => LatestRowSame(x, y, id);
      case CancelSteps(ids) => CancelSame(x, y, ids);
      case MarkStepStatus(id, status) => LatestRowSame(x, y, id);
      case _ =>
    }
    hide LatestRow, SameRec, CancelAll, EventData, StatusNote;
  }

  lemma {:induction false} PlanSame(x: RunRecord, y: RunRecord, event: Event, cmds: seq<Command>,
                                    pending: seq<Mutation>)
    requires SameRec(x, y)
    ensures Plan(x, event, cmds, pending) == Plan(y, event, cmds, pending)
    decreases |cmds|
  {
    hide SameRec, ActivationBuilds, Writes, AllActivationWrites;
    if cmds != [] {
      if cmds[0].ActivateSteps? {
        forall act ensures ActivationBuilds(x, act) == ActivationBuilds(y, act) { BuildsSame(x, y, act); }
        PlanSame(x, y, event, cmds[1..], []);
      } else {
        WritesSame(x, y, event, cmds[0]);
        var ms := Writes(x, event, cmds[0]);
        if ms.Ok? { PlanSame(x, y, event, cmds[1..], pending + ms.value); }
      }
    }
  }

  lemma BatchesSame(v: RunView, w: RunView, event: Event)
    requires SameBut(v, w)
    ensures BatchesFor(v, event) == BatchesFor(w, event)
  {
    StateSame(v.rec, w.rec);
    hide SameRec, RunStateOf, Plan, Decide, Told, Trail;
    match Decide(v.rec.definition, RunStateOf(v.rec), event) {
      case Ok(cmds) => PlanSame(v.rec, w.rec, event, cmds, []);
      case Err(_) =>
    }
  }

  // ----- what lands beside --------------------------------------------------------------

  lemma HandleSame(v: RunView, m: Mutation)
    requires m.SetJobId?
    ensures ApplyBatch(v, [m]).Ok? ==> SameBut(ApplyBatch(v, [m]).value, v)
  {
    SingleBatch(v, m);
    hide Told, Trail;
  }

  lemma NoteSame(v: RunView, e: RunEventRecord)
    requires SideNote(e)
    ensures ApplyBatch(v, [AppendEvent(e)]).Ok? && SameBut(ApplyBatch(v, [AppendEvent(e)]).value, v)
  {
    SingleBatch(v, AppendEvent(e));
    hide Told, Trail;
    TrailSnoc(v.log, StoredRunEvent(NextSequence(v.log), e));
  }

  lemma SameChain(u: RunView, v: RunView, w: RunView)
    requires SameBut(u, v) && SameBut(v, w)
    ensures SameBut(u, w)
  {
    hide Told, Trail;
  }

  lemma FlushedOne(v: RunView, ms: seq<Mutation>)
    ensures ApplyBatches(v, [ms]) == if ApplyBatch(v, ms).Ok? then ApplyBatch(v, ms).value else v
  {
    hide ApplyBatch;
    assert [ms][1..] == [];
    if ApplyBatch(v, ms).Ok? { assert ApplyBatches(ApplyBatch(v, ms).value, []) == ApplyBatch(v, ms).value; }
  }

  /** A job handle or a note changes nothing else, whenever it lands. */
  lemma BesideSame(v: RunView, write: Action)
    requires !write.Submit? && Possible(v, write)
    ensures SameBut(Happens(v, write), v)
  {
    hide ApplyBatch, ApplyBatches, SameBut;
    Unchanged(v);
    match write {
      case JobStarted(id, n, job) =>
        var m, e := SetJobId(id, n, Some(job)), RunEventRecord(StepStarted, Some(id));
        assert [m] + [AppendEvent(e)] == [m, Note(StepStarted, id)];
        FlushedOne(v, [m, Note(StepStarted, id)]);
        BatchSplits(v, [m], [AppendEvent(e)]);
        HandleSame(v, m);
        if ApplyBatch(v, [m]).Ok? {
          var w := ApplyBatch(v, [m]).value;
          NoteSame(w, e);
          SameChain(ApplyBatch(w, [AppendEvent(e)]).value, w, v);
        }
      case Log(e) =>
        FlushedOne(v, [AppendEvent(e)]);
        NoteSame(v, e);
      case Submit(_, _) =>
    }
  }

  lemma Unchanged(v: RunView)
    ensures SameBut(v, v)
  {
  }

  // ----- the submits alone --------------------------------------------------------------

  /** How far the submit under way has got. */
  datatype Progress = Idle | Midway(event: Event, k: nat)

  function Flushed(w: RunView, event: Event, k: nat): seq<seq<Mutation>>
    requires k <= |BatchesFor(w, event)|
  {
    BatchesFor(w, event)[..k]
  }

  ghost predicate AllSubmits(actions: seq<Action>) {
    forall a :: a in actions ==> a.Submit?
  }

  /** The desk is where these submits alone, and the first `k` batches of one more, lead. */
  ghost predicate Follows(d: Desk, w: RunView, p: Progress) {
    match p
    case Idle => d.pending == [] && SameBut(d.view, w)
    case Midway(event, k) =>
      && Enabled(RunStateOf(w.rec), event) && k <= |BatchesFor(w, event)|
      && d.pending == BatchesFor(w, event)[k..] && BatchesApply(w, Flushed(w, event, k))
      && SameBut(d.view, ApplyBatches(w, Flushed(w, event, k)))
  }

  lemma {:induction false} OneMoreBatch(w: RunView, bs: seq<seq<Mutation>>, b: seq<Mutation>)
    requires BatchesApply(w, bs)
    ensures var u := ApplyBatches(w, bs);
            && ApplyBatches(w, bs + [b]) == (if ApplyBatch(u, b).Ok? then ApplyBatch(u, b).value else u)
            && (BatchesApply(w, bs + [b]) <==> ApplyBatch(u, b).Ok?)
    decreases |bs|
  {
    hide ApplyBatch;
    if bs == [] {
      assert [] + [b] == [b] && [b][1..] == [];
    } else {
      assert (bs + [b])[1..] == bs[1..] + [b];
      OneMoreBatch(ApplyBatch(w, bs[0]).value, bs[1..], b);
    }
  }

  /** The actions with the submit under way taken as stopped where it is. */
  function Closed(actions: seq<Action>, p: Progress): seq<Action> {
    match p
    case Idle => actions
    case Midway(event, k) => actions + [Submit(event, k)]
  }

  lemma CloseUp(v: RunView, d: Desk, actions: seq<Action>, p: Progress)
    requires History(v, actions) && AllSubmits(actions) && Follows(d, StoredAfter(v, actions), p)
    ensures History(v, Closed(actions, p)) && AllSubmits(Closed(actions, p))
    ensures SameBut(d.view, StoredAfter(v, Closed(actions, p)))
  {
    if p.Midway? {
      hide SameBut, Enabled, BatchesFor, RunStateOf;
      assert (actions + [Submit(p.event, p.k)])[..|actions|] == actions;
    }
  }

  lemma ActFollows(v: RunView, d: Desk, actions: seq<Action>, p: Progress, a: Act)
    returns (more: seq<Action>, q: Progress)
    requires History(v, actions) && AllSubmits(actions) && Follows(d, StoredAfter(v, actions), p) && Able(d, a)
    ensures History(v, more) && AllSubmits(more) && Follows(Acted(d, a), StoredAfter(v, more), q)
  {
    hide *;
    more, q := actions, p;
    match a {
      case Begin(event) =>
        CloseUp(v, d, actions, p);
        more, q := Closed(actions, p), Midway(event, 0);
        BeginFollows(d, StoredAfter(v, more), event);
      case Flush =>
        var stays := FlushFollows(d, StoredAfter(v, actions), p);
        if stays {
          q := Midway(p.event, p.k + 1);
        } else {
          CloseUp(v, d, actions, p);
          more, q := Closed(actions, p), Idle;
          StopFollows(d, StoredAfter(v, more));
          FlushRefused(d);
        }
      case Crash =>
        CloseUp(v, d, actions, p);
        more, q := Closed(actions, p), Idle;
        StopFollows(d, StoredAfter(v, more));
        CrashStops(d);
      case Beside(write) =>
        BesideFollows(d, StoredAfter(v, actions), p, write);
    }
  }

  lemma BeginFollows(d: Desk, w: RunView, event: Event)
    requires SameBut(d.view, w) && Able(d, Begin(event))
    ensures Follows(Acted(d, Begin(event)), w, Midway(event, 0))
  {
    StateSame(d.view.rec, w.rec);
    BatchesSame(d.view, w, event);
    hide SameRec, Enabled, BatchesFor, RunStateOf, Told, Trail;
    assert BatchesFor(w, event)[0..] == BatchesFor(w, event);
  }

  /** A desk whose submit has stopped. */
  lemma StopFollows(d: Desk, w: RunView)
    requires SameBut(d.view, w)
    ensures Follows(Desk(d.view, []), w, Idle)
  {
    hide SameBut;
  }

  lemma CrashStops(d: Desk)
    ensures Acted(d, Crash) == Desk(d.view, [])
  {
  }

  /** A flush either leads on, or is refused and ends the submit. */
  lemma FlushFollows(d: Desk, w: RunView, p: Progress) returns (stays: bool)
    requires Follows(d, w, p) && Able(d, Flush)
    ensures d.pending != [] && (!stays <==> ApplyBatch(d.view, d.pending[0]).Err?)
    ensures stays ==> p.Midway? && Follows(Acted(d, Flush), w, Midway(p.event, p.k + 1))
  {
    hide *;
    MidwayIs(d, w, p);
    var bs, k := BatchesFor(w, p.event), p.k;
    var u := ApplyBatches(w, bs[..k]);
    assert bs[..k] + [bs[k]] == bs[..k + 1];
    OneMoreBatch(w, bs[..k], bs[k]);
    BatchSame(d.view, u, bs[k]);
    stays := ApplyBatch(d.view, d.pending[0]).Ok?;
    if stays { FlushedMidway(d, w, p.event, k); }
  }

  lemma MidwayIs(d: Desk, w: RunView, p: Progress)
    requires Follows(d, w, p) && Able(d, Flush)
    ensures p.Midway? && p.k < |BatchesFor(w, p.event)| && Enabled(RunStateOf(w.rec), p.event)
    ensures d.pending != [] && d.pending == BatchesFor(w, p.event)[p.k..] && d.pending[0] == BatchesFor(w, p.event)[p.k]
    ensures BatchesApply(w, BatchesFor(w, p.event)[..p.k])
    ensures SameBut(d.view, ApplyBatches(w, BatchesFor(w, p.event)[..p.k]))
  {
    hide SameBut, BatchesFor, Enabled, RunStateOf, ApplyBatches, BatchesApply;
  }

  lemma FlushedMidway(d: Desk, w: RunView, event: Event, k: nat)
    requires k < |BatchesFor(w, event)| && Enabled(RunStateOf(w.rec), event) && d.pending == BatchesFor(w, event)[k..]
    requires ApplyBatch(d.view, d.pending[0]).Ok? && BatchesApply(w, BatchesFor(w, event)[..k + 1])
    requires SameBut(ApplyBatch(d.view, d.pending[0]).value, ApplyBatches(w, BatchesFor(w, event)[..k + 1]))
    ensures Follows(Acted(d, Flush), w, Midway(event, k + 1))
  {
    hide SameBut, BatchesFor, Enabled, RunStateOf, ApplyBatch, ApplyBatches, BatchesApply;
    assert BatchesFor(w, event)[k..][1..] == BatchesFor(w, event)[k + 1..];
  }

  lemma FlushRefused(d: Desk)
    requires d.pending != [] && ApplyBatch(d.view, d.pending[0]).Err?
    ensures Acted(d, Flush) == Desk(d.view, [])
  {
    hide ApplyBatch;
  }

  lemma BesideFollows(d: Desk, w: RunView, p: Progress, write: Action)
    requires Follows(d, w, p) && Able(d, Beside(write))
    ensures Follows(Acted(d, Beside(write)), w, p)
  {
    BesideSame(d.view, write);
    hide SameBut, Possible, Happens, BatchesFor, Enabled, RunStateOf;
    var target := if p.Idle? then w else ApplyBatches(w, Flushed(w, p.event, p.k));
    SameChain(Happens(d.view, write), d.view, target);
  }

  lemma {:induction false} EpisodeFollows(v: RunView, acts: seq<Act>) returns (actions: seq<Action>, p: Progress)
    requires Episode(v, acts)
    ensures History(v, actions) && AllSubmits(actions) && Follows(DeskAfter(v, acts), StoredAfter(v, actions), p)
    decreases |acts|
  {
    hide Able, Acted, Follows, StoredAfter, History;
    if acts == [] {
      actions, p := [], Idle;
      NothingYet(v);
    } else {
      var n := |acts| - 1;
      actions, p := EpisodeFollows(v, acts[..n]);
      actions, p := ActFollows(v, DeskAfter(v, acts[..n]), actions, p, acts[n]);
    }
  }

  lemma NothingYet(v: RunView)
    ensures History(v, []) && AllSubmits([]) && StoredAfter(v, []) == v && Follows(Desk(v, []), v, Idle)
  {
    Unchanged(v);
    hide SameBut;
  }

  /** What lands beside or between the batches of submits is invisible: at every moment of every
      episode the view is the same, but for job handles and notes, as after some history of the
      submits alone, the last one perhaps stopped midway. */
  lemma AsidesInvisible(v: RunView, acts: seq<Act>) returns (actions: seq<Action>)
    requires Episode(v, acts)
    ensures History(v, actions) && AllSubmits(actions) && SameBut(DeskAfter(v, acts).view, StoredAfter(v, actions))
  {
    hide *;
    var before, p := EpisodeFollows(v, acts);
    CloseUp(v, DeskAfter(v, acts), before, p);
    actions := Closed(before, p);
  }

  /** So every episode shows, but for handles and notes, a state that some play reaches. */
  lemma SimulatesBetween(v: RunView, flow: Flow, start: Run, acts: seq<Act>) returns (moves: seq<Move>, w: RunView)
    requires Shows(v, flow, start) && NoVerdictYet(start.state.steps) && Episode(v, acts)
    ensures Playable(flow, start, moves) && Shows(w, flow, Play(flow, start, moves))
    ensures SameBut(DeskAfter(v, acts).view, w)
  {
    hide *;
    var actions := AsidesInvisible(v, acts);
    moves := Simulates(v, flow, start, actions);
    w := StoredAfter(v, actions);
  }

  // ----- what the store holds at every moment -------------------------------------------

  lemma OneSaid(trail: seq<RunEventRecord>, e: RunEventRecord, id: StepId)
    ensures LastSaid(trail + [e], id) ==
            if e.stepId == Some(id) && StatusType(e.eventType) then Some(e.eventType) else LastSaid(trail, id)
    ensures CountEnds(trail + [e]) == CountEnds(trail) + (if EndRecord(e) then 1 else 0)
    ensures SideNote(e) ==>
              LastSaid(trail + [e], id) == LastSaid(trail, id) && CountEnds(trail + [e]) == CountEnds(trail)
  {
    assert (trail + [e])[..|trail|] == trail;
  }

  lemma ToldLast(trail: seq<RunEventRecord>)
    requires trail != []
    ensures var n := |trail| - 1;
            Told(trail) == (if SideNote(trail[n]) then Told(trail[..n]) else Told(trail[..n]) + [trail[n]])
  {
    hide SideNote;
    Nothing(Told(trail[..|trail| - 1]));
  }

  lemma Nothing(trail: seq<RunEventRecord>)
    ensures trail + [] == trail
  {
  }

  lemma Rejoined(trail: seq<RunEventRecord>)
    requires trail != []
    ensures trail[..|trail| - 1] + [trail[|trail| - 1]] == trail
  {
  }

  /** Notes say nothing of a status and end nothing. */
  lemma {:induction false} ToldSays(trail: seq<RunEventRecord>, id: StepId)
    ensures LastSaid(Told(trail), id) == LastSaid(trail, id) && CountEnds(Told(trail)) == CountEnds(trail)
  {
    if trail == [] {
      assert Told(trail) == [];
    } else {
      hide *;
      var n := |trail| - 1;
      ToldLast(trail);
      Rejoined(trail);
      ToldSays(trail[..n], id);
      OneSaid(trail[..n], trail[n], id);
      OneSaid(Told(trail[..n]), trail[n], id);
    }
  }

  lemma {:induction false} BatchesSequenced(v: RunView, batches: seq<seq<Mutation>>)
    requires Sequenced(v.log)
    ensures Sequenced(ApplyBatches(v, batches).log)
    decreases |batches|
  {
    if batches != [] && ApplyBatch(v, batches[0]).Ok? {
      LogGrows(v.log, batches[0]);
      BatchesSequenced(ApplyBatch(v, batches[0]).value, batches[1..]);
    }
  }

  lemma {:induction false} DeskSequenced(v: RunView, acts: seq<Act>)
    requires Sequenced(v.log)
    ensures Sequenced(DeskAfter(v, acts).view.log)
  {
    if acts != [] {
      var n := |acts| - 1;
      DeskSequenced(v, acts[..n]);
      ActSequenced(DeskAfter(v, acts[..n]), acts[n]);
      hide Acted, Sequenced;
    }
  }

  lemma ActSequenced(d: Desk, a: Act)
    requires Sequenced(d.view.log)
    ensures Sequenced(Acted(d, a).view.log)
  {
    match a {
      case Flush => if d.pending != [] { LogGrows(d.view.log, d.pending[0]); }
      case Beside(write) =>
        match write {
          case JobStarted(id, n, job) => BatchesSequenced(d.view,
                                                          [[SetJobId(id, n, Some(job)), Note(StepStarted, id)]]);
          case Log(e) => BatchesSequenced(d.view, [[AppendEvent(e)]]);
          case Submit(_, _) =>
        }
      case _ =>
    }
    hide Sequenced, ApplyBatch, ApplyBatches;
  }

  /** The phase, the rows and the log of a view agree: Running exactly while a latest attempt is
      active, one end record exactly when the run is over, and the last record about a step is
      that of its latest status. */
  ghost predicate Agrees(v: RunView) {
    var steps := RunStateOf(v.rec).steps;
    && (v.rec.steps != [] ==> (v.rec.phase == RunPhase.Running <==> SomeActive(RunStateOf(v.rec))))
    && CountEnds(Trail(v.log)) == (if v.rec.phase == RunPhase.Running then 0 else 1)
    && (forall id :: id in steps && !steps[id].status.Cancelled? ==>
          LastSaid(Trail(v.log), id) == SaidBy(steps[id].status))
  }

  lemma PlainAgrees(id: RunId, new_: NewRun, actions: seq<Action>)
    requires History(NewView(id, new_), actions)
    ensures Agrees(StoredAfter(NewView(id, new_), actions))
  {
    StoredRunAgrees(id, new_, actions);
    hide StoredAfter, RunStateOf, LastSaid, CountEnds, Trail, SaidBy, NewView, History;
  }

  lemma SameAgrees(v: RunView, w: RunView)
    requires SameBut(v, w) && Agrees(w)
    ensures Agrees(v)
  {
    SameParts(v, w);
    hide RunStateOf, LastSaid, CountEnds, Trail, SaidBy, SameBut, SomeActive;
    forall id ensures LastSaid(Trail(v.log), id) == LastSaid(Trail(w.log), id)
                      && CountEnds(Trail(v.log)) == CountEnds(Trail(w.log)) {
      ToldSays(Trail(v.log), id);
      ToldSays(Trail(w.log), id);
    }
    assert CountEnds(Trail(v.log))
        == CountEnds(Trail(w.log)) by { ToldSays(Trail(v.log), ""); ToldSays(Trail(w.log), ""); }
  }

  /** At every moment of every episode of a run, within a submit too: the view agrees with
      itself, sequences are exactly 1 to n, and recovery acts on a run still marked Running. */
  lemma StoredBetween(id: RunId, new_: NewRun, acts: seq<Act>)
    requires Episode(NewView(id, new_), acts)
    ensures var v := DeskAfter(NewView(id, new_), acts).view;
            Agrees(v) && Sequenced(v.log) && (v.rec.phase == RunPhase.Running ==> Recovery.PlanFor(v.rec) != [])
  {
    var v := DeskAfter(NewView(id, new_), acts).view;
    hide *;
    EmptyLog(id, new_);
    DeskSequenced(NewView(id, new_), acts);
    var actions := AsidesInvisible(NewView(id, new_), acts);
    PlainAgrees(id, new_, actions);
    SameAgrees(v, StoredAfter(NewView(id, new_), actions));
    Recovers(v);
  }

  lemma EmptyLog(id: RunId, new_: NewRun)
    ensures Sequenced(NewView(id, new_).log)
  {
  }

  lemma Recovers(v: RunView)
    requires Agrees(v)
    ensures v.rec.phase == RunPhase.Running ==> Recovery.PlanFor(v.rec) != []
  {
    Recovery.PlanCovers(v.rec, "");
    hide RunStateOf, LastSaid, CountEnds, Trail, SaidBy, Recovery.PlanFor, SomeActive;
  }

  lemma SameParts(v: RunView, w: RunView)
    requires SameBut(v, w)
    ensures RunStateOf(v.rec) == RunStateOf(w.rec) && v.rec.phase == w.rec.phase
    ensures (v.rec.steps == [] <==> w.rec.steps == [])
    ensures Told(Trail(v.log)) == Told(Trail(w.log))
  {
    StateSame(v.rec, w.rec);
    hide RunStateOf, Told, Trail;
  }
}
