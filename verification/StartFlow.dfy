/** Starting a flow exactly once: callers that find, create and find again, in any
    interleaving of their store effects. */
module StartFlow {
  import opened Wrappers
  import opened FlowTypes
  import opened Ports
  import opened Store

  datatype Request = Request(definition: Flow, inputs: Value, trigger: Value, key: Option<string>)

  // ----- required inputs ----------------------------------------------------------------

  /** An input is missing when it is absent or null. */
  predicate IsMissing(inputs: Value, name: string) {
    inputs.JObject? && name in inputs.fields ==> inputs.fields[name] == JNULL
  }

  method MissingInputs(req: Request) returns (missing: seq<string>)
    ensures forall name :: name in missing <==>
              && name in req.definition.required
              && (req.inputs.JObject? && name in req.inputs.fields ==> req.inputs.fields[name] == JOther("null"))
    ensures missing == [] <==> !Incomplete(req)
  {
    missing := [];
    var required := req.definition.required;
    for i := 0 to |required|
      invariant forall name :: name in missing <==> name in required[..i] && IsMissing(req.inputs, name)
    {
      assert required[..i + 1] == required[..i] + [required[i]];
      if IsMissing(req.inputs, required[i]) { missing := missing + [required[i]]; }
    }
    assert required[..|required|] == required;
    SomeMember(missing);
    assert forall name :: name in missing <==> name in required && IsMissing(req.inputs, name);
  }

  predicate Incomplete(req: Request) {
    exists name :: name in req.definition.required && IsMissing(req.inputs, name)
  }

  // ----- one caller ---------------------------------------------------------------------

  datatype StartError = IncompleteInputs | StoreFailed(error: StoreError)

  /** Where a caller is: between two store effects, or back with an answer. */
  datatype Pc =
    | Checking
    | Finding
    | Creating
    | Refinding
    | Noting(id: RunId)
    | Submitting(id: RunId)
    | Loading(id: RunId, replayed: bool)
    | Returned(id: RunId, replayed: bool)
    | Refused(error: StartError)

  function NewRunOf(req: Request): NewRun {
    NewRun(req.definition, req.inputs, req.trigger, req.key)
  }

  /** The run is one of this request: its flow, its inputs, its trigger and its key. */
  ghost predicate IsOf(rec: RunRecord, req: Request) {
    && rec.definition == req.definition && rec.inputs == req.inputs && rec.trigger == req.trigger
    && rec.idempotencyKey == req.key
  }

  lemma CreatedIsOf(newId: RunId, req: Request)
    ensures IsOf(Created(newId, NewRunOf(req)), req)
  {
  }

  ghost predicate KeyOwned(runs: Runs, key: Option<string>) {
    key.Some? && exists id :: OwnsKey(runs, id, key.value)
  }

  ghost function Owner(runs: Runs, key: Option<string>): (id: RunId)
    requires KeyOwned(runs, key)
    ensures OwnsKey(runs, id, key.value)
  {
    var id :| OwnsKey(runs, id, key.value);
    id
  }

  /** The next store effect of a caller; `newId` is the id a created run gets. */
  ghost function Next(req: Request, pc: Pc, runs: Runs, newId: RunId): (Pc, Runs) {
    match pc
    case Checking =>
      (if Incomplete(req) then Refused(IncompleteInputs) else if req.key.Some? then Finding else Creating, runs)
    case Finding => (if KeyOwned(runs, req.key) then Loading(Owner(runs, req.key), true) else Creating, runs)
    case Creating =>
      if KeyOwned(runs, req.key) then (Refinding, runs)
      else (Noting(newId), runs[newId := Created(newId, NewRunOf(req))])
    case Refinding =>
      (if KeyOwned(runs, req.key) then Loading(Owner(runs, req.key), true)
       else Refused(StoreFailed(Duplicate(if req.key.Some? then req.key.value else ""))), runs)
    case Noting(id) => (if id in runs then Submitting(id) else Refused(StoreFailed(NotFound)), runs)
    case Submitting(id) => (Loading(id, false), runs)
    case Loading(id, replayed) => (if id in runs then Returned(id, replayed) else Refused(StoreFailed(NotFound)), runs)
    case _ => (pc, runs)
  }

  lemma NoteApplies(v: RunView, e: RunEventRecord)
    ensures ApplyBatch(v, [AppendEvent(e)]) == Ok(RunView(v.rec, AppendAll(v.log, [AppendEvent(e)])))
  {
    assert [AppendEvent(e)][..0] == [] && ApplyAll(v.rec, []) == Ok(v.rec) && AppendAll(v.log, []) == v.log;
  }

  /** The same step against the store. */
  method Advance(store: InMemoryStateStore, req: Request, pc: Pc, newId: RunId)
      returns (next: Pc, submit: Option<RunId>)
    requires DistinctKeys(store.runs) && newId !in store.runs
    modifies store`runs, store`events
    ensures (next, store.runs) == Next(req, pc, old(store.runs), newId)
    ensures pc.Creating? ==>
              (next == Noting(newId) <==> !exists id :: req.key.Some? && OwnsKey(old(store.runs), id, req.key.value))
    ensures pc.Creating? && next == Noting(newId) ==>
              && newId in store.runs && store.runs == old(store.runs)[newId := store.runs[newId]]
              && IsOf(store.runs[newId], req) && store.runs[newId].runId == newId
              && store.runs[newId].phase.Running? && !store.runs[newId].cancelled && store.runs[newId].steps == []
    ensures submit == if pc.Submitting? then Some(pc.id) else None
    ensures pc.Noting? && pc.id in store.runs ==>
              LogOf(store.events, pc.id)
                  == AppendAll(old(LogOf(store.events, pc.id)),
                               [AppendEvent(RunEventRecord(RunEventType.RunStarted, None))])
    ensures !pc.Noting? ==> store.events == old(store.events)
  {
    next, submit := pc, None;
    match pc {
      case Checking =>
        var missing := MissingInputs(req);
        next := if missing != [] then Refused(IncompleteInputs) else if req.key.Some? then Finding else Creating;
      case Finding =>
        if req.key.Some? {
          var found := store.FindByIdempotencyKey(req.key.value);
          next := if found.Some? then Loading(found.value, true) else Creating;
        } else {
          next := Creating;
        }
      case Creating =>
        var created := store.CreateRun(NewRunOf(req), newId);
        match created {
          case Ok(id) => next := Noting(id);
          case Err(_) => next := Refinding;
        }
      case Refinding =>
        next := Refused(StoreFailed(Duplicate(if req.key.Some? then req.key.value else "")));
        if req.key.Some? {
          var found := store.FindByIdempotencyKey(req.key.value);
          if found.Some? { next := Loading(found.value, true); }
        }
      case Noting(id) =>
        ghost var before := store.runs;
        if id in store.runs { NoteApplies(store.View(id), RunEventRecord(RunEventType.RunStarted, None)); }
        var applied := store.Apply(id, [AppendEvent(RunEventRecord(RunEventType.RunStarted, None))]);
        assert store.runs == before by {
          if id in before { assert store.runs[id] == store.View(id).rec; }
        }
        next := if applied.Ok? then Submitting(id) else Refused(StoreFailed(applied.error));
      case Submitting(id) =>
        next, submit := Loading(id, false), Some(id);
      case Loading(id, replayed) =>
        var record := store.LoadRun(id);
        next := if record.Ok? then Returned(id, replayed) else Refused(StoreFailed(record.error));
      case _ =>
    }
  }

  // ----- many callers -------------------------------------------------------------------

  datatype Caller = Caller(req: Request, pc: Pc)

  datatype World = World(runs: Runs, callers: seq<Caller>, submitted: multiset<RunId>)

  /** One caller takes its next effect, or the rest of the system writes to existing runs. */
  datatype Turn = Take(caller: nat, newId: RunId) | Elsewhere(runs: Runs)

  /** What a run was created with stays. */
  ghost predicate SameRequest(a: RunRecord, b: RunRecord) {
    && b.definition == a.definition && b.inputs == a.inputs && b.trigger == a.trigger
    && b.idempotencyKey == a.idempotencyKey
  }

  ghost predicate SameRequests(a: Runs, b: Runs) {
    a.Keys == b.Keys && forall id :: id in a ==> SameRequest(a[id], b[id])
  }

  /** No batch of writes changes it. */
  lemma {:induction false} WritesKeepRequest(v: RunView, ms: seq<Mutation>)
    requires ApplyBatch(v, ms).Ok?
    ensures SameRequest(v.rec, ApplyBatch(v, ms).value.rec)
  {
    if ms != [] {
      var n := |ms| - 1;
      WritesKeepRequest(v, ms[..n]);
      hide ApplyAll, AppendAll;
      assert ApplyAll(v.rec, ms).Ok?;
    }
  }

  ghost predicate CanTurn(w: World, t: Turn) {
    match t
    case Take(i, newId) => i < |w.callers| && newId !in w.runs
    case Elsewhere(runs) => SameRequests(w.runs, runs)
  }

  ghost function Turned(w: World, t: Turn): World {
    if !CanTurn(w, t) then w
    else match t
    case Elsewhere(runs) => w.(runs := runs)
    case Take(i, newId) =>
      var c := w.callers[i];
      var step := Next(c.req, c.pc, w.runs, newId);
      World(step.1, w.callers[i := c.(pc := step.0)],
            if c.pc.Submitting? then w.submitted + multiset{c.pc.id} else w.submitted)
  }

  ghost predicate Interleaving(start: World, turns: seq<Turn>) {
    turns == [] ||
    (Interleaving(start, turns[..|turns| - 1]) && CanTurn(WorldAfter(start, turns[..|turns| - 1]), turns[|turns| - 1]))
  }

  ghost function WorldAfter(start: World, turns: seq<Turn>): World {
    if turns == [] then start else Turned(WorldAfter(start, turns[..|turns| - 1]), turns[|turns| - 1])
  }

  /** Callers about to start, on runs that may hold keys already. */
  ghost predicate Fresh(start: World) {
    && DistinctKeys(start.runs)
    && (forall i :: 0 <= i < |start.callers| ==> start.callers[i].pc == Checking)
    && start.submitted == multiset{}
  }

  // ----- the invariant ------------------------------------------------------------------

  /** The callers that created the run they work on. */
  predicate Creator(pc: Pc) {
    pc.Noting? || pc.Submitting? || ((pc.Loading? || pc.Returned?) && !pc.replayed)
  }

  predicate HasRun(pc: Pc) {
    pc.Noting? || pc.Submitting? || pc.Loading? || pc.Returned?
  }

  predicate Submitted(pc: Pc) {
    (pc.Loading? || pc.Returned?) && !pc.replayed
  }

  ghost predicate CallerSound(start: Runs, runs: Runs, c: Caller) {
    && (HasRun(c.pc) ==> c.pc.id in runs && runs[c.pc.id].idempotencyKey == c.req.key)
    && (HasRun(c.pc) && !Creator(c.pc) ==> c.req.key.Some?)
    && (Creator(c.pc) ==> c.pc.id !in start && IsOf(runs[c.pc.id], c.req))
    && (c.pc.Finding? ==> c.req.key.Some?)
    && (c.pc.Refinding? ==> KeyOwned(runs, c.req.key))
    && (Incomplete(c.req) ==> c.pc.Checking? || c.pc == Refused(IncompleteInputs))
    && (c.pc.Refused? ==> Incomplete(c.req))
  }

  ghost predicate Creates(w: World, i: nat, id: RunId) {
    i < |w.callers| && Creator(w.callers[i].pc) && w.callers[i].pc.id == id
  }

  /** No run has two creators, and every new run has one. */
  ghost predicate OneCreator(start: Runs, w: World) {
    && (forall i: nat, j: nat, id :: Creates(w, i, id) && Creates(w, j, id) ==> i == j)
    && (forall id :: id in w.runs && id !in start ==> exists i: nat :: Creates(w, i, id))
    && (forall i: nat, id :: Creates(w, i, id) ==> id in w.runs)
  }

  /** A run was submitted as often as its creator got past submitting it: once or not yet. */
  ghost predicate Counted(w: World) {
    && (forall i: nat, id :: Creates(w, i, id) ==> w.submitted[id] == if Submitted(w.callers[i].pc) then 1 else 0)
    && (forall id :: w.submitted[id] > 0 ==> exists i: nat :: Creates(w, i, id))
  }

  ghost predicate AllSound(start: Runs, w: World) {
    forall i :: 0 <= i < |w.callers| ==> CallerSound(start, w.runs, w.callers[i])
  }

  ghost predicate Kept(start: Runs, runs: Runs) {
    && start.Keys <= runs.Keys
    && (forall id :: id in start ==> SameRequest(start[id], runs[id]))
    && DistinctKeys(runs)
  }

  ghost predicate Once(start: Runs, w: World) {
    Kept(start, w.runs) && AllSound(start, w) && OneCreator(start, w) && Counted(w)
  }

  lemma NextSound(start: Runs, runs: Runs, c: Caller, newId: RunId)
    requires start.Keys <= runs.Keys && DistinctKeys(runs) && CallerSound(start, runs, c) && newId !in runs
    ensures var step := Next(c.req, c.pc, runs, newId);
            && CallerSound(start, step.1, c.(pc := step.0))
            && DistinctKeys(step.1)
            && (step.1 == runs
                || (step.1 == runs[newId := Created(newId, NewRunOf(c.req))] && step.0 == Noting(newId)
                    && c.pc.Creating?))
            && (step.1 == runs ==> (Creator(step.0) <==> Creator(c.pc)) && (Creator(c.pc) ==> step.0.id == c.pc.id))
            && (step.1 != runs ==> step.1 == runs[newId := Created(newId, NewRunOf(c.req))])
            && (c.pc.Submitting? <==> Submitted(step.0) && !Submitted(c.pc))
            && (Submitted(c.pc) ==> Submitted(step.0))
  {
    assert c.req.key.Some? && !KeyOwned(runs, c.req.key) ==>
      forall id :: id in runs ==> !OwnsKey(runs, id, c.req.key.value);
  }

  lemma GrownSound(start: Runs, runs: Runs, grown: Runs, c: Caller)
    requires CallerSound(start, runs, c) && runs.Keys <= grown.Keys
    requires forall id :: id in runs ==> SameRequest(runs[id], grown[id])
    ensures CallerSound(start, grown, c)
  {
    if KeyOwned(runs, c.req.key) {
      var id :| OwnsKey(runs, id, c.req.key.value);
      assert OwnsKey(grown, id, c.req.key.value);
    }
  }

  lemma TurnKeepsOnce(start: Runs, w: World, t: Turn)
    requires Once(start, w) && CanTurn(w, t)
    ensures Once(start, Turned(w, t))
  {
    match t {
      case Elsewhere(runs) => ElsewhereKeepsOnce(start, w, runs);
      case Take(i, newId) =>
        var w' := Turned(w, t);
        hide CallerSound, Next, OneCreator, Counted, Kept;
        TakeSound(start, w, i, newId);
        TakeCreators(start, w, i, newId);
        assert AllSound(start, w') && Kept(start, w'.runs) && OneCreator(start, w') && Counted(w');
    }
  }

  lemma ElsewhereKeepsOnce(start: Runs, w: World, runs: Runs)
    requires Once(start, w) && SameRequests(w.runs, runs)
    ensures Once(start, w.(runs := runs))
  {
    var w' := w.(runs := runs);
    assert forall i: nat, id :: Creates(w', i, id) <==> Creates(w, i, id);
    hide CallerSound, Creates, OneCreator, Counted;
    KeysKeep(start, w.runs, runs);
    SameWorld(start, w, w');
    forall i | 0 <= i < |w.callers|
      ensures CallerSound(start, runs, w.callers[i]) { GrownSound(start, w.runs, runs, w.callers[i]); }
    assert AllSound(start, w');
  }

  lemma KeysKeep(start: Runs, runs: Runs, later: Runs)
    requires Kept(start, runs) && SameRequests(runs, later)
    ensures Kept(start, later)
  {
  }

  lemma SameWorld(start: Runs, w: World, w': World)
    requires OneCreator(start, w) && Counted(w)
    requires w'.callers == w.callers && w'.submitted == w.submitted && w'.runs.Keys == w.runs.Keys
    requires forall i: nat, id :: Creates(w', i, id) <==> Creates(w, i, id)
    ensures OneCreator(start, w') && Counted(w')
  {
    hide Creates, Submitted;
    forall id | id in w.runs && id !in start ensures exists i: nat :: Creates(w', i, id) {
      var i: nat :| Creates(w, i, id);
      assert Creates(w', i, id);
    }
    forall id | w.submitted[id] > 0 ensures exists i: nat :: Creates(w', i, id) {
      var i: nat :| Creates(w, i, id);
      assert Creates(w', i, id);
    }
  }

  lemma TakeSound(start: Runs, w: World, i: nat, newId: RunId)
    requires Kept(start, w.runs) && AllSound(start, w) && i < |w.callers| && newId !in w.runs
    ensures var w' := Turned(w, Take(i, newId)); Kept(start, w'.runs) && AllSound(start, w')
  {
    var c, w' := w.callers[i], Turned(w, Take(i, newId));
    NextSound(start, w.runs, c, newId);
    hide CallerSound, Next, DistinctKeys;
    forall j | 0 <= j < |w.callers| ensures CallerSound(start, w'.runs, w'.callers[j]) {
      if j != i { GrownSound(start, w.runs, w'.runs, w.callers[j]); }
    }
  }

  lemma TakeCreators(start: Runs, w: World, i: nat, newId: RunId)
    requires Kept(start, w.runs) && AllSound(start, w) && OneCreator(start, w) && Counted(w) && i < |w.callers|
    requires newId !in w.runs
    ensures var w' := Turned(w, Take(i, newId)); OneCreator(start, w') && Counted(w')
  {
    var c, w' := w.callers[i], Turned(w, Take(i, newId));
    NextSound(start, w.runs, c, newId);
    hide CallerSound, Next, DistinctKeys, Creator, Submitted;
    hide OneCreator, Counted, OwnsKey;
    if w'.runs == w.runs {
      SubmittingCreates(c.pc);
      SameCreators(start, w, w', i);
    } else {
      CreatingIsNone(c.pc, newId);
      NewCreator(start, w, w', i, newId);
    }
  }

  /** The step of a caller that creates nothing. */
  lemma SameCreators(start: Runs, w: World, w': World, i: nat)
    requires OneCreator(start, w) && Counted(w) && w'.runs == w.runs && i < |w.callers|
    requires |w'.callers| == |w.callers| && w'.callers == w.callers[i := w'.callers[i]]
    requires var pc, pc' := w.callers[i].pc, w'.callers[i].pc;
             && (Creator(pc') <==> Creator(pc)) && (Creator(pc) ==> pc'.id == pc.id)
             && (pc.Submitting? <==> Submitted(pc') && !Submitted(pc)) && (Submitted(pc) ==> Submitted(pc'))
             && (pc.Submitting? ==> Creator(pc) && !Submitted(pc))
             && w'.submitted == if pc.Submitting? then w.submitted + multiset{pc.id} else w.submitted
    ensures OneCreator(start, w') && Counted(w')
  {
    SameCreates(w, w', i);
    hide Creates;
    SameOneCreator(start, w, w');
    SameCounted(w, w', i);
  }

  lemma SameCreates(w: World, w': World, i: nat)
    requires i < |w.callers| && |w'.callers| == |w.callers| && w'.callers == w.callers[i := w'.callers[i]]
    requires var pc, pc' := w.callers[i].pc, w'.callers[i].pc;
             (Creator(pc') <==> Creator(pc)) && (Creator(pc) ==> pc'.id == pc.id)
    ensures forall j: nat, id :: Creates(w', j, id) <==> Creates(w, j, id)
  {
    hide Creator;
  }

  lemma SameOneCreator(start: Runs, w: World, w': World)
    requires OneCreator(start, w) && w'.runs == w.runs && forall j: nat, id :: Creates(w', j, id) <==> Creates(w, j, id)
    ensures OneCreator(start, w')
  {
    hide Creates;
    forall id | id in w'.runs && id !in start ensures exists j: nat :: Creates(w', j, id) {
      var j: nat :| Creates(w, j, id);
      assert Creates(w', j, id);
    }
  }

  lemma SameCounted(w: World, w': World, i: nat)
    requires Counted(w) && i < |w.callers| && |w'.callers| == |w.callers| && w'.callers == w.callers[i := w'.callers[i]]
    requires forall j: nat, id :: Creates(w', j, id) <==> Creates(w, j, id)
    requires forall j: nat, k: nat, id :: Creates(w, j, id) && Creates(w, k, id) ==> j == k
    requires var pc, pc' := w.callers[i].pc, w'.callers[i].pc;
             && (pc.Submitting? <==> Submitted(pc') && !Submitted(pc)) && (Submitted(pc) ==> Submitted(pc'))
             && (pc.Submitting? ==> Creates(w, i, pc.id) && !Submitted(pc))
             && w'.submitted == if pc.Submitting? then w.submitted + multiset{pc.id} else w.submitted
    ensures Counted(w')
  {
    hide Creator, Submitted;
    forall j: nat, id | Creates(w', j, id) ensures w'.submitted[id] == if Submitted(w'.callers[j].pc) then 1 else 0 {
      assert Creates(w, j, id);
    }
    hide Creates;
    forall id | w'.submitted[id] > 0 ensures exists j: nat :: Creates(w', j, id) {
      if w.submitted[id] > 0 {
        var j: nat :| Creates(w, j, id);
        assert Creates(w', j, id);
      } else {
        assert Creates(w', i, id);
      }
    }
  }

  /** The step of a caller that creates a run. */
  lemma NewCreator(start: Runs, w: World, w': World, i: nat, newId: RunId)
    requires OneCreator(start, w) && Counted(w) && newId !in w.runs && w'.submitted == w.submitted
    requires w'.runs.Keys == w.runs.Keys + {newId}
    requires i < |w.callers| && |w'.callers| == |w.callers| && w'.callers == w.callers[i := w'.callers[i]]
    requires Creator(w'.callers[i].pc) && w'.callers[i].pc.id == newId
    requires !Submitted(w'.callers[i].pc) && !Creator(w.callers[i].pc)
    ensures OneCreator(start, w') && Counted(w')
  {
    NewCreates(w, w', i, newId);
    hide Creates, Submitted, Creator;
    assert w.submitted[newId] == 0;
    NewOneCreator(start, w, w', i, newId);
    forall id | w'.submitted[id] > 0 ensures exists j: nat :: Creates(w', j, id) {
      var j: nat :| Creates(w, j, id);
      assert Creates(w', j, id);
    }
  }

  lemma NewCreates(w: World, w': World, i: nat, newId: RunId)
    requires i < |w.callers| && |w'.callers| == |w.callers| && w'.callers == w.callers[i := w'.callers[i]]
    requires Creator(w'.callers[i].pc) && w'.callers[i].pc.id == newId && !Creator(w.callers[i].pc)
    ensures forall j: nat, id :: Creates(w', j, id) <==> Creates(w, j, id) || (j == i && id == newId)
  {
    hide Creator;
  }

  lemma NewOneCreator(start: Runs, w: World, w': World, i: nat, newId: RunId)
    requires OneCreator(start, w) && newId !in w.runs && w'.runs.Keys == w.runs.Keys + {newId}
    requires forall j: nat, id :: Creates(w', j, id) <==> Creates(w, j, id) || (j == i && id == newId)
    ensures OneCreator(start, w')
  {
    hide Creates;
    forall id | id in w'.runs && id !in start ensures exists j: nat :: Creates(w', j, id) {
      if id == newId {
        assert Creates(w', i, id);
      } else {
        var j: nat :| Creates(w, j, id);
        assert Creates(w', j, id);
      }
    }
  }

  lemma SubmittingCreates(pc: Pc)
    ensures pc.Submitting? ==> Creator(pc) && !Submitted(pc)
  {
  }

  lemma CreatingIsNone(pc: Pc, newId: RunId)
    ensures pc.Creating? ==> !Creator(pc)
    ensures Creator(Noting(newId)) && !Submitted(Noting(newId))
  {
  }

  lemma FreshOnce(start: World)
    requires Fresh(start)
    ensures Once(start.runs, start)
  {
    assert forall i: nat, id :: !Creates(start, i, id);
    assert AllSound(start.runs, start);
  }

  lemma {:induction false} InterleavingOnce(start: World, turns: seq<Turn>)
    requires Fresh(start) && Interleaving(start, turns)
    ensures Once(start.runs, WorldAfter(start, turns))
    ensures |WorldAfter(start, turns).callers| == |start.callers|
    ensures forall i :: 0 <= i < |start.callers| ==> WorldAfter(start, turns).callers[i].req == start.callers[i].req
    ensures forall i: nat, id :: Creates(WorldAfter(start, turns), i, id) ==>
              id in WorldAfter(start, turns).runs && IsOf(WorldAfter(start, turns).runs[id], start.callers[i].req)
    decreases |turns|
  {
    hide Once, Fresh, CanTurn, Next;
    if turns == [] {
      FreshOnce(start);
    } else {
      var n := |turns| - 1;
      InterleavingOnce(start, turns[..n]);
      TurnKeepsOnce(start.runs, WorldAfter(start, turns[..n]), turns[n]);
      SameCallers(WorldAfter(start, turns[..n]), turns[n]);
    }
    CreatedAsAsked(start.runs, WorldAfter(start, turns));
    hide Creates, IsOf, WorldAfter;
  }

  lemma CreatedAsAsked(start: Runs, w: World)
    requires Once(start, w)
    ensures forall i: nat, id :: Creates(w, i, id) ==>
              i < |w.callers| && id in w.runs && IsOf(w.runs[id], w.callers[i].req)
  {
    forall i: nat, id | Creates(w, i, id) ensures id in w.runs && IsOf(w.runs[id], w.callers[i].req) {
      assert CallerSound(start, w.runs, w.callers[i]);
    }
  }

  lemma SameCallers(w: World, t: Turn)
    ensures |Turned(w, t).callers| == |w.callers|
    ensures forall i :: 0 <= i < |w.callers| ==> Turned(w, t).callers[i].req == w.callers[i].req
  {
  }

  // ----- exactly once -------------------------------------------------------------------

  predicate Finished(pc: Pc) {
    pc.Returned? || pc.Refused?
  }

  ghost predicate AllFinished(w: World, key: string) {
    forall i :: 0 <= i < |w.callers| && w.callers[i].req.key == Some(key) ==> Finished(w.callers[i].pc)
  }

  /** Every caller with the key either lacks a required input or returns `run`. */
  ghost predicate AllAnswer(w: World, key: string, run: RunId) {
    forall i :: 0 <= i < |w.callers| && w.callers[i].req.key == Some(key) ==>
      if Incomplete(w.callers[i].req) then w.callers[i].pc == Refused(IncompleteInputs)
      else w.callers[i].pc.Returned? && w.callers[i].pc.id == run
  }

  ghost predicate SoleOwner(runs: Runs, key: string, run: RunId) {
    OwnsKey(runs, run, key) && forall other :: OwnsKey(runs, other, key) ==> other == run
  }

  /** Nobody created or submitted the run, and whoever returns it says it was replayed. */
  ghost predicate OnlyReplayed(w: World, run: RunId) {
    && w.submitted[run] == 0
    && forall i :: 0 <= i < |w.callers| && w.callers[i].pc.Returned? && w.callers[i].pc.id == run ==>
        w.callers[i].pc.replayed
  }

  /** One caller created the run, which was submitted once; all others replay it. */
  ghost predicate StartedOnce(w: World, run: RunId) {
    && w.submitted[run] == 1
    && exists i: nat ::
         && Creates(w, i, run) && w.callers[i].pc == Returned(run, false)
         && run in w.runs && IsOf(w.runs[run], w.callers[i].req)
         && forall j: nat :: Creates(w, j, run) ==> j == i
  }

  /** Callers with one key, in any interleaving: once all have their answers, each one either
      lacks a required input or returns the one run that owns the key. If the key was free at
      the start, exactly one of those callers created that run and answers `replayed: false`,
      and the run was submitted exactly once; if the key was taken, none submits it. */
  lemma StartsExactlyOnce(start: World, turns: seq<Turn>, key: string)
    requires Fresh(start) && Interleaving(start, turns) && AllFinished(WorldAfter(start, turns), key)
    requires exists i ::
               0 <= i < |start.callers| && start.callers[i].req.key == Some(key) && !Incomplete(start.callers[i].req)
    ensures var w := WorldAfter(start, turns);
            exists run :: SoleOwner(w.runs, key, run) && AllAnswer(w, key, run)
                          && if run in start.runs then OnlyReplayed(w, run) else StartedOnce(w, run)
  {
    var w := WorldAfter(start, turns);
    var first :| 0 <= first < |start.callers| && start.callers[first].req.key == Some(key)
        && !Incomplete(start.callers[first].req);
    hide *;
    InterleavingOnce(start, turns);
    var run := TheRun(start.runs, w, key, first);
    if run in start.runs {
      NotCreated(start.runs, w, run);
    } else {
      CreatedOnce(start.runs, w, run, key);
    }
  }

  lemma TheRun(start: Runs, w: World, key: string, first: nat) returns (run: RunId)
    requires Once(start, w) && AllFinished(w, key)
    requires first < |w.callers| && w.callers[first].req.key == Some(key) && !Incomplete(w.callers[first].req)
    ensures SoleOwner(w.runs, key, run) && AllAnswer(w, key, run)
  {
    hide AllSound, OneCreator, Counted, Incomplete;
    CallerAnswers(start, w, first);
    run := w.callers[first].pc.id;
    assert OwnsKey(w.runs, run, key);
    forall i | 0 <= i < |w.callers| && w.callers[i].req.key == Some(key)
      ensures if Incomplete(w.callers[i].req) then w.callers[i].pc == Refused(IncompleteInputs)
              else w.callers[i].pc.Returned? && w.callers[i].pc.id == run
    {
      CallerAnswers(start, w, i);
    }
  }

  lemma CallerAnswers(start: Runs, w: World, i: nat)
    requires Once(start, w) && i < |w.callers| && Finished(w.callers[i].pc)
    ensures var c := w.callers[i];
            if Incomplete(c.req) then c.pc == Refused(IncompleteInputs)
            else c.pc.Returned? && c.pc.id in w.runs && w.runs[c.pc.id].idempotencyKey == c.req.key
  {
    assert CallerSound(start, w.runs, w.callers[i]);
  }

  lemma NotCreated(start: Runs, w: World, run: RunId)
    requires Once(start, w) && run in start
    ensures OnlyReplayed(w, run)
  {
    forall i: nat ensures !Creates(w, i, run) {
      if i < |w.callers| { assert CallerSound(start, w.runs, w.callers[i]); }
    }
    forall i | 0 <= i < |w.callers| && w.callers[i].pc.Returned? && w.callers[i].pc.id == run
      ensures w.callers[i].pc.replayed {
      assert !Creates(w, i, run);
    }
  }

  lemma CreatedOnce(start: Runs, w: World, run: RunId, key: string)
    requires Once(start, w) && OwnsKey(w.runs, run, key) && run !in start
    requires AllFinished(w, key)
    ensures StartedOnce(w, run)
  {
    var i: nat :| Creates(w, i, run);
    assert CallerSound(start, w.runs, w.callers[i]);
    assert Finished(w.callers[i].pc) && Submitted(w.callers[i].pc);
    assert w.callers[i].pc == Returned(run, false);
  }
}
