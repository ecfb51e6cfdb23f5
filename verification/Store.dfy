/** The in-memory state store: runs, their event logs, and the pushed watermarks. */
module Store {
  import opened Wrappers
  import opened Ordering
  import opened FlowTypes
  import opened RunTypes
  import opened Ports
  import opened Outbox

  datatype NewRun = NewRun(definition: Flow, inputs: Value, trigger: Value, idempotencyKey: Option<string>)

  function Created(id: RunId, new_: NewRun): RunRecord {
    RunRecord(id, new_.definition, new_.inputs, new_.trigger, RunPhase.Running, false, new_.idempotencyKey, [])
  }

  predicate OwnsKey(runs: Runs, id: RunId, key: string) {
    id in runs && runs[id].idempotencyKey == Some(key)
  }

  type Runs = map<RunId, RunRecord>

  /** Two runs never share an idempotency key. */
  ghost predicate DistinctKeys(runs: Runs) {
    forall a, b ::
      a in runs && b in runs && runs[a].idempotencyKey.Some? && runs[a].idempotencyKey == runs[b].idempotencyKey ==>
        a == b
  }

  class InMemoryStateStore {
    var runs: Runs
    var events: map<RunId, seq<StoredRunEvent>>
    /** Highest sequence marked pushed, per run. */
    var eventsPushedThrough: map<RunId, nat>

    constructor ()
      ensures runs == map[] && events == map[] && eventsPushedThrough == map[]
    {
      runs, events, eventsPushedThrough := map[], map[], map[];
    }

    function View(id: RunId): RunView
      requires id in runs
      reads this
    {
      RunView(runs[id], LogOf(events, id))
    }

    /** Nothing but the record and log of run `id` may have changed. */
    twostate predicate OnlyRun(id: RunId)
      reads this
    {
      && runs.Keys == old(runs.Keys)
      && (forall other :: other in runs && other != id ==> runs[other] == old(runs)[other])
      && (forall other :: other != id ==> LogOf(events, other) == old(LogOf(events, other)))
      && eventsPushedThrough == old(eventsPushedThrough)
    }

    /** Ids are unique within a process, so `runId` is a new one. */
    method CreateRun(new_: NewRun, runId: RunId) returns (r: Result<RunId, StoreError>)
      requires runId !in runs
      modifies this`runs
      ensures (exists id :: new_.idempotencyKey.Some? && OwnsKey(old(runs), id, new_.idempotencyKey.value)) <==> r.Err?
      ensures r.Err? ==> r == Err(Duplicate(new_.idempotencyKey.value)) && runs == old(runs)
      ensures r.Ok? ==> r == Ok(runId) && runs == old(runs)[runId := Created(runId, new_)]
    {
      if new_.idempotencyKey.Some? {
        if exists id | id in runs :: OwnsKey(runs, id, new_.idempotencyKey.value) {
          return Err(Duplicate(new_.idempotencyKey.value));
        }
      }
      runs := runs[runId := Created(runId, new_)];
      r := Ok(runId);
    }

    method FindByIdempotencyKey(key: string) returns (r: Option<RunId>)
      ensures r.Some? ==> OwnsKey(runs, r.value, key)
      ensures r.None? ==> forall id :: !OwnsKey(runs, id, key)
    {
      if id :| id in runs && OwnsKey(runs, id, key) {
        return Some(id);
      }
      r := None;
    }

    method LoadRun(id: RunId) returns (r: Result<RunRecord, StoreError>)
      ensures r == if id in runs then Ok(runs[id]) else Err(NotFound)
    {
      r := if id in runs then Ok(runs[id]) else Err(NotFound);
    }

    /** `apply`: replay the batch on a scratch copy, commit it, then append its events. */
    method Apply(id: RunId, ms: seq<Mutation>) returns (r: Result<(), StoreError>)
      modifies this`runs, this`events
      ensures r.Err? ==> runs == old(runs) && events == old(events)
      ensures OnlyRun(id)
      ensures id !in old(runs) ==> r == Err(NotFound)
      ensures id in old(runs) && r.Err? ==> ApplyBatch(old(View(id)), ms) == Err(r.error)
      ensures id in old(runs) && r.Ok? ==> ApplyBatch(old(View(id)), ms) == Ok(View(id))
    {
      if id !in runs { return Err(NotFound); }
      var scratch := runs[id];
      for i := 0 to |ms|
        invariant runs == old(runs) && events == old(events)
        invariant ApplyAll(runs[id], ms[..i]) == Ok(scratch)
      {
        assert ms[..i + 1][..i] == ms[..i];
        var next := ApplyMutation(scratch, ms[i]);
        if next.Err? {
          AllFails(runs[id], ms, i + 1);
          return Err(next.error);
        }
        scratch := next.value;
      }
      assert ms[..|ms|] == ms;
      runs := runs[id := scratch];
      var list := LogOf(events, id);
      for i := 0 to |ms|
        invariant list == AppendAll(LogOf(events, id), ms[..i])
      {
        assert ms[..i + 1][..i] == ms[..i];
        if ms[i].AppendEvent? {
          list := list + [StoredRunEvent(NextSequence(list), ms[i].event)];
        }
      }
      if list != LogOf(events, id) { events := events[id := list]; }
      r := Ok(());
    }

    /** `unpushed_events`: run by run, the events past the run's mark, up to `limit`. */
    method UnpushedEvents(limit: nat) returns (out: seq<Entry>)
      ensures out == Taken(AllUnpushed(events, eventsPushedThrough), AtLeastOne(limit))
    {
      hide *;
      out := [];
      var ids := SortedIds(events.Keys);
      SortedMembers(events.Keys);
      NothingPending(events, eventsPushedThrough, limit);
      for i := 0 to |ids|
        invariant out == UnpushedOf(events, eventsPushedThrough, ids[..i])
        invariant |out| < AtLeastOne(limit)
      {
        assert ids[i] in ids;
        var through, log := MarkOf(eventsPushedThrough, ids[i]), events[ids[i]];
        ghost var before := out;
        NoEvents(ids[i], through);
        assert log[..0] == [] && before + [] == before;
        for k := 0 to |log|
          invariant out == before + Tagged(ids[i], Unpushed(log[..k], through))
          invariant |out| < AtLeastOne(limit)
        {
          OneMoreEvent(ids[i], log, k, through);
          if log[k].sequence > through {
            ghost var mine, entry := Tagged(ids[i], Unpushed(log[..k], through)), Entry(ids[i], log[k]);
            assert before + (mine + [entry]) == out + [entry];
            out := out + [Entry(ids[i], log[k])];
            if |out| >= limit {
              CutShort(events, eventsPushedThrough, ids, i, k + 1, out, limit);
              return;
            }
          }
        }
        assert log[..|log|] == log;
        OneMoreRun(events, eventsPushedThrough, ids, i);
      }
      assert ids[..|ids|] == ids;
      NotCut(events, eventsPushedThrough, out, limit);
    }

    /** `mark_events_pushed`: the mark never goes back. */
    method MarkEventsPushed(id: RunId, through: nat)
      modifies this`eventsPushedThrough
      ensures eventsPushedThrough == Marked(old(eventsPushedThrough), id, through)
      ensures var before, after := MarkOf(old(eventsPushedThrough), id), MarkOf(eventsPushedThrough, id);
              before <= after && through <= after && (after == before || after == through)
      ensures forall x :: x != id ==> MarkOf(eventsPushedThrough, x) == MarkOf(old(eventsPushedThrough), x)
    {
      var entry := MarkOf(eventsPushedThrough, id);
      eventsPushedThrough := eventsPushedThrough[id := if through > entry then through else entry];
    }
  }

  /** A batch that fails on a prefix fails as a whole, with the same error. */
  lemma {:induction false} AllFails(rec: RunRecord, ms: seq<Mutation>, n: nat)
    requires n <= |ms| && ApplyAll(rec, ms[..n]).Err?
    ensures ApplyAll(rec, ms) == ApplyAll(rec, ms[..n])
    decreases |ms| - n
  {
    if n == |ms| {
      assert ms[..n] == ms;
    } else {
      assert ms[..n + 1][..n] == ms[..n];
      AllFails(rec, ms, n + 1);
    }
  }

  lemma {:induction false} LogGrows(log: seq<StoredRunEvent>, ms: seq<Mutation>)
    requires Sequenced(log)
    ensures log <= AppendAll(log, ms) && Sequenced(AppendAll(log, ms))
  {
    if ms != [] {
      LogGrows(log, ms[..|ms| - 1]);
    }
  }
}
