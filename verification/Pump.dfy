/** The outbox pump: each drain pushes a batch of events per run to the platform and marks it
    pushed. Any push, snapshot or mark may fail; the platform ignores a repeated sequence. */
module Pump {
  import opened Wrappers
  import opened Ordering
  import opened Ports
  import opened Outbox
  import opened Store

  const PREFIX := "platform:"

  /** `platform_run_id`: the key without its prefix; other runs have no platform mirror. */
  function PlatformId(key: Option<string>): Option<string> {
    if key.Some? && PREFIX <= key.value then Some(key.value[|PREFIX|..]) else None
  }

  /** A run is mirrored as `p` exactly when its key is `platform:` followed by `p`. */
  lemma MirroredExactly(key: Option<string>, p: string)
    ensures PlatformId(key) == Some(p) <==> key == Some("platform:" + p)
  {
    if key.Some? && PREFIX <= key.value { assert key.value == PREFIX + key.value[|PREFIX|..]; }
    if key == Some("platform:" + p) { assert ("platform:" + p)[|PREFIX|..] == p; }
  }

  // ----- one drain, on values -----------------------------------------------------------

  type Received = map<nat, RunEventRecord>

  /** `INSERT OR IGNORE` on the sequence. */
  function Land(got: Received, events: seq<StoredRunEvent>): Received {
    if events == [] then got
    else
      var n := |events| - 1;
      var before := Land(got, events[..n]);
      if events[n].sequence in before then before else before[events[n].sequence := events[n].record]
  }

  /** A sequence is there exactly if it was or was sent, and one that was there keeps its record. */
  lemma {:induction false} LandKeeps(got: Received, events: seq<StoredRunEvent>, q: nat)
    ensures q in Land(got, events) <==> q in got || exists i :: 0 <= i < |events| && events[i].sequence == q
    ensures q in got ==> Land(got, events)[q] == got[q]
  {
    if events != [] {
      LandKeeps(got, events[..|events| - 1], q);
    }
  }

  /** A new sequence gets the first record sent for it. */
  lemma {:induction false} LandFirst(got: Received, events: seq<StoredRunEvent>, i: nat)
    requires i < |events| && events[i].sequence !in got
    requires forall j :: 0 <= j < i ==> events[j].sequence != events[i].sequence
    ensures events[i].sequence in Land(got, events) && Land(got, events)[events[i].sequence] == events[i].record
  {
    var n := |events| - 1;
    if i < n {
      LandFirst(got, events[..n], i);
    } else {
      LandKeeps(got, events[..n], events[i].sequence);
    }
  }

  function Got(sink: map<string, Received>, p: string): Received {
    if p in sink then sink[p] else map[]
  }

  /** What goes wrong for one run in a drain. A push that fails may have landed some events. */
  datatype Fault = Fault(load: bool, push: Option<nat>, snapshot: bool, state: bool, mark: bool)

  const NO_FAULT: Fault := Fault(false, None, false, false, false)

  function Landed(events: seq<StoredRunEvent>, f: Fault): seq<StoredRunEvent> {
    match f.push
    case None => events
    case Some(n) => if n <= |events| then events[..n] else events
  }

  /** Marks and what the platform has received. */
  datatype Delivery = Delivery(marks: Marks, sink: map<string, Received>)

  function MarkedIf(marks: Marks, id: RunId, events: seq<StoredRunEvent>, fails: bool): Marks {
    if fails || events == [] then marks else Marked(marks, id, events[|events| - 1].sequence)
  }

  /** The loop body of `drain_once` for one run. */
  function DrainRun(runs: Runs, d: Delivery, id: RunId, events: seq<StoredRunEvent>, f: Fault): Delivery {
    if f.load || id !in runs then d
    else match PlatformId(runs[id].idempotencyKey)
      case None => d.(marks := MarkedIf(d.marks, id, events, f.mark))
      case Some(p) =>
        var pushed := d.(sink := d.sink[p := Land(Got(d.sink, p), Landed(events, f))]);
        if f.push.Some? || f.snapshot || f.state then pushed
        else pushed.(marks := MarkedIf(d.marks, id, events, f.mark))
  }

  /** The events of one run in a listing. */
  function EventsOf(entries: seq<Entry>, id: RunId): seq<StoredRunEvent> {
    if entries == [] then []
    else
      var n := |entries| - 1;
      EventsOf(entries[..n], id) + (if entries[n].runId == id then [entries[n].event] else [])
  }

  function RunsOf(entries: seq<Entry>): set<RunId> {
    set e | e in entries :: e.runId
  }

  function DrainRuns(runs: Runs, d: Delivery, fetched: seq<Entry>, ids: seq<RunId>, faults: RunId -> Fault): Delivery {
    if ids == [] then d
    else
      var n := |ids| - 1;
      DrainRun(runs, DrainRuns(runs, d, fetched, ids[..n], faults), ids[n], EventsOf(fetched, ids[n]), faults(ids[n]))
  }

  function Fetched(logs: Logs, marks: Marks, batch: nat): seq<Entry> {
    Taken(AllUnpushed(logs, marks), AtLeastOne(batch))
  }

  function Drained(runs: Runs, logs: Logs, d: Delivery, batch: nat, faults: RunId -> Fault): Delivery {
    var fetched := Fetched(logs, d.marks, batch);
    DrainRuns(runs, d, fetched, SortedIds(RunsOf(fetched)), faults)
  }

  // ----- the imperative form ------------------------------------------------------------

  class Platform {
    var sink: map<string, Received>

    constructor ()
      ensures sink == map[]
    {
      sink := map[];
    }

    /** `push_events`: the platform keeps what reached it, also when the reply is lost. */
    method PushEvents(p: string, events: seq<StoredRunEvent>, f: Fault) returns (ok: bool)
      modifies this
      ensures ok <==> f.push.None?
      ensures sink == old(sink)[p := Land(Got(old(sink), p), Landed(events, f))]
    {
      sink := sink[p := Land(Got(sink, p), Landed(events, f))];
      ok := f.push.None?;
    }
  }

  function Group(groups: map<RunId, seq<StoredRunEvent>>, id: RunId): seq<StoredRunEvent> {
    if id in groups then groups[id] else []
  }

  method GroupByRun(entries: seq<Entry>) returns (groups: map<RunId, seq<StoredRunEvent>>)
    ensures groups.Keys == RunsOf(entries)
    ensures forall id :: id in groups ==> groups[id] == EventsOf(entries, id)
  {
    groups := map[];
    for i := 0 to |entries|
      invariant groups.Keys == RunsOf(entries[..i])
      invariant forall id :: Group(groups, id) == EventsOf(entries[..i], id)
    {
      assert entries[..i + 1][..i] == entries[..i] && entries[..i + 1] == entries[..i] + [entries[i]];
      var id := entries[i].runId;
      groups := groups[id := Group(groups, id) + [entries[i].event]];
    }
    assert entries[..|entries|] == entries;
    forall id | id in groups ensures groups[id] == EventsOf(entries, id) { assert groups[id] == Group(groups, id); }
  }

  function DeliveryOf(store: InMemoryStateStore, platform: Platform): Delivery
    reads store, platform
  {
    Delivery(store.eventsPushedThrough, platform.sink)
  }

  /** The loop body of `drain_once`: load, push, snapshot, push the state, mark. */
  method PushRun(store: InMemoryStateStore, platform: Platform, id: RunId, events: seq<StoredRunEvent>, f: Fault)
    requires events != []
    modifies store`eventsPushedThrough, platform
    ensures DeliveryOf(store, platform) == DrainRun(store.runs, old(DeliveryOf(store, platform)), id, events, f)
  {
    if f.load { return; }
    var record := store.LoadRun(id);
    if record.Err? { return; }
    var through := events[|events| - 1].sequence;
    var p := PlatformId(record.value.idempotencyKey);
    if p.None? {
      if !f.mark { store.MarkEventsPushed(id, through); }
      return;
    }
    var ok := platform.PushEvents(p.value, events, f);
    if !ok || f.snapshot || f.state { return; }
    if !f.mark { store.MarkEventsPushed(id, through); }
  }

  /** `drain_once`. */
  method DrainOnce(store: InMemoryStateStore, platform: Platform, batch: nat, faults: RunId -> Fault)
    modifies store`eventsPushedThrough, platform
    ensures DeliveryOf(store, platform)
            == Drained(store.runs, store.events, old(DeliveryOf(store, platform)), batch, faults)
  {
    hide DrainRun, AllUnpushed, Taken, EventsOf, RunsOf, Land, Landed, PlatformId, MarkedIf, Got, SortedIds;
    var entries := store.UnpushedEvents(batch);
    ghost var d := DeliveryOf(store, platform);
    if entries == [] {
      NoRuns();
      return;
    }
    var groups := GroupByRun(entries);
    var ids := SortedIds(groups.Keys);
    for i := 0 to |ids|
      invariant store.runs == old(store.runs) && store.events == old(store.events)
      invariant DeliveryOf(store, platform) == DrainRuns(store.runs, d, entries, ids[..i], faults)
    {
      assert ids[..i + 1][..i] == ids[..i] && ids[i] in ids;
      SomeEvent(entries, ids[i]);
      PushRun(store, platform, ids[i], groups[ids[i]], faults(ids[i]));
    }
    assert ids[..|ids|] == ids;
  }

  lemma NoRuns()
    ensures RunsOf([]) == {} && SortedIds({}) == []
  {
  }

  lemma {:induction false} SomeEvent(entries: seq<Entry>, id: RunId)
    ensures id in RunsOf(entries) <==> EventsOf(entries, id) != []
  {
    if entries != [] {
      var n := |entries| - 1;
      SomeEvent(entries[..n], id);
      assert entries == entries[..n] + [entries[n]];
    }
  }
}
