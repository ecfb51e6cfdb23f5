/** Delivery: whatever fails in whichever drain, the platform holds a prefix of every
    platform run's log that reaches at least to the run's mark; and drains without failures
    deliver everything. */
module Deliveries {
  import opened Wrappers
  import opened Ordering
  import opened Ports
  import opened Outbox
  import opened Store
  import opened OutboxTable
  import opened Pump

  // ----- what is delivered --------------------------------------------------------------

  /** The platform has exactly the events 1 to k of a log. */
  ghost predicate HoldsPrefix(got: Received, log: seq<StoredRunEvent>, k: nat) {
    && k <= |log|
    && (forall s: nat :: s in got <==> 1 <= s <= k)
    && (forall s: nat :: s in got && s <= |log| ==> got[s] == log[s - 1].record)
  }

  ghost predicate Covers(got: Received, log: seq<StoredRunEvent>, mark: nat) {
    exists k :: HoldsPrefix(got, log, k) && mark <= k
  }

  ghost predicate OnPlatform(runs: Runs, id: RunId, p: string) {
    id in runs && PlatformId(runs[id].idempotencyKey) == Some(p)
  }

  ghost predicate Safe(runs: Runs, logs: Logs, d: Delivery) {
    && DistinctKeys(runs)
    && logs.Keys <= runs.Keys
    && Marking(logs, d.marks)
    && (forall id, p :: OnPlatform(runs, id, p) ==> Covers(Got(d.sink, p), LogOf(logs, id), MarkOf(d.marks, id)))
    && (forall p :: p in d.sink ==> exists id :: OnPlatform(runs, id, p))
  }

  lemma OneRunPerPlatform(runs: Runs, a: RunId, b: RunId, p: string)
    requires DistinctKeys(runs) && OnPlatform(runs, a, p) && OnPlatform(runs, b, p)
    ensures a == b
  {
    assert runs[a].idempotencyKey.value == PREFIX + p;
    assert runs[b].idempotencyKey.value == PREFIX + p;
  }

  // ----- what a drain fetches -----------------------------------------------------------

  lemma {:induction false} UnpushedIsTail(log: seq<StoredRunEvent>, mark: nat)
    requires Sequenced(log) && mark <= |log|
    ensures Unpushed(log, mark) == log[mark..]
  {
    if log != [] {
      var n := |log| - 1;
      if mark <= n {
        UnpushedIsTail(log[..n], mark);
        assert log[mark..] == log[..n][mark..] + [log[n]];
      } else {
        NoneUnpushed(log, mark);
      }
    }
  }

  lemma {:induction false} NoneUnpushed(log: seq<StoredRunEvent>, mark: nat)
    requires Sequenced(log) && mark >= |log|
    ensures Unpushed(log, mark) == []
  {
    if log != [] {
      NoneUnpushed(log[..|log| - 1], mark);
    }
  }

  lemma {:induction false} EventsOfConcat(a: seq<Entry>, b: seq<Entry>, id: RunId)
    ensures EventsOf(a + b, id) == EventsOf(a, id) + EventsOf(b, id)
  {
    if b == [] {
      assert a + b == a;
    } else {
      var n := |b| - 1;
      assert (a + b)[..|a + b| - 1] == a + b[..n];
      EventsOfConcat(a, b[..n], id);
    }
  }

  lemma {:induction false} EventsOfTagged(x: RunId, events: seq<StoredRunEvent>, id: RunId)
    ensures EventsOf(Tagged(x, events), id) == if x == id then events else []
  {
    if events != [] {
      var n := |events| - 1;
      assert Tagged(x, events)[..n] == Tagged(x, events[..n]);
      EventsOfTagged(x, events[..n], id);
      assert events == events[..n] + [events[n]];
    }
  }

  lemma {:induction false} EventsOfUnpushed(logs: Logs, marks: Marks, ids: seq<RunId>, id: RunId)
    requires Sorted(ids)
    ensures EventsOf(UnpushedOf(logs, marks, ids), id) ==
            if id in ids then Unpushed(LogOf(logs, id), MarkOf(marks, id)) else []
  {
    hide *;
    NoneOf(logs, marks, id);
    if ids != [] {
      var n := |ids| - 1;
      var before, events := UnpushedOf(logs, marks, ids[..n]), Unpushed(LogOf(logs, ids[n]), MarkOf(marks, ids[n]));
      LastLeftOut(ids);
      EventsOfUnpushed(logs, marks, ids[..n], id);
      OneMore(logs, marks, ids);
      EventsOfConcat(before, Tagged(ids[n], events), id);
      EventsOfTagged(ids[n], events, id);
    }
  }

  lemma NoneOf(logs: Logs, marks: Marks, id: RunId)
    ensures EventsOf(UnpushedOf(logs, marks, []), id) == []
  {
  }

  lemma LastLeftOut(ids: seq<RunId>)
    requires ids != [] && Sorted(ids)
    ensures var n := |ids| - 1;
            && Sorted(ids[..n]) && ids[n] !in ids[..n]
            && forall x :: x in ids <==> x in ids[..n] || x == ids[n]
  {
    assert ids == ids[..|ids| - 1] + [ids[|ids| - 1]];
  }

  /** What a drain fetches of a run is the part of its log that follows the mark. */
  lemma FetchedSegment(logs: Logs, marks: Marks, batch: nat, id: RunId) returns (upto: nat)
    requires Marking(logs, marks)
    ensures MarkOf(marks, id) <= upto <= |LogOf(logs, id)|
    ensures EventsOf(Fetched(logs, marks, batch), id) == LogOf(logs, id)[MarkOf(marks, id)..upto]
  {
    hide *;
    MarkingAt(logs, marks, id);
    var log, mark := LogOf(logs, id), MarkOf(marks, id);
    var events := EventsOf(Fetched(logs, marks, batch), id);
    var rest := FetchedFirst(logs, marks, batch);
    EventsOfConcat(Fetched(logs, marks, batch), rest, id);
    EventsOfAll(logs, marks, id);
    UnpushedIsTail(log, mark);
    upto := mark + |events|;
    HeadOfTail(log, mark, events, EventsOf(rest, id));
  }

  lemma HeadOfTail(log: seq<StoredRunEvent>, mark: nat, events: seq<StoredRunEvent>, rest: seq<StoredRunEvent>)
    requires mark <= |log| && log[mark..] == events + rest
    ensures mark + |events| <= |log| && events == log[mark..mark + |events|]
  {
    assert events == log[mark..][..|events|] == log[mark..mark + |events|];
  }

  lemma FetchedFirst(logs: Logs, marks: Marks, batch: nat) returns (rest: seq<Entry>)
    ensures AllUnpushed(logs, marks) == Fetched(logs, marks, batch) + rest
    ensures rest == AllUnpushed(logs, marks)[|Fetched(logs, marks, batch)|..]
  {
    hide AllUnpushed;
    rest := AllUnpushed(logs, marks)[|Fetched(logs, marks, batch)|..];
  }

  lemma EventsOfAll(logs: Logs, marks: Marks, id: RunId)
    ensures EventsOf(AllUnpushed(logs, marks), id) == Unpushed(LogOf(logs, id), MarkOf(marks, id))
  {
    hide UnpushedOf, EventsOf;
    EventsOfUnpushed(logs, marks, SortedIds(logs.Keys), id);
  }

  // ----- landing ------------------------------------------------------------------------

  lemma CutLast(log: seq<StoredRunEvent>, a: nat, b: nat)
    requires a < b <= |log|
    ensures log[a..b] != [] && log[a..b][..|log[a..b]| - 1] == log[a..b - 1] && log[a..b][|log[a..b]| - 1] == log[b - 1]
  {
  }

  /** Landing a segment that starts within the held prefix extends the prefix to its end. */
  lemma {:induction false} LandSegment(got: Received, log: seq<StoredRunEvent>, k: nat, a: nat, b: nat)
    requires Sequenced(log) && HoldsPrefix(got, log, k) && a <= k && a <= b <= |log|
    ensures HoldsPrefix(Land(got, log[a..b]), log, if b > k then b else k)
    decreases b
  {
    if a < b {
      CutLast(log, a, b);
      LandSegment(got, log, k, a, b - 1);
    }
  }

  lemma LandCovers(got: Received, log: seq<StoredRunEvent>, mark: nat, upto: nat, f: Fault)
    requires Sequenced(log) && Covers(got, log, mark) && mark <= upto <= |log|
    ensures Covers(Land(got, Landed(log[mark..upto], f)), log, mark)
    ensures f.push.None? ==> Covers(Land(got, Landed(log[mark..upto], f)), log, upto)
  {
    var k :| HoldsPrefix(got, log, k) && mark <= k;
    var landed := Landed(log[mark..upto], f);
    var end := mark + |landed|;
    assert landed == log[mark..end];
    hide HoldsPrefix, Land, Landed;
    LandSegment(got, log, k, mark, end);
    assert HoldsPrefix(Land(got, landed), log, if end > k then end else k);
  }

  // ----- one run of a drain -------------------------------------------------------------

  /** One run of a drain touches only its own mark and its own platform run. */
  ghost predicate OnlyTouches(runs: Runs, d: Delivery, d': Delivery, id: RunId) {
    && (forall x :: x != id ==> MarkOf(d'.marks, x) == MarkOf(d.marks, x))
    && (forall p :: !OnPlatform(runs, id, p) ==> Got(d'.sink, p) == Got(d.sink, p) && (p in d'.sink <==> p in d.sink))
  }

  lemma DrainRunTouches(runs: Runs, d: Delivery, id: RunId, events: seq<StoredRunEvent>, f: Fault)
    ensures OnlyTouches(runs, d, DrainRun(runs, d, id, events, f), id)
  {
  }

  /** Where the mark of a run goes: past the fetched events, or nowhere. */
  lemma DrainRunMark(runs: Runs, d: Delivery, id: RunId, log: seq<StoredRunEvent>, upto: nat, f: Fault)
    requires Sequenced(log) && MarkOf(d.marks, id) <= upto <= |log|
    ensures var d' := DrainRun(runs, d, id, log[MarkOf(d.marks, id)..upto], f);
            && (MarkOf(d'.marks, id) == MarkOf(d.marks, id) || MarkOf(d'.marks, id) == upto)
            && (id in runs && f == NO_FAULT ==> MarkOf(d'.marks, id) == upto)
  {
    var mark := MarkOf(d.marks, id);
    var events := log[mark..upto];
    if events != [] {
      assert events[|events| - 1] == log[upto - 1];
    }
  }

  lemma DrainRunCovers(runs: Runs, d: Delivery, id: RunId, log: seq<StoredRunEvent>, upto: nat, f: Fault, p: string)
    requires Sequenced(log) && MarkOf(d.marks, id) <= upto <= |log|
    requires OnPlatform(runs, id, p) && Covers(Got(d.sink, p), log, MarkOf(d.marks, id))
    ensures var d' := DrainRun(runs, d, id, log[MarkOf(d.marks, id)..upto], f);
            Covers(Got(d'.sink, p), log, MarkOf(d'.marks, id))
  {
    hide Covers, Land, Landed;
    LandCovers(Got(d.sink, p), log, MarkOf(d.marks, id), upto, f);
    DrainRunMark(runs, d, id, log, upto, f);
  }

  lemma DrainRunSafe(runs: Runs, logs: Logs, d: Delivery, id: RunId, upto: nat, f: Fault)
    requires Safe(runs, logs, d) && MarkOf(d.marks, id) <= upto <= |LogOf(logs, id)|
    ensures Safe(runs, logs, DrainRun(runs, d, id, LogOf(logs, id)[MarkOf(d.marks, id)..upto], f))
  {
    var log := LogOf(logs, id);
    var d' := DrainRun(runs, d, id, log[MarkOf(d.marks, id)..upto], f);
    hide DrainRun, Covers, DistinctKeys;
    DrainRunTouches(runs, d, id, log[MarkOf(d.marks, id)..upto], f);
    DrainRunMark(runs, d, id, log, upto, f);
    forall x, p | OnPlatform(runs, x, p) ensures Covers(Got(d'.sink, p), LogOf(logs, x), MarkOf(d'.marks, x)) {
      if x == id {
        DrainRunCovers(runs, d, id, log, upto, f, p);
      } else if OnPlatform(runs, id, p) {
        OneRunPerPlatform(runs, x, id, p);
      }
    }
    assert Marking(logs, d'.marks);
  }

  // ----- whole drains -------------------------------------------------------------------

  /** The part of each run's log a drain fetched, as its end. */
  ghost predicate Fetches(logs: Logs, marks: Marks, fetched: seq<Entry>, ends: map<RunId, nat>) {
    forall id :: id in RunsOf(fetched) ==>
      && id in ends && MarkOf(marks, id) <= ends[id] <= |LogOf(logs, id)|
      && EventsOf(fetched, id) == LogOf(logs, id)[MarkOf(marks, id)..ends[id]]
  }

  lemma FetchedEnds(logs: Logs, marks: Marks, batch: nat) returns (ends: map<RunId, nat>)
    requires Marking(logs, marks)
    ensures Fetches(logs, marks, Fetched(logs, marks, batch), ends)
  {
    var fetched := Fetched(logs, marks, batch);
    hide Marking, Fetched, EventsOf, RunsOf, MarkOf, LogOf;
    forall id | id in RunsOf(fetched)
      ensures |EventsOf(fetched, id)| + MarkOf(marks, id) <= |LogOf(logs, id)|
      ensures EventsOf(fetched, id) == LogOf(logs, id)[MarkOf(marks, id)..MarkOf(marks, id) + |EventsOf(fetched, id)|]
    {
      var upto := FetchedSegment(logs, marks, batch, id);
    }
    ends := map id | id in RunsOf(fetched) :: MarkOf(marks, id) + |EventsOf(fetched, id)|;
  }

  /** Runs drained one after the other stay safe, and each mark moves to its end or stays. */
  lemma {:induction false} DrainRunsSafe(runs: Runs, logs: Logs, d: Delivery, fetched: seq<Entry>,
                                         ends: map<RunId, nat>, ids: seq<RunId>, faults: RunId -> Fault)
    requires Safe(runs, logs, d) && Fetches(logs, d.marks, fetched, ends)
    requires Sorted(ids) && forall id :: id in ids ==> id in RunsOf(fetched)
    ensures Safe(runs, logs, DrainRuns(runs, d, fetched, ids, faults))
    ensures forall id :: id !in ids ==>
              MarkOf(DrainRuns(runs, d, fetched, ids, faults).marks, id) == MarkOf(d.marks, id)
    ensures forall id :: id in ids && id in runs && faults(id) == NO_FAULT ==>
              MarkOf(DrainRuns(runs, d, fetched, ids, faults).marks, id) == ends[id]
  {
    hide Safe, DrainRun, Fetches, RunsOf, EventsOf, MarkOf;
    if ids != [] {
      var n := |ids| - 1;
      var id, before := ids[n], DrainRuns(runs, d, fetched, ids[..n], faults);
      LastLeftOut(ids);
      DrainRunsSafe(runs, logs, d, fetched, ends, ids[..n], faults);
      OneFetch(runs, logs, d, fetched, ends, id);
      DrainRunSafe(runs, logs, before, id, ends[id], faults(id));
      SafeLog(runs, logs, before, id);
      DrainRunMark(runs, before, id, LogOf(logs, id), ends[id], faults(id));
      DrainRunTouches(runs, before, id, EventsOf(fetched, id), faults(id));
    }
  }

  lemma OneFetch(runs: Runs, logs: Logs, d: Delivery, fetched: seq<Entry>, ends: map<RunId, nat>, id: RunId)
    requires Fetches(logs, d.marks, fetched, ends) && id in RunsOf(fetched)
    ensures id in ends && MarkOf(d.marks, id) <= ends[id] <= |LogOf(logs, id)|
    ensures EventsOf(fetched, id) == LogOf(logs, id)[MarkOf(d.marks, id)..ends[id]]
  {
  }

  lemma SafeLog(runs: Runs, logs: Logs, d: Delivery, id: RunId)
    requires Safe(runs, logs, d)
    ensures Sequenced(LogOf(logs, id))
  {
  }

  /** A drain never loses or skips an event, whatever fails. */
  lemma DrainSafe(runs: Runs, logs: Logs, d: Delivery, batch: nat, faults: RunId -> Fault)
    requires Safe(runs, logs, d)
    ensures Safe(runs, logs, Drained(runs, logs, d, batch, faults))
  {
    var fetched := Fetched(logs, d.marks, batch);
    var ends := FetchedEnds(logs, d.marks, batch);
    hide Safe, Fetches, DrainRuns, RunsOf, Fetched;
    DrainRunsSafe(runs, logs, d, fetched, ends, SortedIds(RunsOf(fetched)), faults);
  }

  // ----- drains without failures --------------------------------------------------------

  lemma SuffixMembers(all: seq<Entry>, k: nat)
    requires Ascending(all) && k <= |all|
    ensures Ascending(all[k..])
    ensures forall e :: e in all[k..] <==> e in all && e !in all[..k]
  {
    hide Before;
    assert all == all[..k] + all[k..];
    forall e | e in all[k..] ensures e !in all[..k] {
      var j :| 0 <= j < |all[k..]| && all[k..][j] == e;
      forall i | 0 <= i < k ensures all[i] != e {
        assert Before(all[i], all[k + j]);
        BeforeTotal(e, e);
      }
    }
  }

  lemma {:induction false} EventsOfMembers(entries: seq<Entry>, id: RunId)
    ensures forall e :: e in EventsOf(entries, id) <==> Entry(id, e) in entries
  {
    if entries != [] {
      var n := |entries| - 1;
      EventsOfMembers(entries[..n], id);
      assert entries == entries[..n] + [entries[n]];
    }
  }

  lemma SegmentMembers(log: seq<StoredRunEvent>, a: nat, b: nat, e: StoredRunEvent)
    requires Sequenced(log) && a <= b <= |log|
    ensures e in log[a..b] <==> e in log && a < e.sequence <= b
  {
    if e in log && a < e.sequence <= b {
      var k :| 0 <= k < |log| && log[k] == e;
      assert log[a..b][k - a] == e;
    }
  }

  /** A drain in which nothing fails takes exactly the events it fetched off the outbox, so a
      non-empty outbox strictly shrinks. */
  lemma CleanDrain(runs: Runs, logs: Logs, d: Delivery, batch: nat, faults: RunId -> Fault)
    requires Safe(runs, logs, d) && forall id :: faults(id) == NO_FAULT
    ensures AllUnpushed(logs, Drained(runs, logs, d, batch, faults).marks)
            == AllUnpushed(logs, d.marks)[|Fetched(logs, d.marks, batch)|..]
    ensures AllUnpushed(logs, d.marks) != [] ==> Fetched(logs, d.marks, batch) != []
  {
    var all, fetched := AllUnpushed(logs, d.marks), Fetched(logs, d.marks, batch);
    var d' := Drained(runs, logs, d, batch, faults);
    DrainSafe(runs, logs, d, batch, faults);
    UnpushedListed(runs, logs, d);
    UnpushedListed(runs, logs, d');
    SuffixMembers(all, |fetched|);
    hide Safe, AllUnpushed, Drained, Ascending;
    forall e ensures e in AllUnpushed(logs, d'.marks) <==> e in all[|fetched|..] {
      CleanEntry(runs, logs, d, batch, faults, e);
    }
    OneListing(AllUnpushed(logs, d'.marks), all[|fetched|..]);
  }

  lemma UnpushedListed(runs: Runs, logs: Logs, d: Delivery)
    requires Safe(runs, logs, d)
    ensures Ascending(AllUnpushed(logs, d.marks))
    ensures forall e :: e in AllUnpushed(logs, d.marks) <==>
              e.runId in logs && e.event in LogOf(logs, e.runId) && e.event.sequence > MarkOf(d.marks, e.runId)
  {
    LogsListed(logs, d.marks, SortedIds(logs.Keys));
  }

  lemma CleanEntry(runs: Runs, logs: Logs, d: Delivery, batch: nat, faults: RunId -> Fault, e: Entry)
    requires Safe(runs, logs, d) && forall id :: faults(id) == NO_FAULT
    ensures var marks' := Drained(runs, logs, d, batch, faults).marks;
            (e in AllUnpushed(logs, d.marks) && e !in Fetched(logs, d.marks, batch))
            <==> e.runId in logs && e.event in LogOf(logs, e.runId) && e.event.sequence > MarkOf(marks', e.runId)
  {
    var fetched, id := Fetched(logs, d.marks, batch), e.runId;
    var ids := SortedIds(RunsOf(fetched));
    var ends := FetchedEnds(logs, d.marks, batch);
    DrainRunsSafe(runs, logs, d, fetched, ends, ids, faults);
    UnpushedListed(runs, logs, d);
    SafeLog(runs, logs, d, id);
    assert logs.Keys <= runs.Keys;
    hide Safe, Fetched, AllUnpushed, DrainRuns, EventsOf, LogOf, MarkOf;
    EventsOfMembers(fetched, id);
    SomeEvent(fetched, id);
    if id in RunsOf(fetched) {
      OneFetch(runs, logs, d, fetched, ends, id);
      SegmentMembers(LogOf(logs, id), MarkOf(d.marks, id), ends[id], e.event);
    }
  }

  // ----- the whole system ---------------------------------------------------------------

  /** A drain under way: the events it has yet to push, and the marks it has yet to set. */
  datatype Flight = Flight(toPush: map<RunId, seq<StoredRunEvent>>, toMark: map<RunId, nat>)

  const IDLE: Flight := Flight(map[], map[])

  datatype System = System(runs: Runs, logs: Logs, d: Delivery, flight: Flight)

  /** A run is created or a batch is written; the pump fetches, pushes one run, or marks one
      run it pushed; the process restarts; or the pump drains undisturbed. */
  datatype Act =
    | Create(id: RunId, new_: NewRun)
    | Write(id: RunId, ms: seq<Mutation>)
    | Fetch(batch: nat)
    | Push(id: RunId, fault: Fault)
    | SetMark(id: RunId, fails: bool)
    | Restart
    | Drain(batch: nat, faults: map<RunId, Fault>)

  function FaultOf(faults: map<RunId, Fault>): RunId -> Fault {
    (id: RunId) => if id in faults then faults[id] else NO_FAULT
  }

  predicate KeyTaken(runs: Runs, key: Option<string>) {
    key.Some? && exists id :: id in runs && OwnsKey(runs, id, key.value)
  }

  /** Up to the mark: load, push, snapshot, push the state. Whether the mark comes next. */
  function PushHalf(runs: Runs, d: Delivery, id: RunId, events: seq<StoredRunEvent>, f: Fault): (Delivery, bool) {
    if f.load || id !in runs then (d, false)
    else match PlatformId(runs[id].idempotencyKey)
      case None => (d, true)
      case Some(p) =>
        (d.(sink := d.sink[p := Land(Got(d.sink, p), Landed(events, f))]), !(f.push.Some? || f.snapshot || f.state))
  }

  function MarkHalf(d: Delivery, id: RunId, through: nat, fails: bool): Delivery {
    if fails then d else d.(marks := Marked(d.marks, id, through))
  }

  /** The loop body of `drain_once` is these two halves, and nothing between them. */
  lemma DrainRunSplits(runs: Runs, d: Delivery, id: RunId, events: seq<StoredRunEvent>, f: Fault)
    requires events != []
    ensures var (pushed, marks) := PushHalf(runs, d, id, events, f);
            DrainRun(runs, d, id, events, f) ==
                if marks then MarkHalf(pushed, id, events[|events| - 1].sequence, f.mark) else pushed
  {
  }

  function PushedOne(s: System, id: RunId, f: Fault): System
    requires id in s.flight.toPush
  {
    var events := s.flight.toPush[id];
    var (pushed, marks) := PushHalf(s.runs, s.d, id, events, f);
    s.(d := pushed,
       flight := Flight(s.flight.toPush - {id},
                        if marks && events != [] then s.flight.toMark[id := events[|events| - 1].sequence]
                        else s.flight.toMark))
  }

  function MarkedOne(s: System, id: RunId, fails: bool): System
    requires id in s.flight.toMark
  {
    s.(d := MarkHalf(s.d, id, s.flight.toMark[id], fails), flight := s.flight.(toMark := s.flight.toMark - {id}))
  }

  function Acted(s: System, a: Act): System {
    match a
    case Create(id, new_) =>
      if id in s.runs || KeyTaken(s.runs, new_.idempotencyKey) then s else s.(runs := s.runs[id := Created(id, new_)])
    case Write(id, ms) =>
      if id !in s.runs then s
      else (match ApplyBatch(RunView(s.runs[id], LogOf(s.logs, id)), ms)
            case Err(_) => s
            case Ok(v) => s.(runs := s.runs[id := v.rec], logs := s.logs[id := v.log]))
    case Fetch(batch) =>
      var fetched := Fetched(s.logs, s.d.marks, batch);
      s.(flight := Flight(map id | id in RunsOf(fetched) :: EventsOf(fetched, id), map[]))
    case Push(id, f) => if id in s.flight.toPush then PushedOne(s, id, f) else s
    case SetMark(id, fails) => if id in s.flight.toMark then MarkedOne(s, id, fails) else s
    case Restart => s.(flight := IDLE)
    case Drain(batch, faults) => s.(d := Drained(s.runs, s.logs, s.d, batch, FaultOf(faults)), flight := IDLE)
  }

  function SystemAfter(acts: seq<Act>): System {
    if acts == [] then System(map[], map[], Delivery(map[], map[]), IDLE)
    else Acted(SystemAfter(acts[..|acts| - 1]), acts[|acts| - 1])
  }

  function ActedAll(s: System, acts: seq<Act>): System {
    if acts == [] then s else Acted(ActedAll(s, acts[..|acts| - 1]), acts[|acts| - 1])
  }

  /** The acts of a drain over the runs it fetched: each is pushed, then marked. */
  function Turns(ids: seq<RunId>, faults: map<RunId, Fault>): seq<Act> {
    if ids == [] then []
    else
      var n := |ids| - 1;
      var f := FaultOf(faults)(ids[n]);
      Turns(ids[..n], faults) + [Push(ids[n], f), SetMark(ids[n], f.mark)]
  }

  lemma ActedSnoc(s: System, acts: seq<Act>, a: Act, b: Act)
    ensures ActedAll(s, acts + [a, b]) == Acted(Acted(ActedAll(s, acts), a), b)
  {
    hide Acted;
    assert (acts + [a, b])[..|acts| + 1] == acts + [a] && (acts + [a])[..|acts|] == acts;
  }

  /** One run: its push and its mark are what the drain does with it, and leave nothing of it
      under way. */
  lemma TurnDrains(s: System, id: RunId, f: Fault)
    requires id in s.flight.toPush && s.flight.toPush[id] != [] && s.flight.toMark == map[]
    ensures Acted(Acted(s, Push(id, f)), SetMark(id, f.mark)) ==
            s.(d := DrainRun(s.runs, s.d, id, s.flight.toPush[id], f), flight := Flight(s.flight.toPush - {id}, map[]))
  {
    DrainRunSplits(s.runs, s.d, id, s.flight.toPush[id], f);
    hide DrainRun, PushHalf, MarkHalf;
    var through := s.flight.toPush[id][|s.flight.toPush[id]| - 1].sequence;
    assert map[id := through] - {id} == map[];
  }

  lemma {:induction false} TurnsDrain(s: System, fetched: seq<Entry>, ids: seq<RunId>, faults: map<RunId, Fault>)
    requires s.flight == Flight(map id | id in RunsOf(fetched) :: EventsOf(fetched, id), map[])
    requires (forall id :: id in ids ==> id in RunsOf(fetched))
             && forall i, j :: 0 <= i < j < |ids| ==> ids[i] != ids[j]
    ensures ActedAll(s, Turns(ids, faults)) ==
            s.(d := DrainRuns(s.runs, s.d, fetched, ids, FaultOf(faults)),
               flight := Flight(map id | id in RunsOf(fetched) && id !in ids :: EventsOf(fetched, id), map[]))
  {
    hide DrainRun, RunsOf, EventsOf, Acted, FaultOf;
    if ids != [] {
      var n := |ids| - 1;
      var id, f := ids[n], FaultOf(faults)(ids[n]);
      assert ids == ids[..n] + [id];
      TurnsDrain(s, fetched, ids[..n], faults);
      ActedSnoc(s, Turns(ids[..n], faults), Push(id, f), SetMark(id, f.mark));
      SomeEvent(fetched, id);
      var before := ActedAll(s, Turns(ids[..n], faults));
      TurnDrains(before, id, f);
      assert before.flight.toPush - {id} == map x | x in RunsOf(fetched) && x !in ids :: EventsOf(fetched, x);
    }
  }

  /** A drain that nothing interrupts is one schedule of the fine-grained acts: fetch, then for
      each fetched run in order its push and its mark. */
  lemma DrainIsActs(s: System, batch: nat, faults: map<RunId, Fault>)
    ensures var ids := SortedIds(RunsOf(Fetched(s.logs, s.d.marks, batch)));
            ActedAll(Acted(s, Fetch(batch)), Turns(ids, faults)) == Acted(s, Drain(batch, faults))
  {
    var fetched := Fetched(s.logs, s.d.marks, batch);
    var ids := SortedIds(RunsOf(fetched));
    SortedOnce(RunsOf(fetched));
    hide *;
    BothDrains(s, batch, faults);
    TurnsDrain(Acted(s, Fetch(batch)), fetched, ids, faults);
    assert (map id | id in RunsOf(fetched) && id !in ids :: EventsOf(fetched, id)) == map[];
  }

  lemma SortedOnce(ids: set<RunId>)
    ensures forall x :: x in SortedIds(ids) <==> x in ids
    ensures forall i, j :: 0 <= i < j < |SortedIds(ids)| ==> SortedIds(ids)[i] != SortedIds(ids)[j]
  {
  }

  lemma BothDrains(s: System, batch: nat, faults: map<RunId, Fault>)
    ensures var fetched := Fetched(s.logs, s.d.marks, batch);
            && Acted(s, Fetch(batch))
                == s.(flight := Flight(map id | id in RunsOf(fetched) :: EventsOf(fetched, id), map[]))
            && Acted(s, Drain(batch, faults)) ==
               s.(d := DrainRuns(s.runs, s.d, fetched, SortedIds(RunsOf(fetched)), FaultOf(faults)),
                  flight := Flight(map[], map[]))
  {
    hide Fetched, RunsOf, EventsOf, DrainRuns, FaultOf;
  }

  lemma CreateSafe(s: System, id: RunId, new_: NewRun)
    requires Safe(s.runs, s.logs, s.d) && id !in s.runs && !KeyTaken(s.runs, new_.idempotencyKey)
    ensures Safe(s.runs[id := Created(id, new_)], s.logs, s.d)
  {
    var runs := s.runs[id := Created(id, new_)];
    hide Covers;
    var key := new_.idempotencyKey;
    assert forall a :: a in s.runs && s.runs[a].idempotencyKey.Some? && s.runs[a].idempotencyKey == key ==>
      OwnsKey(s.runs, a, key.value);
    assert DistinctKeys(runs);
    forall p | OnPlatform(runs, id, p) ensures p !in s.d.sink {
      if p in s.d.sink {
        var other :| OnPlatform(s.runs, other, p);
        assert OnPlatform(runs, other, p);
        OneRunPerPlatform(runs, id, other, p);
      }
    }
    forall x, p | OnPlatform(runs, x, p) ensures Covers(Got(s.d.sink, p), LogOf(s.logs, x), MarkOf(s.d.marks, x)) {
      if x == id {
        NothingYet(s, id, p);
      } else {
        assert OnPlatform(s.runs, x, p);
      }
    }
    forall p | p in s.d.sink ensures exists x :: OnPlatform(runs, x, p) {
      var x :| OnPlatform(s.runs, x, p);
      assert OnPlatform(runs, x, p);
    }
  }

  lemma NothingYet(s: System, id: RunId, p: string)
    requires Safe(s.runs, s.logs, s.d) && id !in s.runs && p !in s.d.sink
    ensures Covers(Got(s.d.sink, p), LogOf(s.logs, id), MarkOf(s.d.marks, id))
  {
    assert LogOf(s.logs, id) == [];
    assert MarkOf(s.d.marks, id) <= |LogOf(s.logs, id)|;
    assert HoldsPrefix(map[], LogOf(s.logs, id), 0);
  }

  lemma {:induction false} WriteKeepsKey(rec: RunRecord, ms: seq<Mutation>)
    ensures ApplyAll(rec, ms).Ok? ==> ApplyAll(rec, ms).value.idempotencyKey == rec.idempotencyKey
  {
    if ms != [] {
      WriteKeepsKey(rec, ms[..|ms| - 1]);
    }
  }

  lemma CoversLonger(got: Received, log: seq<StoredRunEvent>, longer: seq<StoredRunEvent>, mark: nat)
    requires Covers(got, log, mark) && log <= longer
    ensures Covers(got, longer, mark)
  {
    var k :| HoldsPrefix(got, log, k) && mark <= k;
    assert HoldsPrefix(got, longer, k);
  }

  /** A write to one run, which keeps the run's key and only adds to its log, keeps all that a
      delivery relies on: keys, marks, what is covered, and where the sink's entries go. */
  lemma WriteSafe(s: System, id: RunId, v: RunView)
    requires Safe(s.runs, s.logs, s.d) && id in s.runs
    requires v.rec.idempotencyKey == s.runs[id].idempotencyKey && LogOf(s.logs, id) <= v.log && Sequenced(v.log)
    ensures Safe(s.runs[id := v.rec], s.logs[id := v.log], s.d)
  {
    var runs, logs := s.runs[id := v.rec], s.logs[id := v.log];
    hide *;
    SafeParts(s.runs, s.logs, s.d);
    SamePlatforms(s.runs, id, v.rec);
    LongerLogs(s.logs, s.d.marks, id, v.log);
    KeysKept(s.runs, s.logs, id, v);
    forall x, p | OnPlatform(runs, x, p) ensures Covers(Got(s.d.sink, p), LogOf(logs, x), MarkOf(s.d.marks, x)) {
      CoversLonger(Got(s.d.sink, p), LogOf(s.logs, x), LogOf(logs, x), MarkOf(s.d.marks, x));
    }
    forall p | p in s.d.sink ensures exists x :: OnPlatform(runs, x, p) {
      var x :| OnPlatform(s.runs, x, p);
      assert OnPlatform(runs, x, p);
    }
    PartsSafe(runs, logs, s.d);
  }

  lemma SafeParts(runs: Runs, logs: Logs, d: Delivery)
    requires Safe(runs, logs, d)
    ensures DistinctKeys(runs) && logs.Keys <= runs.Keys && Marking(logs, d.marks)
    ensures forall id, p :: OnPlatform(runs, id, p) ==> Covers(Got(d.sink, p), LogOf(logs, id), MarkOf(d.marks, id))
    ensures forall p :: p in d.sink ==> exists id :: OnPlatform(runs, id, p)
  {
    hide DistinctKeys, Marking, OnPlatform, Covers, LogOf, MarkOf, Got;
  }

  lemma PartsSafe(runs: Runs, logs: Logs, d: Delivery)
    requires DistinctKeys(runs) && logs.Keys <= runs.Keys && Marking(logs, d.marks)
    requires forall id, p :: OnPlatform(runs, id, p) ==> Covers(Got(d.sink, p), LogOf(logs, id), MarkOf(d.marks, id))
    requires forall p :: p in d.sink ==> exists id :: OnPlatform(runs, id, p)
    ensures Safe(runs, logs, d)
  {
    hide DistinctKeys, Marking, OnPlatform, Covers, LogOf, MarkOf, Got;
  }

  lemma SamePlatforms(runs: Runs, id: RunId, rec: RunRecord)
    requires id in runs && rec.idempotencyKey == runs[id].idempotencyKey && DistinctKeys(runs)
    ensures forall x, p :: OnPlatform(runs[id := rec], x, p) <==> OnPlatform(runs, x, p)
    ensures DistinctKeys(runs[id := rec])
  {
    hide PlatformId;
  }

  lemma LongerLogs(logs: Logs, marks: Marks, id: RunId, log: seq<StoredRunEvent>)
    requires Marking(logs, marks) && LogOf(logs, id) <= log && Sequenced(log)
    ensures Marking(logs[id := log], marks)
    ensures forall x :: LogOf(logs, x) <= LogOf(logs[id := log], x)
  {
    var after := logs[id := log];
    hide Sequenced;
    forall x ensures Sequenced(LogOf(after, x)) && MarkOf(marks, x) <= |LogOf(after, x)|
        && LogOf(logs, x) <= LogOf(after, x) {
      MarkingAt(logs, marks, x);
      assert LogOf(after, x) == if x == id then log else LogOf(logs, x);
    }
    LogsMarking(after, marks);
  }

  lemma MarkingAt(logs: Logs, marks: Marks, id: RunId)
    requires Marking(logs, marks)
    ensures Sequenced(LogOf(logs, id)) && MarkOf(marks, id) <= |LogOf(logs, id)|
  {
  }

  lemma LogsMarking(logs: Logs, marks: Marks)
    requires forall id :: Sequenced(LogOf(logs, id)) && MarkOf(marks, id) <= |LogOf(logs, id)|
    ensures Marking(logs, marks)
  {
  }

  lemma KeysKept(runs: Runs, logs: Logs, id: RunId, v: RunView)
    requires id in runs && logs.Keys <= runs.Keys
    ensures logs[id := v.log].Keys <= runs[id := v.rec].Keys
  {
  }

  /** What is under way still fits: events to push follow the mark in the log, and a mark to
      set is covered by what the platform has. */
  ghost predicate Pushable(s: System) {
    forall id :: id in s.flight.toPush ==> IsNext(LogOf(s.logs, id), MarkOf(s.d.marks, id), s.flight.toPush[id])
  }

  predicate IsNext(log: seq<StoredRunEvent>, mark: nat, events: seq<StoredRunEvent>) {
    events != [] && mark + |events| <= |log| && events == log[mark..mark + |events|]
  }

  /** The platform has the log of a run at least up to `through`. */
  ghost predicate Reaches(runs: Runs, logs: Logs, sink: map<string, Received>, id: RunId, through: nat) {
    id in runs && through <= |LogOf(logs, id)|
    && forall p :: OnPlatform(runs, id, p) ==> Covers(Got(sink, p), LogOf(logs, id), through)
  }

  ghost predicate Markable(s: System) {
    forall id :: id in s.flight.toMark ==>
      id !in s.flight.toPush && Reaches(s.runs, s.logs, s.d.sink, id, s.flight.toMark[id])
  }

  ghost predicate Sound(s: System) {
    Safe(s.runs, s.logs, s.d) && Pushable(s) && Markable(s)
  }

  lemma FetchSound(s: System, batch: nat)
    requires Safe(s.runs, s.logs, s.d)
    ensures Sound(Acted(s, Fetch(batch)))
  {
    var fetched := Fetched(s.logs, s.d.marks, batch);
    hide *;
    BothDrains(s, batch, map[]);
    SafeParts(s.runs, s.logs, s.d);
    forall id | id in RunsOf(fetched) ensures IsNext(LogOf(s.logs, id), MarkOf(s.d.marks, id), EventsOf(fetched, id)) {
      SomeEvent(fetched, id);
      var upto := FetchedSegment(s.logs, s.d.marks, batch, id);
      NextSegment(LogOf(s.logs, id), MarkOf(s.d.marks, id), EventsOf(fetched, id), upto);
    }
    FlightSound(s, Acted(s, Fetch(batch)));
  }

  lemma NextSegment(log: seq<StoredRunEvent>, mark: nat, events: seq<StoredRunEvent>, upto: nat)
    requires mark <= upto <= |log| && events == log[mark..upto] && events != []
    ensures IsNext(log, mark, events)
  {
  }

  lemma FlightSound(s: System, s': System)
    requires Safe(s.runs, s.logs, s.d) && s' == s.(flight := Flight(s'.flight.toPush, map[]))
    requires forall id :: id in s'.flight.toPush ==>
               IsNext(LogOf(s.logs, id), MarkOf(s.d.marks, id), s'.flight.toPush[id])
    ensures Sound(s')
  {
    hide Safe, IsNext, LogOf, MarkOf;
  }

  /** Pushing is `DrainRun` with a mark that fails: it moves no mark. */
  lemma PushIsDrain(s: System, id: RunId, f: Fault)
    requires id in s.flight.toPush && s.flight.toPush[id] != []
    ensures PushedOne(s, id, f).d == DrainRun(s.runs, s.d, id, s.flight.toPush[id], f.(mark := true))
    ensures PushedOne(s, id, f).d.marks == s.d.marks
  {
  }

  lemma SoundAt(s: System, id: RunId)
    requires Sound(s) && id in s.flight.toPush
    ensures Safe(s.runs, s.logs, s.d) && IsNext(LogOf(s.logs, id), MarkOf(s.d.marks, id), s.flight.toPush[id])
    ensures id !in s.flight.toMark
  {
    hide Safe, Reaches;
  }

  lemma PushSafe(s: System, id: RunId, f: Fault)
    requires Sound(s) && id in s.flight.toPush
    ensures Safe(s.runs, s.logs, PushedOne(s, id, f).d)
    ensures OnlyTouches(s.runs, s.d, PushedOne(s, id, f).d, id)
  {
    hide *;
    var events, mark := s.flight.toPush[id], MarkOf(s.d.marks, id);
    SoundAt(s, id);
    SegmentOf(LogOf(s.logs, id), mark, events);
    PushIsDrain(s, id, f);
    DrainRunSafe(s.runs, s.logs, s.d, id, mark + |events|, f.(mark := true));
    DrainRunTouches(s.runs, s.d, id, events, f.(mark := true));
  }

  lemma SegmentOf(log: seq<StoredRunEvent>, mark: nat, events: seq<StoredRunEvent>)
    requires IsNext(log, mark, events)
    ensures events != [] && mark + |events| <= |log| && events == log[mark..mark + |events|]
  {
  }

  /** A push that asks for its mark has landed all its events. */
  lemma PushReaches(s: System, id: RunId, f: Fault)
    requires Sound(s) && id in s.flight.toPush && id in PushedOne(s, id, f).flight.toMark
    ensures Reaches(s.runs, s.logs, PushedOne(s, id, f).d.sink, id, PushedOne(s, id, f).flight.toMark[id])
  {
    hide *;
    var events, mark, log := s.flight.toPush[id], MarkOf(s.d.marks, id), LogOf(s.logs, id);
    SoundAt(s, id);
    PushMarks(s, id, f);
    SegmentOf(log, mark, events);
    SafeAt(s.runs, s.logs, s.d, id);
    forall p | OnPlatform(s.runs, id, p) ensures Covers(Got(PushedOne(s, id, f).d.sink, p), log, mark + |events|) {
      PushLands(s, id, f, p);
      LandCovers(Got(s.d.sink, p), log, mark, mark + |events|, f);
    }
    NowReaches(s.runs, s.logs, PushedOne(s, id, f).d.sink, id, mark + |events|);
  }

  lemma NowReaches(runs: Runs, logs: Logs, sink: map<string, Received>, id: RunId, through: nat)
    requires id in runs && through <= |LogOf(logs, id)|
    requires forall p :: OnPlatform(runs, id, p) ==> Covers(Got(sink, p), LogOf(logs, id), through)
    ensures Reaches(runs, logs, sink, id, through)
  {
    hide Covers;
  }

  lemma SafeAt(runs: Runs, logs: Logs, d: Delivery, id: RunId)
    requires Safe(runs, logs, d)
    ensures Sequenced(LogOf(logs, id))
    ensures forall p :: OnPlatform(runs, id, p) ==> Covers(Got(d.sink, p), LogOf(logs, id), MarkOf(d.marks, id))
  {
    hide Covers, DistinctKeys, Sequenced;
  }

  lemma PushLands(s: System, id: RunId, f: Fault, p: string)
    requires id in s.flight.toPush && id !in s.flight.toMark && id in PushedOne(s, id, f).flight.toMark
    requires OnPlatform(s.runs, id, p)
    ensures f.push.None? && Got(PushedOne(s, id, f).d.sink, p) == Land(Got(s.d.sink, p), Landed(s.flight.toPush[id], f))
  {
    hide Land, Landed;
  }

  lemma OthersReach(runs: Runs, logs: Logs, d: Delivery, d': Delivery, id: RunId, x: RunId, through: nat)
    requires DistinctKeys(runs) && OnlyTouches(runs, d, d', id)
    requires x != id && Reaches(runs, logs, d.sink, x, through)
    ensures Reaches(runs, logs, d'.sink, x, through)
  {
    hide Covers, DistinctKeys;
    forall p | OnPlatform(runs, x, p) ensures Got(d'.sink, p) == Got(d.sink, p) {
      if OnPlatform(runs, id, p) { OneRunPerPlatform(runs, x, id, p); }
    }
  }

  /** A push asks for the mark of its last event, if it asks for one. */
  lemma PushMarks(s: System, id: RunId, f: Fault)
    requires Sound(s) && id in s.flight.toPush
    ensures var marks := PushedOne(s, id, f).flight.toMark;
            && (forall x :: x != id ==> (x in marks <==> x in s.flight.toMark))
            && (forall x :: x in marks && x != id ==> marks[x] == s.flight.toMark[x])
            && (id in marks ==>
                  && id in s.runs && marks[id] == MarkOf(s.d.marks, id) + |s.flight.toPush[id]|
                  && (PlatformId(s.runs[id].idempotencyKey).Some? ==> f.push.None?))
  {
    var events, mark, log := s.flight.toPush[id], MarkOf(s.d.marks, id), LogOf(s.logs, id);
    SafeLog(s.runs, s.logs, s.d, id);
    hide Safe, Land;
    assert IsNext(log, mark, events) && events[|events| - 1] == log[mark + |events| - 1];
  }

  lemma PushSound(s: System, id: RunId, f: Fault)
    requires Sound(s) && id in s.flight.toPush
    ensures Sound(PushedOne(s, id, f))
  {
    PushSafe(s, id, f);
    PushMarks(s, id, f);
    PushPushable(s, id, f);
    PushMarkable(s, id, f);
    hide Safe, Pushable, Markable, PushedOne;
    assert PushedOne(s, id, f).runs == s.runs && PushedOne(s, id, f).logs == s.logs by { PushKeeps(s, id, f); }
  }

  lemma PushKeeps(s: System, id: RunId, f: Fault)
    requires id in s.flight.toPush
    ensures var s' := PushedOne(s, id, f);
            s'.runs == s.runs && s'.logs == s.logs && s'.flight.toPush == s.flight.toPush - {id}
  {
  }

  lemma PushPushable(s: System, id: RunId, f: Fault)
    requires Sound(s) && id in s.flight.toPush
    ensures Pushable(PushedOne(s, id, f))
  {
    SoundAt(s, id);
    PushKeeps(s, id, f);
    PushIsDrain(s, id, f);
    hide Safe, Markable, PushedOne, DrainRun, IsNext, LogOf, MarkOf;
  }

  lemma PushMarkable(s: System, id: RunId, f: Fault)
    requires Sound(s) && id in s.flight.toPush
    ensures Markable(PushedOne(s, id, f))
  {
    var s' := PushedOne(s, id, f);
    PushKeeps(s, id, f);
    PushMarks(s, id, f);
    PushSafe(s, id, f);
    assert DistinctKeys(s.runs) && id !in s.flight.toMark;
    hide Reaches, Safe, PushedOne, OnlyTouches, LogOf, MarkOf;
    forall x | x in s'.flight.toMark ensures Reaches(s.runs, s.logs, s'.d.sink, x, s'.flight.toMark[x]) {
      if x == id {
        PushReaches(s, id, f);
      } else {
        OthersReach(s.runs, s.logs, s.d, s'.d, id, x, s.flight.toMark[x]);
      }
    }
  }

  lemma MarkSafe(runs: Runs, logs: Logs, d: Delivery, id: RunId, through: nat)
    requires Safe(runs, logs, d) && Reaches(runs, logs, d.sink, id, through)
    ensures Safe(runs, logs, MarkHalf(d, id, through, false))
  {
    hide Covers, DistinctKeys;
    var marks := MarkHalf(d, id, through, false).marks;
    forall x ensures MarkOf(marks, x) == MarkOf(d.marks, x) || (x == id && MarkOf(marks, x) == through) {}
    assert Marking(logs, marks);
  }

  lemma MarkSound(s: System, id: RunId, fails: bool)
    requires Sound(s) && id in s.flight.toMark
    ensures Sound(MarkedOne(s, id, fails))
  {
    MarkSafe(s.runs, s.logs, s.d, id, s.flight.toMark[id]);
    hide Safe, Reaches, IsNext, LogOf;
  }

  lemma CreateSound(s: System, id: RunId, new_: NewRun)
    requires Sound(s) && id !in s.runs && !KeyTaken(s.runs, new_.idempotencyKey)
    ensures Sound(s.(runs := s.runs[id := Created(id, new_)]))
  {
    CreateSafe(s, id, new_);
    hide Safe, Covers;
    forall x, p | x in s.flight.toMark
      ensures OnPlatform(s.runs[id := Created(id, new_)], x, p) <==> OnPlatform(s.runs, x, p) {}
  }

  lemma WriteReaches(s: System, id: RunId, v: RunView, x: RunId, through: nat)
    requires id in s.runs && v.rec.idempotencyKey == s.runs[id].idempotencyKey && LogOf(s.logs, id) <= v.log
    requires Reaches(s.runs, s.logs, s.d.sink, x, through)
    ensures Reaches(s.runs[id := v.rec], s.logs[id := v.log], s.d.sink, x, through)
  {
    hide Covers;
    var runs, logs := s.runs[id := v.rec], s.logs[id := v.log];
    forall p | OnPlatform(runs, x, p) ensures Covers(Got(s.d.sink, p), LogOf(logs, x), through) {
      assert OnPlatform(s.runs, x, p);
      CoversLonger(Got(s.d.sink, p), LogOf(s.logs, x), LogOf(logs, x), through);
    }
  }

  lemma NextLonger(log: seq<StoredRunEvent>, longer: seq<StoredRunEvent>, mark: nat, events: seq<StoredRunEvent>)
    requires IsNext(log, mark, events) && log <= longer
    ensures IsNext(longer, mark, events)
  {
  }

  lemma WriteSound(s: System, id: RunId, v: RunView)
    requires Sound(s) && id in s.runs
    requires v.rec.idempotencyKey == s.runs[id].idempotencyKey && LogOf(s.logs, id) <= v.log && Sequenced(v.log)
    ensures Sound(s.(runs := s.runs[id := v.rec], logs := s.logs[id := v.log]))
  {
    var runs, logs := s.runs[id := v.rec], s.logs[id := v.log];
    WriteSafe(s, id, v);
    hide Safe, Reaches, IsNext;
    forall x | x in s.flight.toPush ensures IsNext(LogOf(logs, x), MarkOf(s.d.marks, x), s.flight.toPush[x]) {
      NextLonger(LogOf(s.logs, x), LogOf(logs, x), MarkOf(s.d.marks, x), s.flight.toPush[x]);
    }
    forall x | x in s.flight.toMark ensures Reaches(runs, logs, s.d.sink, x, s.flight.toMark[x]) {
      WriteReaches(s, id, v, x, s.flight.toMark[x]);
    }
  }

  lemma ActSound(s: System, a: Act)
    requires Sound(s)
    ensures Sound(Acted(s, a))
  {
    hide *;
    match a {
      case Create(id, new_) => CreatedSound(s, id, new_);
      case Write(id, ms) => WrittenSound(s, id, ms);
      case Fetch(batch) =>
        SafeOf(s);
        FetchSound(s, batch);
      case Push(id, f) => PushedSound(s, id, f);
      case SetMark(id, fails) => MarkedSound(s, id, fails);
      case Restart => RestartedSound(s);
      case Drain(batch, faults) => DrainedSound(s, batch, faults);
    }
  }

  lemma SafeOf(s: System)
    requires Sound(s)
    ensures Safe(s.runs, s.logs, s.d)
  {
    hide Safe, Pushable, Markable;
  }

  lemma CreatedSound(s: System, id: RunId, new_: NewRun)
    requires Sound(s)
    ensures Sound(Acted(s, Create(id, new_)))
  {
    hide Sound;
    if id !in s.runs && !KeyTaken(s.runs, new_.idempotencyKey) { CreateSound(s, id, new_); }
  }

  lemma WrittenSound(s: System, id: RunId, ms: seq<Mutation>)
    requires Sound(s)
    ensures Sound(Acted(s, Write(id, ms)))
  {
    SafeOf(s);
    SafeAt(s.runs, s.logs, s.d, id);
    hide Sound, ApplyBatch;
    if id in s.runs && ApplyBatch(RunView(s.runs[id], LogOf(s.logs, id)), ms).Ok? {
      BatchGrows(RunView(s.runs[id], LogOf(s.logs, id)), ms);
      WriteSound(s, id, ApplyBatch(RunView(s.runs[id], LogOf(s.logs, id)), ms).value);
    }
  }

  lemma BatchGrows(v: RunView, ms: seq<Mutation>)
    requires Sequenced(v.log) && ApplyBatch(v, ms).Ok?
    ensures var after := ApplyBatch(v, ms).value;
            after.rec.idempotencyKey == v.rec.idempotencyKey && v.log <= after.log && Sequenced(after.log)
  {
    LogGrows(v.log, ms);
    WriteKeepsKey(v.rec, ms);
  }

  lemma PushedSound(s: System, id: RunId, f: Fault)
    requires Sound(s)
    ensures Sound(Acted(s, Push(id, f)))
  {
    hide Sound, PushedOne;
    if id in s.flight.toPush { PushSound(s, id, f); }
  }

  lemma MarkedSound(s: System, id: RunId, fails: bool)
    requires Sound(s)
    ensures Sound(Acted(s, SetMark(id, fails)))
  {
    hide Sound, MarkedOne;
    if id in s.flight.toMark { MarkSound(s, id, fails); }
  }

  lemma RestartedSound(s: System)
    requires Sound(s)
    ensures Sound(Acted(s, Restart))
  {
    hide Safe;
  }

  lemma DrainedSound(s: System, batch: nat, faults: map<RunId, Fault>)
    requires Sound(s)
    ensures Sound(Acted(s, Drain(batch, faults)))
  {
    SafeOf(s);
    DrainSafe(s.runs, s.logs, s.d, batch, FaultOf(faults));
    hide Safe, Drained, FaultOf;
  }

  /** Over every history of runs, writes and drains, with writes between any two effects of a
      drain and whatever fails when: the platform holds of each platform run exactly the
      events 1 to k of its log, for a k not below the run's mark. */
  lemma {:induction false} NothingLost(acts: seq<Act>)
    ensures var s := SystemAfter(acts); Safe(s.runs, s.logs, s.d)
  {
    HistorySound(acts);
  }

  lemma {:induction false} HistorySound(acts: seq<Act>)
    ensures Sound(SystemAfter(acts))
  {
    if acts == [] {
      EmptySafe();
    } else {
      hide Sound, Acted;
      HistorySound(acts[..|acts| - 1]);
      ActSound(SystemAfter(acts[..|acts| - 1]), acts[|acts| - 1]);
    }
  }

  lemma EmptySafe()
    ensures Safe(map[], map[], Delivery(map[], map[]))
  {
  }

  function CleanDrains(s: System, batches: seq<nat>): System {
    if batches == [] then s else Acted(CleanDrains(s, batches[..|batches| - 1]), Drain(batches[|batches| - 1], map[]))
  }

  /** Enough drains without failures deliver every event of every platform run. */
  lemma EverythingArrives(s: System, batches: seq<nat>)
    requires Safe(s.runs, s.logs, s.d) && |batches| >= |AllUnpushed(s.logs, s.d.marks)|
    ensures var s' := CleanDrains(s, batches);
            && s'.runs == s.runs && s'.logs == s.logs
            && AllUnpushed(s'.logs, s'.d.marks) == []
            && forall id, p :: OnPlatform(s.runs, id, p) ==>
                HoldsPrefix(Got(s'.d.sink, p), LogOf(s.logs, id), |LogOf(s.logs, id)|)
  {
    hide Safe, AllUnpushed, HoldsPrefix;
    CleanDrainsShrink(s, batches);
    NothingLeft(CleanDrains(s, batches));
  }

  lemma {:induction false} CleanDrainsShrink(s: System, batches: seq<nat>)
    requires Safe(s.runs, s.logs, s.d)
    ensures var s' := CleanDrains(s, batches);
            && s'.runs == s.runs && s'.logs == s.logs && Safe(s'.runs, s'.logs, s'.d)
            && (AllUnpushed(s'.logs, s'.d.marks) == []
                || |AllUnpushed(s'.logs, s'.d.marks)| + |batches| <= |AllUnpushed(s.logs, s.d.marks)|)
  {
    hide Safe, AllUnpushed, Drained, Fetched;
    if batches != [] {
      var n := |batches| - 1;
      CleanDrainsShrink(s, batches[..n]);
      var r := CleanDrains(s, batches[..n]);
      DrainSafe(r.runs, r.logs, r.d, batches[n], FaultOf(map[]));
      CleanDrain(r.runs, r.logs, r.d, batches[n], FaultOf(map[]));
      FetchedFits(r.logs, r.d.marks, batches[n]);
    }
  }

  lemma FetchedFits(logs: Logs, marks: Marks, batch: nat)
    ensures |Fetched(logs, marks, batch)| <= |AllUnpushed(logs, marks)|
  {
  }

  lemma NothingLeft(s: System)
    requires Safe(s.runs, s.logs, s.d) && AllUnpushed(s.logs, s.d.marks) == []
    ensures forall id, p :: OnPlatform(s.runs, id, p) ==>
              HoldsPrefix(Got(s.d.sink, p), LogOf(s.logs, id), |LogOf(s.logs, id)|)
  {
    forall id, p | OnPlatform(s.runs, id, p)
      ensures HoldsPrefix(Got(s.d.sink, p), LogOf(s.logs, id), |LogOf(s.logs, id)|) {
      var log, mark := LogOf(s.logs, id), MarkOf(s.d.marks, id);
      EventsOfAll(s.logs, s.d.marks, id);
      UnpushedIsTail(log, mark);
      assert log[mark..] == EventsOf([], id) == [];
      var k :| HoldsPrefix(Got(s.d.sink, p), log, k) && mark <= k;
    }
  }
}
