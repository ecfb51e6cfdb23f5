/** The outbox as a table with a pushed flag per row, and its agreement with the in-memory
    outbox, which keeps one mark per run. */
module OutboxTable {
  import opened Wrappers
  import opened Ordering
  import opened Ports
  import opened Outbox

  datatype EventRow = EventRow(entry: Entry, pushed: bool)

  type Table = seq<EventRow>

  // ----- the statements -----------------------------------------------------------------

  /** `COALESCE(MAX(sequence), 0)` over the rows of a run. */
  function MaxSequence(table: Table, id: RunId): nat {
    if table == [] then 0
    else
      var n := |table| - 1;
      var before := MaxSequence(table[..n], id);
      if table[n].entry.runId == id && table[n].entry.event.sequence > before then table[n].entry.event.sequence
      else before
  }

  function AppendRow(table: Table, id: RunId, record: RunEventRecord): Table {
    table + [EventRow(Entry(id, StoredRunEvent(MaxSequence(table, id) + 1, record)), false)]
  }

  /** The events among the mutations of one batch, inserted in order. */
  function AppendRows(table: Table, id: RunId, ms: seq<Mutation>): Table {
    if ms == [] then table
    else
      var n := |ms| - 1;
      var before := AppendRows(table, id, ms[..n]);
      if ms[n].AppendEvent? then AppendRow(before, id, ms[n].event) else before
  }

  function MarkRow(row: EventRow, id: RunId, through: nat): EventRow {
    if row.entry.runId == id && row.entry.event.sequence <= through then row.(pushed := true) else row
  }

  /** `UPDATE ... SET pushed_at` on the rows of a run up to a sequence. */
  function MarkRows(table: Table, id: RunId, through: nat): Table {
    seq(|table|, i requires 0 <= i < |table| => MarkRow(table[i], id, through))
  }

  /** `ORDER BY run_id, sequence`. */
  predicate Before(a: Entry, b: Entry) {
    if a.runId == b.runId then a.event.sequence < b.event.sequence else StrLe(a.runId, b.runId)
  }

  function InsertOrdered(e: Entry, entries: seq<Entry>): seq<Entry> {
    if entries == [] then [e]
    else if Before(e, entries[0]) then [e] + entries
    else [entries[0]] + InsertOrdered(e, entries[1..])
  }

  /** `WHERE pushed_at IS NULL ORDER BY run_id, sequence`. */
  function UnpushedRows(table: Table): seq<Entry> {
    if table == [] then []
    else
      var n := |table| - 1;
      if table[n].pushed then UnpushedRows(table[..n]) else InsertOrdered(table[n].entry, UnpushedRows(table[..n]))
  }

  class SqliteEvents {
    var table: Table

    constructor ()
      ensures table == []
    {
      table := [];
    }

    method AppendEvents(id: RunId, ms: seq<Mutation>)
      modifies this
      ensures table == AppendRows(old(table), id, ms)
    {
      for i := 0 to |ms|
        invariant table == AppendRows(old(table), id, ms[..i])
      {
        assert ms[..i + 1][..i] == ms[..i];
        if ms[i].AppendEvent? { table := AppendRow(table, id, ms[i].event); }
      }
      assert ms[..|ms|] == ms;
    }

    /** The first unflagged rows by run and sequence, up to the limit. */
    method UnpushedEvents(limit: nat) returns (out: seq<Entry>)
      ensures out == Taken(UnpushedRows(table), limit)
      ensures KeysUnique(table) ==> FirstUnpushed(table, limit, out)
    {
      out := Taken(UnpushedRows(table), limit);
      if KeysUnique(table) { TakenFirst(table, limit); }
    }

    /** Flags the rows of one run up to a sequence; nothing else changes, and no flag is ever
        taken back. */
    method MarkEventsPushed(id: RunId, through: nat)
      modifies this
      ensures table == MarkRows(old(table), id, through)
      ensures |table| == |old(table)|
      ensures forall i :: 0 <= i < |table| ==>
                && table[i].entry == old(table)[i].entry
                && (table[i].pushed <==>
                      old(table)[i].pushed || (table[i].entry.runId == id && table[i].entry.event.sequence <= through))
    {
      table := MarkRows(table, id, through);
    }
  }

  // ----- ordered listings ---------------------------------------------------------------

  ghost predicate Ascending(entries: seq<Entry>) {
    forall i, j :: 0 <= i < j < |entries| ==> Before(entries[i], entries[j])
  }

  predicate SameKey(a: Entry, b: Entry) {
    a.runId == b.runId && a.event.sequence == b.event.sequence
  }

  lemma BeforeTotal(a: Entry, b: Entry)
    ensures Before(a, b) || Before(b, a) || SameKey(a, b)
    ensures !(Before(a, b) && Before(b, a))
  {
    StrLeTotal(a.runId, b.runId);
    if StrLe(a.runId, b.runId) && StrLe(b.runId, a.runId) { StrLeAntisymmetric(a.runId, b.runId); }
  }

  lemma BeforeTransitive(a: Entry, b: Entry, c: Entry)
    requires Before(a, b) && Before(b, c)
    ensures Before(a, c)
  {
    if a.runId != b.runId && b.runId != c.runId {
      StrLeTransitive(a.runId, b.runId, c.runId);
      if a.runId == c.runId { StrLeAntisymmetric(a.runId, b.runId); }
    }
  }

  lemma {:induction false} InsertKeepsOrder(e: Entry, entries: seq<Entry>)
    requires Ascending(entries) && forall x :: x in entries ==> !SameKey(e, x)
    ensures Ascending(InsertOrdered(e, entries))
    ensures forall x :: x in InsertOrdered(e, entries) <==> x == e || x in entries
  {
    hide Before;
    if entries != [] {
      BeforeTotal(e, entries[0]);
      if Before(e, entries[0]) {
        forall k | 0 < k < |entries| ensures Before(e, entries[k]) {
          BeforeTransitive(e, entries[0], entries[k]);
        }
      } else {
        var rest := InsertOrdered(e, entries[1..]);
        InsertKeepsOrder(e, entries[1..]);
        forall k | 0 <= k < |rest| ensures Before(entries[0], rest[k]) {
          assert rest[k] in rest;
          if rest[k] != e {
            var j :| 0 <= j < |entries[1..]| && entries[1..][j] == rest[k];
            assert entries[j + 1] == rest[k];
          }
        }
      }
    }
  }

  /** There is one ascending listing of a set of entries. */
  lemma {:induction false} OneListing(a: seq<Entry>, b: seq<Entry>)
    requires Ascending(a) && Ascending(b) && forall x :: x in a <==> x in b
    ensures a == b
  {
    hide Before;
    if a == [] {
      SomeMember(b);
    } else {
      assert a[0] in a && a[0] in b;
      var k :| 0 <= k < |b| && b[k] == a[0];
      assert b[0] in b && b[0] in a;
      var j :| 0 <= j < |a| && a[j] == b[0];
      BeforeTotal(a[0], b[0]);
      assert j == 0 && k == 0;
      TailMembers(a);
      TailMembers(b);
      OneListing(a[1..], b[1..]);
      assert a == [a[0]] + a[1..] && b == [b[0]] + b[1..];
    }
  }

  lemma TailMembers(a: seq<Entry>)
    requires a != [] && Ascending(a)
    ensures forall x :: x in a[1..] <==> x in a && x != a[0]
  {
    hide Before;
    BeforeTotal(a[0], a[0]);
    forall x | x in a[1..] ensures x in a && x != a[0] {
      var k :| 0 <= k < |a[1..]| && a[1..][k] == x;
      assert Before(a[0], a[k + 1]);
    }
  }

  // ----- both listings are ascending ----------------------------------------------------

  ghost predicate KeysUnique(table: Table) {
    forall i, j :: 0 <= i < j < |table| ==> !SameKey(table[i].entry, table[j].entry)
  }

  predicate HasRow(table: Table, e: Entry, pushed: bool) {
    EventRow(e, pushed) in table
  }

  lemma {:induction false} RowsListed(table: Table)
    requires KeysUnique(table)
    ensures Ascending(UnpushedRows(table))
    ensures forall e :: e in UnpushedRows(table) <==> HasRow(table, e, false)
  {
    if table != [] {
      var n := |table| - 1;
      RowsListed(table[..n]);
      assert table == table[..n] + [table[n]];
      if !table[n].pushed {
        forall x | x in UnpushedRows(table[..n]) ensures !SameKey(table[n].entry, x) {
          assert HasRow(table[..n], x, false);
          var k :| 0 <= k < n && table[k] == EventRow(x, false);
        }
        InsertKeepsOrder(table[n].entry, UnpushedRows(table[..n]));
      }
    }
  }

  /** A listing of the unflagged rows in order, cut at a limit: unless everything is listed the
      limit is used up, and what is left out comes after what is listed. */
  ghost predicate FirstUnpushed(table: Table, limit: nat, out: seq<Entry>) {
    && Ascending(out) && |out| <= limit
    && (forall e :: e in out ==> HasRow(table, e, false))
    && (|out| < limit ==> forall e :: HasRow(table, e, false) ==> e in out)
    && (forall e, rest :: e in out && HasRow(table, rest, false) && rest !in out ==> Before(e, rest))
  }

  lemma TakenFirst(table: Table, limit: nat)
    requires KeysUnique(table)
    ensures FirstUnpushed(table, limit, Taken(UnpushedRows(table), limit))
  {
    RowsListed(table);
    hide UnpushedRows, KeysUnique, Before, HasRow;
    var all, out := UnpushedRows(table), Taken(UnpushedRows(table), limit);
    assert forall k :: 0 <= k < |out| ==> out[k] == all[k] && out[k] in out;
    forall e, rest | e in out && HasRow(table, rest, false) && rest !in out ensures Before(e, rest) {
      var i :| 0 <= i < |out| && out[i] == e;
      var j :| 0 <= j < |all| && all[j] == rest;
      assert i < j;
    }
  }

  lemma {:induction false} UnpushedMembers(log: seq<StoredRunEvent>, mark: nat)
    requires Sequenced(log)
    ensures forall e :: e in Unpushed(log, mark) <==> e in log && e.sequence > mark
    ensures forall i, j :: 0 <= i < j < |Unpushed(log, mark)| ==>
              Unpushed(log, mark)[i].sequence < Unpushed(log, mark)[j].sequence
  {
    if log != [] {
      var n := |log| - 1;
      UnpushedMembers(log[..n], mark);
      assert log == log[..n] + [log[n]];
      forall e | e in Unpushed(log[..n], mark) ensures e.sequence < log[n].sequence {
        assert e in log[..n];
      }
    }
  }

  lemma TaggedMembers(id: RunId, events: seq<StoredRunEvent>)
    ensures forall e :: e in Tagged(id, events) <==> e.runId == id && e.event in events
  {
    forall e: Entry | e.runId == id && e.event in events ensures e in Tagged(id, events) {
      var k :| 0 <= k < |events| && events[k] == e.event;
      assert Tagged(id, events)[k] == e;
    }
  }

  lemma {:induction false} LogsListed(logs: Logs, marks: Marks, ids: seq<RunId>)
    requires Sorted(ids) && forall id :: id in ids ==> Sequenced(LogOf(logs, id))
    ensures Ascending(UnpushedOf(logs, marks, ids))
    ensures forall e :: e in UnpushedOf(logs, marks, ids) <==>
              e.runId in ids && e.event in LogOf(logs, e.runId) && e.event.sequence > MarkOf(marks, e.runId)
  {
    if ids != [] {
      var n := |ids| - 1;
      var id, before := ids[n], UnpushedOf(logs, marks, ids[..n]);
      var events := Unpushed(LogOf(logs, id), MarkOf(marks, id));
      assert ids == ids[..n] + [id];
      LogsListed(logs, marks, ids[..n]);
      hide Unpushed, UnpushedOf, Tagged;
      UnpushedMembers(LogOf(logs, id), MarkOf(marks, id));
      TaggedMembers(id, events);
      RunAscending(id, events);
      OneMore(logs, marks, ids);
      forall e | e in before ensures StrLe(e.runId, id) && e.runId != id {
        var k :| 0 <= k < n && ids[k] == e.runId;
      }
      ConcatAscending(before, Tagged(id, events));
    }
  }

  lemma OneMore(logs: Logs, marks: Marks, ids: seq<RunId>)
    requires ids != []
    ensures var n := |ids| - 1;
            UnpushedOf(logs, marks, ids) == UnpushedOf(logs, marks, ids[..n])
                + Tagged(ids[n], Unpushed(LogOf(logs, ids[n]), MarkOf(marks, ids[n])))
  {
  }

  lemma RunAscending(id: RunId, events: seq<StoredRunEvent>)
    requires forall i, j :: 0 <= i < j < |events| ==> events[i].sequence < events[j].sequence
    ensures Ascending(Tagged(id, events))
  {
  }

  lemma ConcatAscending(a: seq<Entry>, b: seq<Entry>)
    requires Ascending(a) && Ascending(b)
             && forall x, y :: x in a && y in b ==> StrLe(x.runId, y.runId) && x.runId != y.runId
    ensures Ascending(a + b)
  {
    forall i, j | 0 <= i < j < |a + b| ensures Before((a + b)[i], (a + b)[j]) {
      if i < |a| <= j {
        assert a[i] in a && b[j - |a|] in b;
      }
    }
  }

  // ----- agreement ----------------------------------------------------------------------

  /** The logs are numbered from 1, and no mark is past the end of its log. */
  ghost predicate Marking(logs: Logs, marks: Marks) {
    forall id :: Sequenced(LogOf(logs, id)) && MarkOf(marks, id) <= |LogOf(logs, id)|
  }

  predicate InLog(logs: Logs, e: Entry) {
    e.event in LogOf(logs, e.runId)
  }

  /** The table holds the same events, each flagged exactly when its run's mark covers it. */
  ghost predicate Mirrors(logs: Logs, marks: Marks, table: Table) {
    && KeysUnique(table)
    && (forall e :: InLog(logs, e) <==> HasRow(table, e, true) || HasRow(table, e, false))
    && (forall e :: HasRow(table, e, true) ==> e.event.sequence <= MarkOf(marks, e.runId))
    && (forall e :: HasRow(table, e, false) ==> e.event.sequence > MarkOf(marks, e.runId))
  }

  /** Mirroring outboxes have the same unpushed events in the same order; cut at the same limit
      they give the same listing, except that a limit of 0 still gives one event in memory. */
  lemma SameListing(logs: Logs, marks: Marks, table: Table, limit: nat)
    requires Marking(logs, marks) && Mirrors(logs, marks, table)
    ensures AllUnpushed(logs, marks) == UnpushedRows(table)
    ensures Taken(AllUnpushed(logs, marks), AtLeastOne(limit)) == Taken(UnpushedRows(table), limit)
            <==> limit >= 1 || UnpushedRows(table) == []
  {
    LogsListed(logs, marks, SortedIds(logs.Keys));
    RowsListed(table);
    forall e ensures e in AllUnpushed(logs, marks) <==> e in UnpushedRows(table) {
      assert InLog(logs, e) ==> e.runId in SortedIds(logs.Keys);
    }
    OneListing(AllUnpushed(logs, marks), UnpushedRows(table));
  }

  /** What can happen to an outbox: a batch of writes, or a mark. */
  datatype Step = Append(runId: RunId, ms: seq<Mutation>) | MarkPushed(runId: RunId, through: nat)

  datatype Memory = Memory(logs: Logs, marks: Marks)

  function InMemory(m: Memory, step: Step): Memory {
    match step
    case Append(id, ms) => m.(logs := m.logs[id := AppendAll(LogOf(m.logs, id), ms)])
    case MarkPushed(id, through) => m.(marks := Marked(m.marks, id, through))
  }

  function InTable(table: Table, step: Step): Table {
    match step
    case Append(id, ms) => AppendRows(table, id, ms)
    case MarkPushed(id, through) => MarkRows(table, id, through)
  }

  function MemoryAfter(steps: seq<Step>): Memory {
    if steps == [] then Memory(map[], map[]) else InMemory(MemoryAfter(steps[..|steps| - 1]), steps[|steps| - 1])
  }

  function TableAfter(steps: seq<Step>): Table {
    if steps == [] then [] else InTable(TableAfter(steps[..|steps| - 1]), steps[|steps| - 1])
  }

  /** No mark goes past the highest sequence its run has when it is made. */
  predicate MarksInRange(steps: seq<Step>) {
    steps == [] ||
    (MarksInRange(steps[..|steps| - 1])
     && (steps[|steps| - 1].MarkPushed? ==>
           steps[|steps| - 1].through <= |LogOf(MemoryAfter(steps[..|steps| - 1]).logs, steps[|steps| - 1].runId)|))
  }

  lemma {:induction false} MaxSequenceMeans(table: Table, id: RunId)
    ensures forall row :: row in table && row.entry.runId == id ==> row.entry.event.sequence <= MaxSequence(table, id)
    ensures MaxSequence(table, id) == 0
            || exists row :: row in table && row.entry.runId == id && row.entry.event.sequence == MaxSequence(table, id)
  {
    if table != [] {
      var n := |table| - 1;
      MaxSequenceMeans(table[..n], id);
      assert table == table[..n] + [table[n]];
      assert table[n] in table;
    }
  }

  /** The next sequence of the table is the next sequence of the log. */
  lemma NextInTable(logs: Logs, marks: Marks, table: Table, id: RunId)
    requires Marking(logs, marks) && Mirrors(logs, marks, table)
    ensures MaxSequence(table, id) == |LogOf(logs, id)|
  {
    var log := LogOf(logs, id);
    MaxSequenceMeans(table, id);
    if log != [] {
      var last := Entry(id, log[|log| - 1]);
      assert InLog(logs, last);
      assert HasRow(table, last, true) || HasRow(table, last, false);
    }
    forall row | row in table && row.entry.runId == id ensures row.entry.event.sequence <= |log| {
      assert HasRow(table, row.entry, row.pushed);
      assert InLog(logs, row.entry);
    }
  }

  function Grown(logs: Logs, id: RunId, record: RunEventRecord): Logs {
    logs[id := LogOf(logs, id) + [StoredRunEvent(NextSequence(LogOf(logs, id)), record)]]
  }

  /** The event that comes next in a run's log. */
  function NextEntry(logs: Logs, id: RunId, record: RunEventRecord): Entry {
    Entry(id, StoredRunEvent(|LogOf(logs, id)| + 1, record))
  }

  lemma GrownLogs(logs: Logs, marks: Marks, id: RunId, record: RunEventRecord)
    requires Marking(logs, marks)
    ensures Marking(Grown(logs, id, record), marks)
    ensures forall e :: InLog(Grown(logs, id, record), e) <==> InLog(logs, e) || e == NextEntry(logs, id, record)
    ensures !InLog(logs, NextEntry(logs, id, record))
  {
    hide Grown, LogOf;
    forall x ensures Sequenced(LogOf(Grown(logs, id, record), x))
        && MarkOf(marks, x) <= |LogOf(Grown(logs, id, record), x)| {
      GrownLog(logs, marks, id, record, x);
    }
    forall e ensures InLog(Grown(logs, id, record), e) <==> InLog(logs, e) || e == NextEntry(logs, id, record) {
      GrownLog(logs, marks, id, record, e.runId);
    }
  }

  lemma GrownLog(logs: Logs, marks: Marks, id: RunId, record: RunEventRecord, x: RunId)
    requires Marking(logs, marks)
    ensures LogOf(Grown(logs, id, record), x) ==
            LogOf(logs, x) + (if x == id then [NextEntry(logs, id, record).event] else [])
  {
    assert Sequenced(LogOf(logs, id));
  }

  lemma GrownTable(logs: Logs, marks: Marks, table: Table, id: RunId, record: RunEventRecord)
    requires Marking(logs, marks) && Mirrors(logs, marks, table)
    ensures KeysUnique(AppendRow(table, id, record))
    ensures forall e, p :: HasRow(AppendRow(table, id, record), e, p) <==>
              HasRow(table, e, p) || (e == NextEntry(logs, id, record) && !p)
  {
    NextInTable(logs, marks, table, id);
    MaxSequenceMeans(table, id);
    assert KeysUnique(table);
    hide Marking, Mirrors, MaxSequence;
    forall i | 0 <= i < |table| ensures !SameKey(table[i].entry, NextEntry(logs, id, record)) {
      assert table[i] in table;
    }
    forall e, p | HasRow(table, e, p) ensures HasRow(AppendRow(table, id, record), e, p) {}
  }

  /** One appended event keeps the two outboxes in step. */
  lemma AppendKeeps(logs: Logs, marks: Marks, table: Table, id: RunId, record: RunEventRecord)
    requires Marking(logs, marks) && Mirrors(logs, marks, table)
    ensures Marking(Grown(logs, id, record), marks)
    ensures Mirrors(Grown(logs, id, record), marks, AppendRow(table, id, record))
  {
    hide Grown, AppendRow, InLog, HasRow, KeysUnique;
    GrownLogs(logs, marks, id, record);
    GrownTable(logs, marks, table, id, record);
  }

  lemma {:induction false} BatchKeeps(logs: Logs, marks: Marks, table: Table, id: RunId, ms: seq<Mutation>)
    requires Marking(logs, marks) && Mirrors(logs, marks, table)
    ensures var logs' := logs[id := AppendAll(LogOf(logs, id), ms)];
            Marking(logs', marks) && Mirrors(logs', marks, AppendRows(table, id, ms))
  {
    hide Marking, Mirrors, AppendRow;
    if ms == [] {
      SameLogs(logs, marks, table, id);
    } else {
      var n := |ms| - 1;
      BatchKeeps(logs, marks, table, id, ms[..n]);
      var log := AppendAll(LogOf(logs, id), ms[..n]);
      if ms[n].AppendEvent? {
        AppendKeeps(logs[id := log], marks, AppendRows(table, id, ms[..n]), id, ms[n].event);
        var next := log + [StoredRunEvent(NextSequence(log), ms[n].event)];
        assert logs[id := log][id := next] == logs[id := next] == Grown(logs[id := log], id, ms[n].event);
      }
    }
  }

  lemma SameLogs(logs: Logs, marks: Marks, table: Table, id: RunId)
    requires Marking(logs, marks) && Mirrors(logs, marks, table)
    ensures Marking(logs[id := LogOf(logs, id)], marks) && Mirrors(logs[id := LogOf(logs, id)], marks, table)
  {
    assert forall x :: LogOf(logs[id := LogOf(logs, id)], x) == LogOf(logs, x);
    assert forall e :: InLog(logs[id := LogOf(logs, id)], e) <==> InLog(logs, e);
  }

  lemma MarkedRows(table: Table, id: RunId, through: nat)
    ensures forall e :: HasRow(MarkRows(table, id, through), e, false) <==>
              HasRow(table, e, false) && !(e.runId == id && e.event.sequence <= through)
    ensures forall e :: HasRow(MarkRows(table, id, through), e, true) <==>
              HasRow(table, e, true) || (HasRow(table, e, false) && e.runId == id && e.event.sequence <= through)
    ensures KeysUnique(table) ==> KeysUnique(MarkRows(table, id, through))
  {
    var marked := MarkRows(table, id, through);
    forall e, p | HasRow(table, e, p) ensures MarkRow(EventRow(e, p), id, through) in marked {
      var k :| 0 <= k < |table| && table[k] == EventRow(e, p);
      assert marked[k] == MarkRow(table[k], id, through);
    }
    forall e, p | HasRow(marked, e, p)
      ensures exists q :: HasRow(table, e, q) && EventRow(e, p) == MarkRow(EventRow(e, q), id, through) {
      var k :| 0 <= k < |marked| && marked[k] == EventRow(e, p);
      assert HasRow(table, e, table[k].pushed);
    }
  }

  lemma MarkKeeps(logs: Logs, marks: Marks, table: Table, id: RunId, through: nat)
    requires Marking(logs, marks) && Mirrors(logs, marks, table) && through <= |LogOf(logs, id)|
    ensures Marking(logs, Marked(marks, id, through))
    ensures Mirrors(logs, Marked(marks, id, through), MarkRows(table, id, through))
  {
    MarkedRows(table, id, through);
  }

  /** The two outboxes agree after every history of batches and marks whose marks stay within
      their logs: the same unpushed events in the same order, under every limit of at least 1. */
  lemma {:induction false} OutboxesAgree(steps: seq<Step>, limit: nat)
    requires MarksInRange(steps)
    ensures var m, table := MemoryAfter(steps), TableAfter(steps);
            && Marking(m.logs, m.marks) && Mirrors(m.logs, m.marks, table)
            && AllUnpushed(m.logs, m.marks) == UnpushedRows(table)
            && (limit >= 1 ==>
                Taken(AllUnpushed(m.logs, m.marks), AtLeastOne(limit)) == Taken(UnpushedRows(table), limit))
  {
    hide Marking, Mirrors, AppendRows, MarkRows, AllUnpushed, UnpushedRows, Taken;
    if steps == [] {
      EmptyMirrors();
    } else {
      var n := |steps| - 1;
      var m, table := MemoryAfter(steps[..n]), TableAfter(steps[..n]);
      OutboxesAgree(steps[..n], limit);
      match steps[n] {
        case Append(id, ms) => BatchKeeps(m.logs, m.marks, table, id, ms);
        case MarkPushed(id, through) => MarkKeeps(m.logs, m.marks, table, id, through);
      }
    }
    SameListing(MemoryAfter(steps).logs, MemoryAfter(steps).marks, TableAfter(steps), limit);
  }

  lemma EmptyMirrors()
    ensures Marking(map[], map[]) && Mirrors(map[], map[], [])
  {
  }

  /** A mark past the end of the log parts the two: in memory it also covers the next event,
      in the table it does not. They agree on that event exactly when the mark was in range. */
  lemma MarkInRangeExactly(logs: Logs, marks: Marks, table: Table, id: RunId, through: nat, record: RunEventRecord)
    requires Marking(logs, marks) && Mirrors(logs, marks, table)
    ensures AllUnpushed(Grown(logs, id, record), Marked(marks, id, through))
            == UnpushedRows(AppendRow(MarkRows(table, id, through), id, record))
            <==> through <= |LogOf(logs, id)|
  {
    hide *;
    if through <= |LogOf(logs, id)| {
      MarkKeeps(logs, marks, table, id, through);
      AppendKeeps(logs, Marked(marks, id, through), MarkRows(table, id, through), id, record);
      SameListing(Grown(logs, id, record), Marked(marks, id, through),
                  AppendRow(MarkRows(table, id, through), id, record), 1);
    } else {
      HiddenInMemory(logs, marks, id, through, record);
      ShownInTable(logs, marks, table, id, through, record);
    }
  }

  lemma HiddenInMemory(logs: Logs, marks: Marks, id: RunId, through: nat, record: RunEventRecord)
    requires Marking(logs, marks) && through > |LogOf(logs, id)|
    ensures NextEntry(logs, id, record) !in AllUnpushed(Grown(logs, id, record), Marked(marks, id, through))
  {
    var grown := Grown(logs, id, record);
    GrownLogs(logs, marks, id, record);
    assert forall x :: Sequenced(LogOf(grown, x));
    hide Grown;
    LogsListed(grown, Marked(marks, id, through), SortedIds(grown.Keys));
  }

  lemma ShownInTable(logs: Logs, marks: Marks, table: Table, id: RunId, through: nat, record: RunEventRecord)
    requires Marking(logs, marks) && Mirrors(logs, marks, table)
    ensures NextEntry(logs, id, record) in UnpushedRows(AppendRow(MarkRows(table, id, through), id, record))
  {
    var marked, newest := MarkRows(table, id, through), NextEntry(logs, id, record);
    NextInTable(logs, marks, table, id);
    MarkedRows(table, id, through);
    SameMaxSequence(table, id, through);
    MaxSequenceMeans(marked, id);
    assert KeysUnique(marked);
    hide Marking, Mirrors, MarkRows, MaxSequence;
    var table' := AppendRow(marked, id, record);
    forall i | 0 <= i < |marked| ensures !SameKey(marked[i].entry, newest) {
      assert marked[i] in marked;
    }
    assert table'[|marked|] == EventRow(newest, false);
    assert HasRow(table', newest, false);
    RowsListed(table');
  }

  lemma {:induction false} SameMaxSequence(table: Table, id: RunId, through: nat)
    ensures MaxSequence(MarkRows(table, id, through), id) == MaxSequence(table, id)
  {
    if table != [] {
      var n := |table| - 1;
      SameMaxSequence(table[..n], id, through);
      assert MarkRows(table, id, through)[..n] == MarkRows(table[..n], id, through);
    }
  }

  predicate AtOrBefore(a: Entry, b: Entry) {
    a.runId == b.runId && a.event.sequence <= b.event.sequence
  }

  /** In every history, in range or not, the pushed rows of each run are a prefix of its rows. */
  ghost predicate PushedPrefix(table: Table) {
    forall a, b :: a in table && b in table && AtOrBefore(a.entry, b.entry) && b.pushed ==> a.pushed
  }

  lemma {:induction false} PushedRowsAreAPrefix(steps: seq<Step>)
    ensures PushedPrefix(TableAfter(steps))
  {
    hide AppendRows, MarkRows;
    if steps != [] {
      var n := |steps| - 1;
      PushedRowsAreAPrefix(steps[..n]);
      match steps[n] {
        case Append(id, ms) => AppendKeepsPrefix(TableAfter(steps[..n]), id, ms);
        case MarkPushed(id, through) => MarkKeepsPrefix(TableAfter(steps[..n]), id, through);
      }
    }
  }

  lemma {:induction false} AppendKeepsPrefix(table: Table, id: RunId, ms: seq<Mutation>)
    requires PushedPrefix(table)
    ensures PushedPrefix(AppendRows(table, id, ms))
  {
    if ms != [] {
      var n := |ms| - 1;
      AppendKeepsPrefix(table, id, ms[..n]);
      MaxSequenceMeans(AppendRows(table, id, ms[..n]), id);
    }
  }

  lemma MarkKeepsPrefix(table: Table, id: RunId, through: nat)
    requires PushedPrefix(table)
    ensures PushedPrefix(MarkRows(table, id, through))
  {
    var marked := MarkRows(table, id, through);
    forall a, b | a in marked && b in marked && AtOrBefore(a.entry, b.entry) && b.pushed ensures a.pushed
    {
      var i :| 0 <= i < |marked| && marked[i] == a;
      var j :| 0 <= j < |marked| && marked[j] == b;
      assert table[i] in table && table[j] in table;
    }
  }
}
