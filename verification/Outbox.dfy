/** The event outbox of the in-memory store: per run a log and the highest pushed sequence. */
module Outbox {
  import opened Ordering
  import opened Ports

  datatype Entry = Entry(runId: RunId, event: StoredRunEvent)

  type Logs = map<RunId, seq<StoredRunEvent>>
  type Marks = map<RunId, nat>

  function MarkOf(marks: Marks, id: RunId): nat {
    if id in marks then marks[id] else 0
  }

  function Marked(marks: Marks, id: RunId, through: nat): Marks {
    marks[id := if through > MarkOf(marks, id) then through else MarkOf(marks, id)]
  }

  /** The events of a log past a mark. */
  function Unpushed(log: seq<StoredRunEvent>, mark: nat): seq<StoredRunEvent> {
    if log == [] then []
    else
      var n := |log| - 1;
      Unpushed(log[..n], mark) + (if log[n].sequence > mark then [log[n]] else [])
  }

  function Tagged(id: RunId, events: seq<StoredRunEvent>): seq<Entry> {
    seq(|events|, i requires 0 <= i < |events| => Entry(id, events[i]))
  }

  function UnpushedOf(logs: Logs, marks: Marks, ids: seq<RunId>): seq<Entry> {
    if ids == [] then []
    else
      var n := |ids| - 1;
      UnpushedOf(logs, marks, ids[..n]) + Tagged(ids[n], Unpushed(LogOf(logs, ids[n]), MarkOf(marks, ids[n])))
  }

  /** Everything not pushed yet, ordered by run id and sequence. */
  function AllUnpushed(logs: Logs, marks: Marks): seq<Entry> {
    UnpushedOf(logs, marks, SortedIds(logs.Keys))
  }

  function Taken(entries: seq<Entry>, limit: nat): seq<Entry> {
    if |entries| <= limit then entries else entries[..limit]
  }

  /** The in-memory listing checks its limit after each event, so it gives one even for 0. */
  function AtLeastOne(limit: nat): nat {
    if limit == 0 then 1 else limit
  }

  // ----- the listing loop ---------------------------------------------------------------

  lemma SortedMembers(ids: set<RunId>)
    ensures forall x :: x in SortedIds(ids) <==> x in ids
  {
  }

  lemma NothingPending(logs: Logs, marks: Marks, limit: nat)
    ensures UnpushedOf(logs, marks, []) == []
    ensures AtLeastOne(limit) == if limit == 0 then 1 else limit
  {
  }

  lemma NoEvents(id: RunId, mark: nat)
    ensures Tagged(id, Unpushed([], mark)) == []
  {
  }

  lemma OneMoreEvent(id: RunId, log: seq<StoredRunEvent>, k: nat, mark: nat)
    requires k < |log|
    ensures Tagged(id, Unpushed(log[..k + 1], mark)) ==
            Tagged(id, Unpushed(log[..k], mark)) + (if log[k].sequence > mark then [Entry(id, log[k])] else [])
  {
    assert log[..k + 1][..k] == log[..k];
    TaggedConcat(id, Unpushed(log[..k], mark), if log[k].sequence > mark then [log[k]] else []);
  }

  lemma TaggedConcat(id: RunId, a: seq<StoredRunEvent>, b: seq<StoredRunEvent>)
    ensures Tagged(id, a + b) == Tagged(id, a) + Tagged(id, b)
  {
  }

  lemma OneMoreRun(logs: Logs, marks: Marks, ids: seq<RunId>, i: nat)
    requires i < |ids| && ids[i] in logs
    ensures UnpushedOf(logs, marks, ids[..i + 1]) ==
            UnpushedOf(logs, marks, ids[..i]) + Tagged(ids[i], Unpushed(logs[ids[i]], MarkOf(marks, ids[i])))
  {
    assert ids[..i + 1][..i] == ids[..i];
  }

  lemma {:induction false} UnpushedPrefix(log: seq<StoredRunEvent>, k: nat, mark: nat)
    requires k <= |log|
    ensures Unpushed(log[..k], mark) <= Unpushed(log, mark)
    decreases |log|
  {
    if k == |log| {
      assert log[..k] == log;
    } else {
      var n := |log| - 1;
      assert log[..n][..k] == log[..k];
      UnpushedPrefix(log[..n], k, mark);
    }
  }

  lemma {:induction false} RunsPrefix(logs: Logs, marks: Marks, ids: seq<RunId>, i: nat)
    requires i <= |ids|
    ensures UnpushedOf(logs, marks, ids[..i]) <= UnpushedOf(logs, marks, ids)
    decreases |ids|
  {
    if i == |ids| {
      assert ids[..i] == ids;
    } else {
      var n := |ids| - 1;
      assert ids[..n][..i] == ids[..i];
      RunsPrefix(logs, marks, ids[..n], i);
    }
  }

  /** Stopping at the limit leaves the first `limit` entries of everything pending. */
  lemma CutShort(logs: Logs, marks: Marks, ids: seq<RunId>, i: nat, k: nat, out: seq<Entry>, limit: nat)
    requires ids == SortedIds(logs.Keys) && i < |ids| && ids[i] in logs && k <= |logs[ids[i]]|
    requires out == UnpushedOf(logs, marks, ids[..i])
             + Tagged(ids[i], Unpushed(logs[ids[i]][..k], MarkOf(marks, ids[i])))
    requires |out| == AtLeastOne(limit)
    ensures out == Taken(AllUnpushed(logs, marks), AtLeastOne(limit))
  {
    hide Unpushed, UnpushedOf, AtLeastOne, Tagged;
    var mark := MarkOf(marks, ids[i]);
    var some, whole := Unpushed(logs[ids[i]][..k], mark), Unpushed(logs[ids[i]], mark);
    UnpushedPrefix(logs[ids[i]], k, mark);
    OneMoreRun(logs, marks, ids, i);
    RunsPrefix(logs, marks, ids, i + 1);
    assert whole == some + whole[|some|..];
    TaggedConcat(ids[i], some, whole[|some|..]);
    assert out <= UnpushedOf(logs, marks, ids[..i + 1]);
    assert AllUnpushed(logs, marks)[..|out|] == out;
  }

  lemma NotCut(logs: Logs, marks: Marks, out: seq<Entry>, limit: nat)
    requires out == UnpushedOf(logs, marks, SortedIds(logs.Keys)) && |out| < AtLeastOne(limit)
    ensures out == Taken(AllUnpushed(logs, marks), AtLeastOne(limit))
  {
  }
}
