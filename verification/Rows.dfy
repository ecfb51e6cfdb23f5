/** The attempt table of a run: which rows a record may hold, the latest attempt of each
    step, and what insertions and patches do to both. */
module Rows {
  import opened Wrappers
  import opened FlowTypes
  import opened RunTypes
  import opened Ports

  /** The statuses a row can carry; the others are never written. */
  predicate Written(status: StepStatus) {
    !status.Pending? && !status.WaitingOnSubflow? && !status.Skipped?
  }

  ghost predicate UniqueKeys(rows: seq<StepRecord>) {
    forall i, j :: 0 <= i < j < |rows| ==> !HasKey(rows[i], rows[j].run.stepId, rows[j].run.attempt)
  }

  ghost predicate HasAttempt(rows: seq<StepRecord>, id: StepId, attempt: nat) {
    exists row :: row in rows && HasKey(row, id, attempt)
  }

  ghost predicate HasRun(rows: seq<StepRecord>, run: StepRun) {
    exists row :: row in rows && row.run == run
  }

  /** Every row is written, numbered from 1, and at most the latest attempt of its step. */
  ghost predicate RowsWithin(rows: seq<StepRecord>, latest: map<StepId, StepRun>) {
    forall row :: row in rows ==>
      Written(row.run.status) && row.run.stepId in latest && 1 <= row.run.attempt <= latest[row.run.stepId].attempt
  }

  ghost predicate LatestPresent(rows: seq<StepRecord>, latest: map<StepId, StepRun>) {
    forall id :: id in latest ==> latest[id].stepId == id && latest[id].attempt >= 1 && HasRun(rows, latest[id])
  }

  ghost predicate Contiguous(rows: seq<StepRecord>, latest: map<StepId, StepRun>) {
    forall id, b: nat {:trigger HasAttempt(rows, id, b)} ::
      id in latest && 1 <= b <= latest[id].attempt ==> HasAttempt(rows, id, b)
  }

  /** Each step has rows for the attempts 1 up to that of `latest`, each once. */
  ghost predicate Represents(rows: seq<StepRecord>, latest: map<StepId, StepRun>) {
    UniqueKeys(rows) && RowsWithin(rows, latest) && LatestPresent(rows, latest) && Contiguous(rows, latest)
  }

  // ----- latest attempts ----------------------------------------------------------------

  /** `Latest` picks, for each step with a row, a row no other row of the step exceeds. */
  lemma {:induction false} LatestPicks(rows: seq<StepRecord>)
    ensures forall row :: row in rows ==>
              row.run.stepId in Latest(rows) && row.run.attempt <= Latest(rows)[row.run.stepId].run.attempt
    ensures forall id :: id in Latest(rows) ==> Latest(rows)[id] in rows && Latest(rows)[id].run.stepId == id
  {
    if rows != [] {
      var n := |rows| - 1;
      LatestPicks(rows[..n]);
      assert rows == rows[..n] + [rows[n]];
    }
  }

  lemma SameKeySameRow(rows: seq<StepRecord>, a: StepRecord, b: StepRecord)
    requires UniqueKeys(rows) && a in rows && b in rows
    requires HasKey(a, b.run.stepId, b.run.attempt)
    ensures a == b
  {
    var i :| 0 <= i < |rows| && rows[i] == a;
    var j :| 0 <= j < |rows| && rows[j] == b;
    assert i <= j || HasKey(rows[j], rows[i].run.stepId, rows[i].run.attempt);
  }

  /** Which row is latest does not depend on the order the rows come in. */
  lemma LatestIgnoresOrder(a: seq<StepRecord>, b: seq<StepRecord>)
    requires UniqueKeys(a) && (forall row :: row in a <==> row in b)
    ensures Latest(a) == Latest(b)
  {
    LatestPicks(a);
    LatestPicks(b);
    forall id | id in Latest(a) ensures id in Latest(b) && Latest(a)[id] == Latest(b)[id] {
      assert Latest(a)[id] in b;
      assert Latest(b)[id] in a;
      SameKeySameRow(a, Latest(a)[id], Latest(b)[id]);
    }
    forall id | id in Latest(b) ensures id in Latest(a) {
      assert Latest(b)[id] in a;
    }
  }

  /** The represented map is what `latest_steps` shows the engine. */
  lemma RepresentsLatest(rows: seq<StepRecord>, latest: map<StepId, StepRun>)
    requires Represents(rows, latest)
    ensures Runs(Latest(rows)) == latest
  {
    hide Contiguous;
    LatestPicks(rows);
    forall id | id in latest ensures id in Latest(rows) && Latest(rows)[id].run == latest[id] {
      assert HasRun(rows, latest[id]);
      var row :| row in rows && row.run == latest[id];
      assert Latest(rows)[id] in rows;
      SameKeySameRow(rows, row, Latest(rows)[id]);
    }
    forall id | id in Latest(rows) ensures id in latest {
      assert Latest(rows)[id] in rows;
    }
  }

  // ----- patches ------------------------------------------------------------------------

  function PatchedRun(m: Mutation, run: StepRun): StepRun
    requires PatchesRow(m)
  {
    Patched(m, StepRecord(run, None)).run
  }

  /** A patch addressed to a latest attempt finds its row and changes the map there. */
  lemma PatchLatest(rows: seq<StepRecord>, latest: map<StepId, StepRun>, id: StepId, m: Mutation)
    requires Represents(rows, latest) && id in latest
    requires PatchesRow(m) && m.stepId == id && m.attempt == latest[id].attempt
    requires Written(PatchedRun(m, latest[id]).status)
    ensures var found := FindRow(rows, id, m.attempt);
            && found.Some?
            && Represents(rows[found.value := Patched(m, rows[found.value])], latest[id := PatchedRun(m, latest[id])])
  {
    var i := FoundLatest(rows, latest, id);
    var row, run := Patched(m, rows[i]), PatchedRun(m, latest[id]);
    KeysKept(rows, i, row);
    ReplaceWithin(rows, latest, i, row, run);
    ReplacePresent(rows, latest, i, row, run);
    ReplaceContiguous(rows, latest, i, row, run);
  }

  lemma FoundLatest(rows: seq<StepRecord>, latest: map<StepId, StepRun>, id: StepId) returns (i: nat)
    requires Represents(rows, latest) && id in latest
    ensures FindRow(rows, id, latest[id].attempt) == Some(i) && i < |rows| && rows[i].run == latest[id]
  {
    hide Contiguous, RowsWithin;
    assert HasRun(rows, latest[id]);
    var row :| row in rows && row.run == latest[id];
    var k :| 0 <= k < |rows| && rows[k] == row;
    assert HasKey(rows[k], id, latest[id].attempt);
    i := FindRow(rows, id, latest[id].attempt).value;
    SameKeySameRow(rows, rows[i], row);
  }

  lemma ReplaceWithin(rows: seq<StepRecord>, latest: map<StepId, StepRun>, i: nat, row: StepRecord, run: StepRun)
    requires RowsWithin(rows, latest) && UniqueKeys(rows) && i < |rows|
    requires row.run == run && HasKey(row, rows[i].run.stepId, rows[i].run.attempt) && Written(run.status)
    requires run.stepId in latest && run.attempt == latest[run.stepId].attempt
    ensures RowsWithin(rows[i := row], latest[run.stepId := run])
  {
    KeysKept(rows, i, row);
    assert rows[i] in rows;
  }

  lemma ReplacePresent(rows: seq<StepRecord>, latest: map<StepId, StepRun>, i: nat, row: StepRecord, run: StepRun)
    requires LatestPresent(rows, latest) && UniqueKeys(rows) && i < |rows|
    requires row.run == run && HasKey(row, rows[i].run.stepId, rows[i].run.attempt)
    requires run.stepId in latest && rows[i].run == latest[run.stepId]
    ensures LatestPresent(rows[i := row], latest[run.stepId := run])
  {
    KeysKept(rows, i, row);
    var rows', latest' := rows[i := row], latest[run.stepId := run];
    assert HasRun(rows', run);
    forall x | x in latest' && x != run.stepId ensures HasRun(rows', latest'[x]) {
      assert HasRun(rows, latest[x]);
      var r :| r in rows && r.run == latest[x];
      assert r in rows';
    }
  }

  lemma ReplaceContiguous(rows: seq<StepRecord>, latest: map<StepId, StepRun>, i: nat, row: StepRecord, run: StepRun)
    requires Contiguous(rows, latest) && UniqueKeys(rows) && i < |rows|
    requires row.run == run && HasKey(row, rows[i].run.stepId, rows[i].run.attempt)
    requires run.stepId in latest && run.attempt == latest[run.stepId].attempt
    ensures Contiguous(rows[i := row], latest[run.stepId := run])
  {
    KeysKept(rows, i, row);
    var rows', latest' := rows[i := row], latest[run.stepId := run];
    forall x, b: nat {:trigger HasAttempt(rows', x, b)} | x in latest' && 1 <= b <= latest'[x].attempt
      ensures HasAttempt(rows', x, b) {
      assert HasAttempt(rows, x, b);
      var r :| r in rows && HasKey(r, x, b);
      if r == rows[i] { assert row in rows' && HasKey(row, x, b); } else { assert r in rows'; }
    }
  }

  /** Replacing a row by one with the same key keeps keys unique and the other rows. */
  lemma KeysKept(rows: seq<StepRecord>, i: nat, row: StepRecord)
    requires UniqueKeys(rows) && i < |rows| && HasKey(row, rows[i].run.stepId, rows[i].run.attempt)
    ensures UniqueKeys(rows[i := row])
    ensures forall r :: r in rows && r != rows[i] ==> r in rows[i := row]
    ensures forall r :: r in rows[i := row] && r != row ==> r in rows
    ensures row in rows[i := row]
  {
    var rows' := rows[i := row];
    forall j, k | 0 <= j < k < |rows| ensures !HasKey(rows'[j], rows'[k].run.stepId, rows'[k].run.attempt) {
      assert !HasKey(rows[j], rows[k].run.stepId, rows[k].run.attempt);
    }
    forall r | r in rows && r != rows[i] ensures r in rows' {
      var j :| 0 <= j < |rows| && rows[j] == r;
      assert rows'[j] == r;
    }
    forall r | r in rows' && r != row ensures r in rows {
      var j :| 0 <= j < |rows'| && rows'[j] == r;
      assert rows[j] == r;
    }
    assert rows'[i] == row;
  }

  // ----- insertions ---------------------------------------------------------------------

  lemma {:induction false} WithoutKeeps(rows: seq<StepRecord>, id: StepId, attempt: nat)
    ensures forall row :: row in Without(rows, id, attempt) <==> row in rows && !HasKey(row, id, attempt)
    ensures UniqueKeys(rows) ==> UniqueKeys(Without(rows, id, attempt))
  {
    if rows != [] {
      hide HasKey;
      var n := |rows| - 1;
      WithoutKeeps(rows[..n], id, attempt);
      assert rows == rows[..n] + [rows[n]];
      if UniqueKeys(rows) {
        UniquePart(rows);
        var kept := Without(rows[..n], id, attempt);
        hide UniqueKeys, Without;
        UniqueSnoc(rows, kept);
        assert kept + [] == kept;
        LastKept(rows, id, attempt);
      }
    }
  }

  lemma LastKept(rows: seq<StepRecord>, id: StepId, attempt: nat)
    requires rows != []
    ensures var n := |rows| - 1; var kept := Without(rows[..n], id, attempt);
            Without(rows, id, attempt) == if HasKey(rows[n], id, attempt) then kept else kept + [rows[n]]
  {
    hide HasKey;
    assert Without(rows[..|rows| - 1], id, attempt) + [] == Without(rows[..|rows| - 1], id, attempt);
  }

  lemma UniquePart(rows: seq<StepRecord>)
    requires UniqueKeys(rows) && rows != []
    ensures UniqueKeys(rows[..|rows| - 1])
  {
    var n := |rows| - 1;
    hide HasKey;
    forall i, j | 0 <= i < j < n ensures !HasKey(rows[..n][i], rows[..n][j].run.stepId, rows[..n][j].run.attempt) {
      assert !HasKey(rows[i], rows[j].run.stepId, rows[j].run.attempt);
    }
  }

  /** Rows taken from before the last can be followed by the last. */
  lemma UniqueSnoc(rows: seq<StepRecord>, kept: seq<StepRecord>)
    requires UniqueKeys(rows) && rows != [] && UniqueKeys(kept)
             && forall row :: row in kept ==> row in rows[..|rows| - 1]
    ensures UniqueKeys(kept + [rows[|rows| - 1]])
  {
    var n := |rows| - 1;
    hide HasKey;
    forall i | 0 <= i < |kept| ensures !HasKey(kept[i], rows[n].run.stepId, rows[n].run.attempt) {
      assert kept[i] in kept && kept[i] in rows[..n];
      var k :| 0 <= k < n && rows[k] == kept[i];
      assert !HasKey(rows[k], rows[n].run.stepId, rows[n].run.attempt);
    }
  }

  /** Whether `step` is the first, the next or again the latest attempt of its step. */
  predicate Follows(latest: map<StepId, StepRun>, run: StepRun) {
    if run.stepId in latest
    then run.attempt == latest[run.stepId].attempt || run.attempt == latest[run.stepId].attempt + 1
    else run.attempt == 1
  }

  /** Inserting such an attempt makes it the latest. */
  lemma InsertLatest(rows: seq<StepRecord>, latest: map<StepId, StepRun>, step: StepRecord)
    requires Represents(rows, latest) && Written(step.run.status) && Follows(latest, step.run)
    ensures Represents(Without(rows, step.run.stepId, step.run.attempt) + [step], latest[step.run.stepId := step.run])
  {
    var kept := Without(rows, step.run.stepId, step.run.attempt);
    WithoutKeeps(rows, step.run.stepId, step.run.attempt);
    assert RowsWithin(kept + [step], latest[step.run.stepId := step.run]);
    InsertPresent(rows, latest, step, kept);
    InsertContiguous(rows, latest, step, kept);
  }

  lemma InsertPresent(rows: seq<StepRecord>, latest: map<StepId, StepRun>, step: StepRecord, kept: seq<StepRecord>)
    requires LatestPresent(rows, latest) && Follows(latest, step.run)
    requires forall row :: row in kept <==> row in rows && !HasKey(row, step.run.stepId, step.run.attempt)
    ensures LatestPresent(kept + [step], latest[step.run.stepId := step.run])
  {
    var rows', latest' := kept + [step], latest[step.run.stepId := step.run];
    assert rows'[|kept|] == step && HasRun(rows', step.run);
    forall x | x in latest' && x != step.run.stepId ensures HasRun(rows', latest'[x]) {
      assert HasRun(rows, latest[x]);
      var row :| row in rows && row.run == latest[x];
      assert row in kept;
    }
  }

  lemma InsertContiguous(rows: seq<StepRecord>, latest: map<StepId, StepRun>, step: StepRecord, kept: seq<StepRecord>)
    requires Contiguous(rows, latest) && Follows(latest, step.run)
    requires forall row :: row in kept <==> row in rows && !HasKey(row, step.run.stepId, step.run.attempt)
    ensures Contiguous(kept + [step], latest[step.run.stepId := step.run])
  {
    var rows', latest' := kept + [step], latest[step.run.stepId := step.run];
    assert rows'[|kept|] == step;
    forall x, b: nat {:trigger HasAttempt(rows', x, b)} | x in latest' && 1 <= b <= latest'[x].attempt
      ensures HasAttempt(rows', x, b) {
      if !HasKey(step, x, b) {
        assert HasAttempt(rows, x, b);
        var row :| row in rows && HasKey(row, x, b);
        assert row in kept;
      }
    }
  }

  lemma NoRows()
    ensures Represents([], map[])
  {
  }
}
