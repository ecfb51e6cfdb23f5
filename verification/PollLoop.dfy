/** Waiting for a job: poll, back off on transport failures, give up at the deadline. The
    replies and the clock are given as a script of turns. */
module PollLoop {
  import opened Wrappers
  import opened FlowTypes

  // ----- replies ------------------------------------------------------------------------

  /** What one `job-status` call comes back with. `Status` carries the decoded output. */
  datatype Reply =
    | Lost
    | ToolFailed
    | NoText
    | Garbled
    | Status(state: string, output: Value, stderr: string, exitCode: Option<int>)

  /** One pass of the loop: the clock at its top, the reply, the clock when the reply is in. */
  datatype Turn = Turn(at: nat, reply: Reply, answeredAt: nat)

  datatype WaitError =
    | Unreachable
    | Timeout
    | Interrupted
    | Cancelled
    | ToolError(exitCode: int)

  datatype Config = Config(delays: seq<nat>, interval: nat)

  datatype Action = Poll(at: nat) | Sleep(from: nat, delay: nat) | Cancel(at: nat)

  /** What a reply that is not lost says about the job; None while it is not over. */
  function Verdict(reply: Reply): Option<Result<Value, WaitError>>
    requires !reply.Lost?
  {
    match reply
    case ToolFailed => Some(Err(Interrupted))
    case NoText => Some(Err(ToolError(-1)))
    case Garbled => Some(Err(ToolError(-1)))
    case Status(state, output, stderr, code) =>
      if state == "cancelled" then Some(Err(Cancelled))
      else if state == "done" then
        Some(if code == Some(0) then Ok(output)
             else if code.Some? && 1 <= code.value <= 255 then Err(ToolError(code.value))
             else if code == Some(-2) then Err(Timeout)
             else Err(ToolError(-1)))
      else None
  }

  function ClampToDeadline(delay: nat, deadline: Option<nat>, now: nat): nat {
    match deadline
    case None => delay
    case Some(dl) => if now > dl then 0 else if delay <= dl - now then delay else dl - now
  }

  // ----- what each turn decides ---------------------------------------------------------

  /** How many of the replies just before turn `n` were lost in a row. */
  function LostRun(script: seq<Turn>, n: nat): (k: nat)
    requires n <= |script|
    ensures k <= n
  {
    if n == 0 || !script[n - 1].reply.Lost? then 0 else LostRun(script, n - 1) + 1
  }

  predicate Late(deadline: Option<nat>, turn: Turn) {
    deadline.Some? && turn.at >= deadline.value
  }

  /** What turn `n` decides, if anything. */
  function Decided(config: Config, deadline: Option<nat>, script: seq<Turn>, n: nat): Option<Result<Value, WaitError>>
    requires n < |script|
  {
    var turn := script[n];
    if Late(deadline, turn) then Some(Err(Timeout))
    else if !turn.reply.Lost? then Verdict(turn.reply)
    else if LostRun(script, n) >= |config.delays| then Some(Err(Unreachable))
    else None
  }

  /** No turn before `n` decides anything. */
  predicate Undecided(config: Config, deadline: Option<nat>, script: seq<Turn>, n: nat)
    requires n <= |script|
  {
    forall k | 0 <= k < n :: Decided(config, deadline, script, k).None?
  }

  /** The pause after a turn that decided nothing. */
  function Pause(config: Config, deadline: Option<nat>, script: seq<Turn>, n: nat): nat
    requires n < |script| && Decided(config, deadline, script, n).None?
  {
    var turn := script[n];
    var delay := if turn.reply.Lost? then config.delays[LostRun(script, n)] else config.interval;
    ClampToDeadline(delay, deadline, turn.answeredAt)
  }

  /** What the turns before `n` do: poll, and sleep when the pause is not empty. */
  function Doings(config: Config, deadline: Option<nat>, script: seq<Turn>, n: nat): seq<Action>
    requires n <= |script| && Undecided(config, deadline, script, n)
  {
    if n == 0 then []
    else
      var delay := Pause(config, deadline, script, n - 1);
      Doings(config, deadline, script, n - 1) + [Poll(script[n - 1].at)]
      + (if delay == 0 then [] else [Sleep(script[n - 1].answeredAt, delay)])
  }

  // ----- the loop -----------------------------------------------------------------------

  /** What waiting comes to: the first turn that decides something, with its answer, after
      the actions of the turns before and either a poll or, at the deadline, a cancel. */
  predicate Waited(config: Config, deadline: Option<nat>, script: seq<Turn>, outcome: Option<Result<Value, WaitError>>,
                   n: nat, log: seq<Action>) {
    && n <= |script| && Undecided(config, deadline, script, n)
    && (outcome.None? ==> n == |script| && log == Doings(config, deadline, script, n))
    && (outcome.Some? ==>
          && n < |script| && Decided(config, deadline, script, n) == outcome
          && log == Doings(config, deadline, script, n)
                    + [if Late(deadline, script[n]) then Cancel(script[n].at) else Poll(script[n].at)])
  }

  /** Turn `n` starts before the deadline, so its reply is looked at. */
  predicate Heard(deadline: Option<nat>, script: seq<Turn>, n: nat) {
    n < |script| && (deadline.Some? ==> script[n].at < deadline.value)
  }

  predicate Ended(reply: Reply, code: Option<int>) {
    reply.Status? && reply.state == "done" && reply.exitCode == code
  }

  /** No reply of a job that ended as it may: not a text, or an exit code without a meaning. */
  ghost predicate Unfit(reply: Reply) {
    reply.NoText? || reply.Garbled?
    || (reply.Status? && reply.state == "done"
        && !exists c :: Ended(reply, Some(c)) && (c == -2 || 0 <= c <= 255))
  }

  /** What each answer says of the reply it answers to: the output of a job that ended with 0,
      the exit code from 1 to 255 of one that failed, a cancelled job, a handle the server does not
      know, or -1 for everything else. */
  ghost predicate Answers(deadline: Option<nat>, script: seq<Turn>, outcome: Option<Result<Value, WaitError>>, n: nat) {
    var heard := Heard(deadline, script, n);
    && (forall v :: outcome == Some(Ok(v)) <==>
                      heard && Ended(script[n].reply, Some(0)) && script[n].reply.output == v)
    && (forall c :: 1 <= c <= 255 ==>
                      (outcome == Some(Err(ToolError(c))) <==> heard && Ended(script[n].reply, Some(c))))
    && (outcome == Some(Err(Cancelled)) <==>
          heard && script[n].reply.Status? && script[n].reply.state == "cancelled")
    && (outcome == Some(Err(Interrupted)) <==> heard && script[n].reply.ToolFailed?)
    && (outcome == Some(Err(ToolError(-1))) <==> heard && Unfit(script[n].reply))
    && (forall c :: outcome == Some(Err(ToolError(c))) ==> c == -1 || 1 <= c <= 255)
  }

  lemma AnswersExactly(config: Config, deadline: Option<nat>, script: seq<Turn>,
                       outcome: Option<Result<Value, WaitError>>, n: nat, log: seq<Action>)
    requires Waited(config, deadline, script, outcome, n, log)
    ensures Answers(deadline, script, outcome, n)
  {
    hide Undecided, Doings, LostRun;
    if n < |script| && !script[n].reply.Lost? { VerdictMeans(script[n].reply); }
  }

  lemma VerdictMeans(reply: Reply)
    requires !reply.Lost?
    ensures forall v :: Verdict(reply) == Some(Ok(v)) <==> Ended(reply, Some(0)) && reply.output == v
    ensures forall c :: 1 <= c <= 255 ==> (Verdict(reply) == Some(Err(ToolError(c))) <==> Ended(reply, Some(c)))
    ensures Verdict(reply) == Some(Err(ToolError(-1))) <==> Unfit(reply)
  {
    assert "done"[0] != "cancelled"[0];
    if reply.Status?
        && reply.exitCode.Some? { assert Ended(reply, Some(reply.exitCode.value)) || reply.state != "done"; }
  }

  /** `wait`. `outcome` is None when the script runs out first. */
  method Wait(config: Config, deadline: Option<nat>, script: seq<Turn>)
    returns (outcome: Option<Result<Value, WaitError>>, n: nat, log: seq<Action>)
    ensures Waited(config, deadline, script, outcome, n, log)
    ensures Answers(deadline, script, outcome, n)
  {
    hide Answers;
    var consecutiveFailures := 0;
    n, log := 0, [];
    while n < |script|
      invariant n <= |script| && Undecided(config, deadline, script, n)
      invariant consecutiveFailures == LostRun(script, n)
      invariant log == Doings(config, deadline, script, n)
    {
      var turn := script[n];
      if deadline.Some? && turn.at >= deadline.value {
        outcome, log := Some(Err(Timeout)), log + [Cancel(turn.at)];
        AnswersExactly(config, deadline, script, outcome, n, log);
        return;
      }
      ghost var before := log;
      log := log + [Poll(turn.at)];
      var delay;
      if turn.reply.Lost? {
        if consecutiveFailures >= |config.delays| {
          outcome := Some(Err(Unreachable));
          AnswersExactly(config, deadline, script, outcome, n, log);
          return;
        }
        delay := ClampToDeadline(config.delays[consecutiveFailures], deadline, turn.answeredAt);
        consecutiveFailures := consecutiveFailures + 1;
      } else {
        consecutiveFailures := 0;
        var verdict := Verdict(turn.reply);
        if verdict.Some? {
          outcome := verdict;
          AnswersExactly(config, deadline, script, outcome, n, log);
          return;
        }
        delay := ClampToDeadline(config.interval, deadline, turn.answeredAt);
      }
      if delay != 0 { log := log + [Sleep(turn.answeredAt, delay)]; }
      n := n + 1;
    }
    outcome := None;
    AnswersExactly(config, deadline, script, outcome, n, log);
  }

  // ----- what the outcome means ---------------------------------------------------------

  lemma {:induction false} LostRunMeans(script: seq<Turn>, n: nat)
    requires n <= |script|
    ensures forall k :: n - LostRun(script, n) <= k < n ==> script[k].reply.Lost?
    ensures LostRun(script, n) < n ==> !script[n - LostRun(script, n) - 1].reply.Lost?
  {
    if n > 0 && script[n - 1].reply.Lost? {
      LostRunMeans(script, n - 1);
    }
  }

  lemma {:induction false} DoingsNeverCancel(config: Config, deadline: Option<nat>, script: seq<Turn>, n: nat)
    requires n <= |script| && Undecided(config, deadline, script, n)
    ensures forall a :: a in Doings(config, deadline, script, n) ==> !a.Cancel?
  {
    if n > 0 {
      assert Decided(config, deadline, script, n - 1).None?;
      hide Decided, Pause;
      DoingsNeverCancel(config, deadline, script, n - 1);
    }
  }

  /** The job reports that it timed out by itself. */
  predicate OwnTimeout(reply: Reply) {
    reply.Status? && reply.state == "done" && reply.exitCode == Some(-2)
  }

  predicate Cancels(log: seq<Action>) {
    exists i :: 0 <= i < |log| && log[i].Cancel?
  }

  /** The job is cancelled exactly when the loop answers at a turn that starts at or after the
      deadline, all turns before having started earlier; then the cancel is the last thing it
      does, it does it once, and it answers Timeout. Any other Timeout is the job's own. */
  lemma TimeoutExactly(config: Config, deadline: Option<nat>, script: seq<Turn>,
                       outcome: Option<Result<Value, WaitError>>, n: nat, log: seq<Action>)
    requires Waited(config, deadline, script, outcome, n, log)
    ensures Cancels(log) <==> outcome.Some? && Late(deadline, script[n])
    ensures Cancels(log) ==>
              && outcome == Some(Err(Timeout)) && log[|log| - 1] == Cancel(script[n].at)
              && (forall i :: 0 <= i < |log| - 1 ==> !log[i].Cancel?)
              && (forall k :: 0 <= k < n ==> !Late(deadline, script[k]))
    ensures outcome == Some(Err(Timeout)) <==> Cancels(log) || (outcome.Some? && OwnTimeout(script[n].reply))
  {
    DoingsNeverCancel(config, deadline, script, n);
    forall k | 0 <= k < n ensures !Late(deadline, script[k]) { assert Decided(config, deadline, script, k).None?; }
    var before := Doings(config, deadline, script, n);
    hide Undecided, Doings, LostRun;
    if outcome.Some? {
      assert log[|log| - 1] == (if Late(deadline, script[n]) then Cancel(script[n].at) else Poll(script[n].at));
    }
    forall i | 0 <= i < |before| ensures !before[i].Cancel? { assert before[i] in before; }
  }

  // ----- pauses -------------------------------------------------------------------------

  /** Exactly `m` replies in a row are lost just before turn `k`. */
  ghost predicate LostBefore(script: seq<Turn>, k: nat, m: nat)
    requires k < |script|
  {
    && m <= k && (forall j :: k - m <= j < k ==> script[j].reply.Lost?)
    && (m < k ==> !script[k - m - 1].reply.Lost?)
  }

  /** The longest pause up to `wanted` that does not end past the deadline, if any does not. */
  predicate Longest(wanted: nat, deadline: Option<nat>, now: nat, d: nat) {
    match deadline
    case None => d == wanted
    case Some(dl) =>
      d <= wanted && (d > 0 ==> now + d <= dl) && (d < wanted ==> now + d + 1 > dl)
  }

  /** A pause of `d` after turn `k`: the interval between polls or, when the reply is lost, the
      delay for as many losses in a row as there were before. */
  ghost predicate PauseOf(config: Config, deadline: Option<nat>, script: seq<Turn>, k: nat, d: nat)
    requires k < |script|
  {
    if script[k].reply.Lost?
    then exists m: nat :: LostBefore(script, k, m) && m < |config.delays|
                          && Longest(config.delays[m], deadline, script[k].answeredAt, d)
    else Longest(config.interval, deadline, script[k].answeredAt, d)
  }

  lemma PauseMeans(config: Config, deadline: Option<nat>, script: seq<Turn>, k: nat)
    requires k < |script| && Decided(config, deadline, script, k).None?
    ensures PauseOf(config, deadline, script, k, Pause(config, deadline, script, k))
  {
    LostRunMeans(script, k);
    assert LostBefore(script, k, LostRun(script, k));
    hide LostRun;
  }

  /** The pause after a turn is settled. */
  lemma PauseOne(config: Config, deadline: Option<nat>, script: seq<Turn>, k: nat, a: nat, b: nat)
    requires k < |script| && PauseOf(config, deadline, script, k, a) && PauseOf(config, deadline, script, k, b)
    ensures a == b
  {
    if script[k].reply.Lost? {
      var m: nat :| LostBefore(script, k, m) && m < |config.delays|
                    && Longest(config.delays[m], deadline, script[k].answeredAt, a);
      var l: nat :| LostBefore(script, k, l) && l < |config.delays|
                    && Longest(config.delays[l], deadline, script[k].answeredAt, b);
      assert !(m < l) && !(l < m);
    }
  }

  /** Turn `k` polls, and then sleeps for its pause if that is not empty. */
  ghost predicate DoneAt(config: Config, deadline: Option<nat>, script: seq<Turn>, k: nat, a: Action)
    requires k < |script|
  {
    a == Poll(script[k].at)
    || (a.Sleep? && a.from == script[k].answeredAt && a.delay > 0 && PauseOf(config, deadline, script, k, a.delay))
  }

  /** The turns before an answer poll and sleep so and do nothing else. */
  lemma {:induction false} DoingsExactly(config: Config, deadline: Option<nat>, script: seq<Turn>, n: nat, a: Action)
    requires n <= |script| && Undecided(config, deadline, script, n)
    ensures a in Doings(config, deadline, script, n) <==>
              exists k :: 0 <= k < n && DoneAt(config, deadline, script, k, a)
  {
    if n > 0 {
      assert Decided(config, deadline, script, n - 1).None?;
      DoingsExactly(config, deadline, script, n - 1, a);
      PauseMeans(config, deadline, script, n - 1);
      hide Decided, PauseOf, LostRun;
      var d := Pause(config, deadline, script, n - 1);
      if a.Sleep? && PauseOf(config, deadline, script, n - 1, a.delay) {
        PauseOne(config, deadline, script, n - 1, a.delay, d);
      }
      assert a in Doings(config, deadline, script, n) <==>
        a in Doings(config, deadline, script, n - 1) || a == Poll(script[n - 1].at)
        || (d != 0 && a == Sleep(script[n - 1].answeredAt, d));
      assert DoneAt(config, deadline, script, n - 1, a) <==>
        a == Poll(script[n - 1].at) || (d != 0 && a == Sleep(script[n - 1].answeredAt, d));
    }
  }

  /** A reply of a job that is not over, a state nobody knows included. */
  predicate Going(reply: Reply) {
    reply.Status? && reply.state != "done" && reply.state != "cancelled"
  }

  /** Turn `k` loses its reply for the last time that is put up with: it is one of more than
      `|delays|` in a row. */
  predicate LostTooOften(config: Config, script: seq<Turn>, k: nat)
    requires k < |script|
  {
    k >= |config.delays| && forall j | k - |config.delays| <= j <= k :: script[j].reply.Lost?
  }

  lemma LostRunAtLeast(script: seq<Turn>, n: nat, d: nat)
    requires n <= |script|
    ensures LostRun(script, n) >= d <==> n >= d && forall k :: n - d <= k < n ==> script[k].reply.Lost?
  {
    LostRunMeans(script, n);
    hide LostRun;
  }

  /** The loop goes on exactly as long as every turn starts before the deadline and its reply
      is that of a job not over, or is lost but not for too often in a row. */
  lemma RunningGoesOn(config: Config, deadline: Option<nat>, script: seq<Turn>, n: nat)
    requires n <= |script|
    ensures Undecided(config, deadline, script, n) <==>
              forall k :: 0 <= k < n ==>
                && !Late(deadline, script[k])
                && (Going(script[k].reply) || (script[k].reply.Lost? && !LostTooOften(config, script, k)))
  {
    forall k | 0 <= k < n
      ensures Decided(config, deadline, script, k).None? <==>
                && !Late(deadline, script[k])
                && (Going(script[k].reply) || (script[k].reply.Lost? && !LostTooOften(config, script, k)))
    {
      LostRunAtLeast(script, k, |config.delays|);
      hide LostRun;
    }
  }

  function Answered(script: seq<Turn>, n: nat): nat
    requires n <= |script|
  {
    if n == 0 then 0 else Answered(script, n - 1) + (if script[n - 1].reply.Lost? then 0 else 1)
  }

  /** Between two answers at most `|delays|` replies are lost. */
  lemma {:induction false} FewLost(config: Config, deadline: Option<nat>, script: seq<Turn>, n: nat)
    requires n <= |script| && Undecided(config, deadline, script, n)
    ensures LostRun(script, n) <= |config.delays|
    ensures n <= Answered(script, n) * (|config.delays| + 1) + LostRun(script, n)
  {
    if n > 0 {
      FewLost(config, deadline, script, n - 1);
      assert Decided(config, deadline, script, n - 1).None?;
      var a, d := Answered(script, n - 1), |config.delays| + 1;
      assert (a + 1) * d == a * d + d;
    }
  }

  /** Unreachable is answered exactly when the deadline has not come and this reply is the
      last of `|delays| + 1` lost ones in a row; any other reply starts the count again. */
  lemma UnreachableExactly(config: Config, deadline: Option<nat>, script: seq<Turn>, n: nat)
    requires n < |script| && Undecided(config, deadline, script, n)
    ensures Decided(config, deadline, script, n) == Some(Err(Unreachable)) <==>
              !Late(deadline, script[n]) && LostTooOften(config, script, n)
    ensures Decided(config, deadline, script, n) == Some(Err(Unreachable)) && n > |config.delays| ==>
              !script[n - |config.delays| - 1].reply.Lost?
  {
    FewLost(config, deadline, script, n);
    LostRunMeans(script, n);
    hide Undecided, LostRun;
  }

  // ----- time ---------------------------------------------------------------------------

  /** The clock never runs backwards, and a pause takes at least its length. */
  ghost predicate Clocked(config: Config, deadline: Option<nat>, script: seq<Turn>, n: nat)
    requires n <= |script| && Undecided(config, deadline, script, n)
  {
    && (forall k :: 0 <= k < n ==> script[k].at <= script[k].answeredAt)
    && (forall k :: 0 <= k && k + 1 < n ==>
        script[k].answeredAt + Pause(config, deadline, script, k) <= script[k + 1].at)
  }

  /** No sleep is scheduled past the deadline. */
  lemma {:induction false} NoSleepPastDeadline(config: Config, deadline: nat, script: seq<Turn>, n: nat)
    requires n <= |script| && Undecided(config, Some(deadline), script, n)
    ensures forall a :: a in Doings(config, Some(deadline), script, n) && a.Sleep? ==>
              a.delay > 0 && a.from + a.delay <= deadline
    ensures forall a :: a in Doings(config, Some(deadline), script, n) && a.Poll? ==> a.at < deadline
  {
    if n > 0 {
      NoSleepPastDeadline(config, deadline, script, n - 1);
      assert Decided(config, Some(deadline), script, n - 1).None?;
    }
  }

  /** Every answer but the last moves the clock. */
  lemma {:induction false} AnswersTakeTime(config: Config, deadline: nat, script: seq<Turn>, n: nat)
    requires n < |script| && config.interval > 0 && Undecided(config, Some(deadline), script, n + 1)
    requires Clocked(config, Some(deadline), script, n + 1)
    ensures script[0].at + Answered(script, n) <= script[n].at
  {
    if n > 0 {
      AnswersTakeTime(config, deadline, script, n - 1);
      assert Decided(config, Some(deadline), script, n).None?;
      assert script[n - 1].answeredAt + Pause(config, Some(deadline), script, n - 1) <= script[n].at;
    }
  }

  /** Waiting with a deadline ends: whatever the replies, the turns that decide nothing are
      bounded by the time to the deadline and the number of retries. */
  lemma WaitEnds(config: Config, deadline: nat, script: seq<Turn>, n: nat)
    requires 0 < n <= |script| && config.interval > 0
    requires Undecided(config, Some(deadline), script, n) && Clocked(config, Some(deadline), script, n)
    ensures script[0].at < deadline
    ensures n <= (deadline - script[0].at) * (|config.delays| + 1)
  {
    AnswersTakeTime(config, deadline, script, n - 1);
    FewLost(config, Some(deadline), script, n - 1);
    assert Decided(config, Some(deadline), script, n - 1).None? && Decided(config, Some(deadline), script, 0).None?;
    Scale(Answered(script, n - 1), deadline - script[0].at, |config.delays| + 1);
  }

  lemma {:induction false} Scale(a: nat, b: nat, d: nat)
    requires a < b
    ensures a * d + d <= b * d
    decreases b
  {
    assert b * d == (b - 1) * d + d;
    if a < b - 1 {
      Scale(a, b - 1, d);
    }
  }
}
