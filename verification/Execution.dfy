/** Execute and the waiting acquire as callers' protocols around the critical sections, with arbitrary
    steps of other callers in between (execute.go, breaker.go:143-202). */
module Execution {
  import opened Window
  import opened Config
  import opened BreakerModel
  import opened BreakerInvariants
  import opened BreakerLifetime
  import opened BreakerSafety
  import opened BreakerSteps
  import opened Policy
  import opened ProbeVerdict

  // ---------- Execute ----------

  /** A reading of the borrowed clock. */
  datatype Reading = Read(at: int) | ClockPanics

  datatype Classification = Classified(outcome: Outcome) | ClassifierPanics

  /** What the operation and the code after it do; `retry` is the second reading that the panic handler
      takes. A panic anywhere in here is recovered and re-raised. */
  datatype Body = OperationPanics(retry: Reading)
                | OperationReturns(finish: Reading, classification: Classification, retry: Reading)

  /** One Execute call after its admission. Other callers run `before` up to its first terminal action
      and `between` up to its second. */
  datatype Script = Script(start: Reading, body: Body, before: seq<Action>, between: seq<Action>, sample: Sample)

  /** What is reported to the breaker, at which time, and whether a panic is passing through. */
  datatype Report = Report(outcome: Outcome, finished: int, panicking: bool)

  function Reported(started: int, body: Body): Report {
    match body
    case OperationPanics(retry) => Recovered(started, retry)
    case OperationReturns(finish, classification, retry) =>
      if finish.ClockPanics? || classification.ClassifierPanics? then Recovered(started, retry)
      else Report(classification.outcome, finish.at, false)
  }

  /** The deferred handler: a failure, at the handler's own reading or else at the start. */
  function Recovered(started: int, retry: Reading): Report {
    Report(Failure, if retry.Read? then retry.at else started, true)
  }

  function Elapsed(finished: int, started: int): (d: int)
    ensures d >= 0 && d >= finished - started && (d == 0 || d == finished - started)
  {
    if finished - started > 0 then finished - started else 0
  }

  /** Other callers never hold this permit. */
  predicate Touches(a: Action, id: nat) {
    (a.DoComplete? || a.DoCancel?) && a.id == id
  }

  ghost predicate Private(actions: seq<Action>, id: nat) {
    forall a :: a in actions ==> !Touches(a, id)
  }

  /** The state after an admitted Execute holding permit `id` has run to its end. */
  ghost function Executed(cfg: Settings, s: Model, id: nat, x: Script): Model
    requires ValidSettings(cfg) && id < |s.permits|
  {
    var s1 := Run(cfg, s, x.before);
    if x.start.ClockPanics? then
      Cancel(s1, id, s.permits[id].deadline - cfg.permitTTL).0
    else
      var report := Reported(x.start.at, x.body);
      var slow := Elapsed(report.finished, x.start.at) >= cfg.slowCallDuration;
      var (s2, reply) := Complete(cfg, s1, id, report.outcome, slow, report.finished, x.sample);
      if report.panicking || reply.Accepted? then s2
      else Cancel(Run(cfg, s2, x.between), id, report.finished).0
  }

  /** What may happen to a private permit while others run: nothing, or lazy expiry. */
  ghost predicate OnlyExpires(s: Model, t: Model, id: nat)
    requires id < |s.permits|
  {
    && id < |t.permits|
    && t.permits[id] == s.permits[id].(status := t.permits[id].status)
    && (t.permits[id].status == s.permits[id].status
        || (s.permits[id].status.Active? && t.permits[id].status.Expired?))
  }

  lemma OtherStep(cfg: Settings, s: Model, a: Action, id: nat)
    requires ValidSettings(cfg) && id < |s.permits| && !Touches(a, id)
    ensures OnlyExpires(s, Step(cfg, s, a).0, id)
  {
    hide Health, Probes, IsProbe, OpenInterval, CompleteProbe, RecordHealth, ResetFrom, ModeFrom, Settled, ExpireProbes;
    match a
    case DoTryAcquire(now, execution) => SettledOnlyExpires(cfg, s, now, id);
    case DoRejectWaiter =>
    case DoComplete(other, outcome, slow, now, sample) =>
      if other < |s.permits| {
        CompletionKeepsPermits(cfg, SetStatus(s, other, Completed(outcome)), outcome, slow, now, sample);
      }
    case DoCancel(other, now) =>
    case DoSetMode(mode, now) => TransitionsKeepPermits(cfg, s, mode, now);
    case DoReset(now) => TransitionsKeepPermits(cfg, s, s.mode, now);
    case DoSnapshot(now) => ExpiryOnlyExpires(s, now, id);
  }

  lemma ExpiryOnlyExpires(s: Model, now: int, id: nat)
    requires id < |s.permits|
    ensures OnlyExpires(s, ExpireProbes(s, now), id)
  {
  }

  lemma SettledOnlyExpires(cfg: Settings, s: Model, now: int, id: nat)
    requires id < |s.permits|
    ensures OnlyExpires(s, Settled(cfg, s, now), id)
  {
    hide HalfOpenFrom, ExpireProbes;
    TransitionsKeepPermits(cfg, s, s.mode, now);
    ExpiryOnlyExpires(s, now, id);
    ExpiryOnlyExpires(HalfOpenFrom(cfg, s, now), now, id);
  }

  lemma {:induction false} OthersRun(cfg: Settings, s: Model, actions: seq<Action>, id: nat)
    requires ValidSettings(cfg) && id < |s.permits| && Private(actions, id)
    ensures OnlyExpires(s, Run(cfg, s, actions), id)
    decreases |actions|
  {
    hide Step;
    if actions != [] {
      OtherStep(cfg, s, actions[0], id);
      OthersRun(cfg, Step(cfg, s, actions[0]).0, actions[1..], id);
    }
  }

  /** Under arbitrary interleaving by other callers, an admitted Execute leaves its permit terminal and
      holding no probe slot. It records exactly one outcome - the classified one, or a failure for a panic
      - exactly when it ran and was not classified invalid, even if its permit had expired meanwhile. */
  lemma ExecuteTerminates(cfg: Settings, s: Model, id: nat, x: Script)
    requires ValidSettings(cfg) && id < |s.permits|
    requires s.permits[id].execution && s.permits[id].status.Active?
    requires Private(x.before, id) && Private(x.between, id)
    ensures var t := Executed(cfg, s, id, x);
            && id < |t.permits|
            && id !in Probes(t)
            && t.permits[id].status ==
               (if x.start.ClockPanics? then
                  if Run(cfg, s, x.before).permits[id].status.Active? then Canceled else Expired
                else
                  var report := Reported(x.start.at, x.body);
                  if !report.outcome.Unknown? then Completed(report.outcome)
                  else t.permits[id].status)
            && (t.permits[id].status.Completed? <==>
                  x.start.Read? && !Reported(x.start.at, x.body).outcome.Unknown?)
            && !t.permits[id].status.Active?
  {
    hide Health, OpenInterval, CompleteProbe, RecordHealth, Run;
    OthersRun(cfg, s, x.before, id);
    var s1 := Run(cfg, s, x.before);
    if x.start.Read? {
      var report := Reported(x.start.at, x.body);
      var slow := Elapsed(report.finished, x.start.at) >= cfg.slowCallDuration;
      CompletionKeepsPermits(cfg, SetStatus(s1, id, Completed(report.outcome)), report.outcome, slow, report.finished, x.sample);
      if report.outcome.Unknown? {
        OthersRun(cfg, s1, x.between, id);
      }
    }
  }

  /** The lifetime totals move by Execute's own steps exactly as much as its permit records. */
  lemma ExecuteCountsOnce(cfg: Settings, s: Model, id: nat, x: Script)
    requires ValidSettings(cfg) && id < |s.permits|
    requires s.permits[id].execution && s.permits[id].status.Active?
    requires Private(x.before, id) && Private(x.between, id)
    ensures var s1, t := Run(cfg, s, x.before), Executed(cfg, s, id, x);
            if x.start.ClockPanics? then TotalsOf(t) == TotalsOf(s1)
            else
              var report := Reported(x.start.at, x.body);
              if report.outcome.Unknown? then TotalsOf(t) == TotalsOf(Run(cfg, s1, x.between))
              else TotalsOf(t) == Counting(TotalsOf(s1), report.outcome)
  {
    hide Health, OpenInterval, CompleteProbe, RecordHealth, Run, TotalsOf, Probes, IsProbe;
    OthersRun(cfg, s, x.before, id);
    var s1 := Run(cfg, s, x.before);
    if x.start.ClockPanics? {
      StepLifetime(cfg, s1, DoCancel(id, s.permits[id].deadline - cfg.permitTTL));
    } else {
      var report := Reported(x.start.at, x.body);
      var slow := Elapsed(report.finished, x.start.at) >= cfg.slowCallDuration;
      StepLifetime(cfg, s1, DoComplete(id, report.outcome, slow, report.finished, x.sample));
      if report.outcome.Unknown? {
        StepLifetime(cfg, Run(cfg, s1, x.between), DoCancel(id, report.finished));
      }
    }
  }

  // ---------- what Execute reports, on the cases of the script ----------

  /** Whether the operation, the clock after it or the classifier panics. */
  predicate Panics(body: Body) {
    body.OperationPanics? || body.finish.ClockPanics? || body.classification.ClassifierPanics?
  }

  /** When the call is taken to have finished: at the clock reading after the operation; after a panic at the
      handler's own reading, or at the start when that clock panics too. */
  function FinishTime(started: int, body: Body): int {
    if !Panics(body) then body.finish.at
    else match body.retry
         case Read(at) => at
         case ClockPanics => started
  }

  /** A panic anywhere ends the permit with a failure, and otherwise a valid classification ends it with that
      outcome, under any interleaving and even after expiry. */
  lemma {:induction false} ExecuteOutcome(cfg: Settings, s: Model, id: nat, x: Script)
    requires ValidSettings(cfg) && id < |s.permits|
    requires s.permits[id].execution && s.permits[id].status.Active?
    requires Private(x.before, id) && Private(x.between, id) && x.start.Read?
    ensures var t := Executed(cfg, s, id, x);
            && id < |t.permits|
            && (Panics(x.body) ==> t.permits[id].status == Completed(Failure))
            && (!Panics(x.body) && !x.body.classification.outcome.Unknown? ==>
                  t.permits[id].status == Completed(x.body.classification.outcome))
            && (!Panics(x.body) && x.body.classification.outcome.Unknown? ==>
                  t.permits[id].status == Canceled || t.permits[id].status == Expired)
  {
    hide Executed, Probes;
    ExecuteTerminates(cfg, s, id, x);
    if !Panics(x.body) && x.body.classification.outcome.Unknown? {
      InvalidIsAbandoned(cfg, s, id, x);
    }
  }

  lemma InvalidIsAbandoned(cfg: Settings, s: Model, id: nat, x: Script)
    requires ValidSettings(cfg) && id < |s.permits|
    requires s.permits[id].execution && s.permits[id].status.Active?
    requires Private(x.before, id) && Private(x.between, id)
    requires x.start.Read? && Reported(x.start.at, x.body).outcome.Unknown?
    ensures var t := Executed(cfg, s, id, x);
            id < |t.permits| && (t.permits[id].status == Canceled || t.permits[id].status == Expired)
  {
    hide Health, CompleteProbe, RecordHealth, Run;
    OthersRun(cfg, s, x.before, id);
    OthersRun(cfg, Run(cfg, s, x.before), x.between, id);
  }

  /** When the permit is still in force on a closed breaker, exactly one record reaches the evidence: the
      outcome of the call, at its finish time, slow exactly when the time from start to finish (none on a
      backward clock) is at least SlowCallDuration and the outcome is not ignored. */
  lemma {:induction false} ExecuteRecords(cfg: Settings, s: Model, id: nat, x: Script)
    requires ValidSettings(cfg) && Inv(cfg, s) && id < |s.permits| && s.permits[id].execution && x.start.Read?
    requires !Panics(x.body) ==> !x.body.classification.outcome.Unknown?
    requires Run(cfg, s, x.before).state.Closed? && InForce(Run(cfg, s, x.before), id, FinishTime(x.start.at, x.body))
    ensures var s1, t := Run(cfg, s, x.before), Executed(cfg, s, id, x);
            var finished := FinishTime(x.start.at, x.body);
            var outcome := if Panics(x.body) then Failure else x.body.classification.outcome;
            var duration := if finished < x.start.at then 0 else finished - x.start.at;
            var record := Record(outcome, duration >= cfg.slowCallDuration && outcome != Ignored);
            && Recorded(s1, t, record, finished)
            && Records(t.window) == Records(s1.window) + [record]
            && t.permits == Ending(s1, id, Completed(outcome))
  {
    hide Run, Inv, Complete, Recorded, Records, Opens, Health, MovedOn, Opened, Streak;
    RunKeeps(cfg, s, x.before);
    var s1 := Run(cfg, s, x.before);
    var finished := FinishTime(x.start.at, x.body);
    var outcome := if Panics(x.body) then Failure else x.body.classification.outcome;
    var slow := Elapsed(finished, x.start.at) >= cfg.slowCallDuration;
    ClosedCompletion(cfg, s1, id, outcome, slow, finished, x.sample);
  }

  /** When it is still in force on a half-open breaker, that outcome joins the sample or decides it. */
  lemma {:induction false} ExecuteProbes(cfg: Settings, s: Model, id: nat, x: Script)
    requires ValidSettings(cfg) && Inv(cfg, s) && id < |s.permits| && s.permits[id].execution && x.start.Read?
    requires !Panics(x.body) ==> ClassifiedOutcome(x.body.classification.outcome)
    requires Run(cfg, s, x.before).state.HalfOpen? && InForce(Run(cfg, s, x.before), id, FinishTime(x.start.at, x.body))
    ensures var s1, t := Run(cfg, s, x.before), Executed(cfg, s, id, x);
            var outcome := if Panics(x.body) then Failure else x.body.classification.outcome;
            var trial := s1.trial + [outcome];
            && t.permits == Ending(s1, id, Completed(outcome))
            && match Decision(cfg.halfOpen, trial)
               case Undecided => t.trial == trial && t.state.HalfOpen?
               case Recovers => t.state.Closed? && t.log != [] && t.log[|t.log| - 1].trial == trial
               case Fails => t.state.Open? && t.log != [] && t.log[|t.log| - 1].trial == trial
  {
    hide Run, Inv, Complete, Records, Decision, Look, WindowRead, EmptyWindow, OpenInterval, Probes;
    RunKeeps(cfg, s, x.before);
    var s1 := Run(cfg, s, x.before);
    var finished := FinishTime(x.start.at, x.body);
    var outcome := if Panics(x.body) then Failure else x.body.classification.outcome;
    var slow := Elapsed(finished, x.start.at) >= cfg.slowCallDuration;
    ProbeCompletion(cfg, s1, id, outcome, slow, finished, x.sample);
  }

  // ---------- the waiting acquire ----------

  /** How a waiter leaves its select: its context ends, its timer fires (others run `late` before it locks
      again), or the captured signal channel closes. */
  datatype Wake = ContextDone | TimerFired(late: seq<Action>) | Signaled

  /** One iteration of the acquire loop: others run, the clock was read, the context may have ended. */
  datatype Round = Round(others: seq<Action>, now: int, contextDone: bool, wake: Wake)

  datatype Acquisition = ContextError | Replied(reply: Reply, round: nat) | StillWaiting

  /** The acquire loop. `deadline` is fixed by the first round that waits. */
  ghost function Acquire(cfg: Settings, s: Model, execution: bool, rounds: seq<Round>, k: nat, deadline: seq<int>): (Model, Acquisition)
    requires ValidSettings(cfg) && k <= |rounds|
    decreases |rounds| - k
  {
    if k == |rounds| then (s, StillWaiting)
    else
      var r := rounds[k];
      var s1 := Run(cfg, s, r.others);
      if r.contextDone then (s1, ContextError)
      else if deadline != [] && deadline[0] <= r.now then TimedOut(s1, k)
      else
        var (s2, reply) := TryAcquire(cfg, s1, r.now, execution);
        if !reply.MustWait? then (s2, Replied(reply, k))
        else
          match r.wake
          case ContextDone => (s2, ContextError)
          case TimerFired(late) => TimedOut(Run(cfg, s2, late), k)
          case Signaled =>
            Acquire(cfg, s2, execution, rounds, k + 1, if deadline == [] then [r.now + cfg.maxWait] else deadline)
  }

  function TimedOut(s: Model, k: nat): (Model, Acquisition) {
    var (t, reply) := Reject(s, ErrHalfOpenWaitTimeout);
    (t, Replied(reply, k))
  }

  /** A firm deadline: a caller admitted after waiting was admitted at an observed time strictly before
      its first wait plus MaxWait, whatever happened in between and however late its timer was. */
  lemma {:induction false} DeadlineIsFirm(cfg: Settings, s: Model, execution: bool, rounds: seq<Round>, k: nat, deadline: seq<int>)
    requires ValidSettings(cfg) && k <= |rounds| && |deadline| <= 1
    ensures var (_, result) := Acquire(cfg, s, execution, rounds, k, deadline);
            result.Replied? ==>
              && k <= result.round < |rounds|
              && (result.reply.Admitted? && deadline != [] ==> rounds[result.round].now < deadline[0])
              && (result.reply.Admitted? && deadline == [] && result.round > k ==>
                    cfg.wait && rounds[result.round].now < rounds[k].now + cfg.maxWait)
              && (result.round > k ==> cfg.wait)
    decreases |rounds| - k
  {
    hide Step, Run, Settled, Probes;
    if k < |rounds| {
      var r := rounds[k];
      var s1 := Run(cfg, s, r.others);
      var s2 := TryAcquire(cfg, s1, r.now, execution).0;
      DeadlineIsFirm(cfg, s2, execution, rounds, k + 1, if deadline == [] then [r.now + cfg.maxWait] else deadline);
    }
  }

  /** Whoever was told to wait and sees no new signal would be told to wait again by a clock that has not
      passed the remaining probes' deadlines. */
  lemma WaitingIsJustified(cfg: Settings, s: Model, now: int, execution: bool, others: seq<Action>)
    requires ValidSettings(cfg) && Inv(cfg, s)
    requires TryAcquire(cfg, s, now, execution).1.MustWait?
    requires var s1 := TryAcquire(cfg, s, now, execution).0; Run(cfg, s1, others).revision == s1.revision
    ensures var t := Run(cfg, TryAcquire(cfg, s, now, execution).0, others);
            forall later :: (forall i :: i in Probes(t) ==> later < t.permits[i].deadline) ==>
              TryAcquire(cfg, t, later, execution).1.MustWait?
  {
    hide TryAcquire, Inv, Run, IsProbe, Health;
    var s1 := TryAcquire(cfg, s, now, execution).0;
    var t := Run(cfg, s1, others);
    TryAcquireKeeps(cfg, s, now, execution);
    WaitMeansFull(cfg, s, now, execution);
    NoLostWakeup(cfg, s1, others);
    RunKeeps(cfg, s1, others);
    forall later | forall i :: i in Probes(t) ==> later < t.permits[i].deadline
      ensures TryAcquire(cfg, t, later, execution).1.MustWait?
    {
      FullMeansWait(cfg, t, later, execution);
    }
  }

  lemma WaitMeansFull(cfg: Settings, s: Model, now: int, execution: bool)
    requires ValidSettings(cfg) && Inv(cfg, s) && TryAcquire(cfg, s, now, execution).1.MustWait?
    ensures var s1 := TryAcquire(cfg, s, now, execution).0;
            cfg.wait && s1.state.HalfOpen? && s1.mode.Normal? && InUse(s1) >= cfg.halfOpen.maxProbes
  {
    hide Health;
    AdmissionExact(cfg, s, now, execution);
    ProbesAfterExpiry(s, now);
  }

  lemma FullMeansWait(cfg: Settings, t: Model, later: int, execution: bool)
    requires ValidSettings(cfg) && Inv(cfg, t) && cfg.wait
    requires t.state.HalfOpen? && t.mode.Normal? && InUse(t) >= cfg.halfOpen.maxProbes
    requires forall i :: i in Probes(t) ==> later < t.permits[i].deadline
    ensures TryAcquire(cfg, t, later, execution).1.MustWait?
  {
    hide Settled, Health, Inv, IsProbe, Issue, HalfOpenFrom;
    assert Unexpired(t, later) == Probes(t);
    SettledShape(cfg, t, later);
  }

  // ---------- how waits end ----------

  /** One round of the loop, by the answers of the breaker's own steps. A caller whose context has ended is
      gone without a trace of its own; one whose deadline has passed is refused with the timeout, counted
      once, without another attempt; otherwise it makes one attempt, and any answer but "wait" is the caller's.
      A waiter is woken by its context (no trace), by its timer (the timeout, counted once) or by a signal
      (another round, under the deadline of its first wait). */
  lemma AcquireRound(cfg: Settings, s: Model, execution: bool, rounds: seq<Round>, k: nat, deadline: seq<int>)
    requires ValidSettings(cfg) && k < |rounds|
    ensures var r := rounds[k];
            var s1 := Run(cfg, s, r.others);
            var (s2, answer) := Step(cfg, s1, DoTryAcquire(r.now, execution));
            Acquire(cfg, s, execution, rounds, k, deadline) ==
            if r.contextDone then (s1, ContextError)
            else if deadline != [] && deadline[0] <= r.now then
              (Step(cfg, s1, DoRejectWaiter).0, Replied(Step(cfg, s1, DoRejectWaiter).1, k))
            else if answer != MustWait then (s2, Replied(answer, k))
            else match r.wake
                 case ContextDone => (s2, ContextError)
                 case TimerFired(late) =>
                   (Step(cfg, Run(cfg, s2, late), DoRejectWaiter).0, Replied(Step(cfg, Run(cfg, s2, late), DoRejectWaiter).1, k))
                 case Signaled =>
                   Acquire(cfg, s2, execution, rounds, k + 1, if deadline == [] then [r.now + cfg.maxWait] else deadline)
  {
    hide Run, TryAcquire, ValidSettings;
  }

  /** How a wait can end: admitted or refused, never with "wait"; with the timeout only for a caller that has
      waited; and by every earlier round having been woken by a signal. */
  lemma {:induction false} AcquireEnds(cfg: Settings, s: Model, execution: bool, rounds: seq<Round>, k: nat, deadline: seq<int>)
    requires ValidSettings(cfg) && Inv(cfg, s) && k <= |rounds|
    ensures match Acquire(cfg, s, execution, rounds, k, deadline).1
            case ContextError => exists n :: k <= n < |rounds| && (rounds[n].contextDone || rounds[n].wake.ContextDone?)
            case StillWaiting => forall n :: k <= n < |rounds| ==> !rounds[n].contextDone && rounds[n].wake.Signaled?
            case Replied(reply, n) =>
              && k <= n < |rounds| && !rounds[n].contextDone
              && (forall i :: k <= i < n ==> !rounds[i].contextDone && rounds[i].wake.Signaled?)
              && (reply.Admitted? || reply.Rejected?)
              && (reply.Rejected? && reply.rejection.cause == ErrHalfOpenWaitTimeout ==>
                    deadline != [] || n > k || rounds[n].wake.TimerFired?)
    decreases |rounds| - k
  {
    hide Run, Inv, Step, Acquire;
    if k == |rounds| {
      NoRounds(cfg, s, execution, rounds, k, deadline);
    } else {
      var r := rounds[k];
      var s1 := Run(cfg, s, r.others);
      AcquireRound(cfg, s, execution, rounds, k, deadline);
      RunKeeps(cfg, s, r.others);
      AnswerKinds(cfg, s1, r.now, execution);
      var s2 := Step(cfg, s1, DoTryAcquire(r.now, execution)).0;
      StepKeeps(cfg, s1, DoTryAcquire(r.now, execution));
      WaiterRejected(cfg, s1);
      if r.wake.TimerFired? {
        WaiterRejected(cfg, Run(cfg, s2, r.wake.late));
      }
      AcquireEnds(cfg, s2, execution, rounds, k + 1, if deadline == [] then [r.now + cfg.maxWait] else deadline);
    }
  }

  lemma NoRounds(cfg: Settings, s: Model, execution: bool, rounds: seq<Round>, k: nat, deadline: seq<int>)
    requires ValidSettings(cfg) && k == |rounds|
    ensures Acquire(cfg, s, execution, rounds, k, deadline) == (s, StillWaiting)
  {
  }

  lemma AnswerKinds(cfg: Settings, s: Model, now: int, execution: bool)
    requires ValidSettings(cfg) && Inv(cfg, s)
    ensures var answer := Step(cfg, s, DoTryAcquire(now, execution)).1;
            && (answer.Admitted? || answer.Rejected? || answer.MustWait?)
            && (answer.Rejected? ==> answer.rejection.cause != ErrHalfOpenWaitTimeout)
  {
    hide Inv, TryAcquire, Probes;
    AdmissionExact(cfg, s, now, execution);
    KnownMode(cfg, s);
  }
}
