/** Whole-run properties of the breaker: quota, admission, transitions, schedule, waiters. */
module BreakerSafety {
  import opened Window
  import opened Config
  import opened Policy
  import opened OpenSchedule
  import opened BreakerModel
  import opened BreakerInvariants
  import opened ProbeVerdict
  import CountRing = CountWindow

  // ---------- quota and admission ----------

  /** In every reachable state the probe sample and the active probes share one quota with room for one
      more classified outcome, and both are empty outside half-open or outside normal mode. */
  lemma ProbeQuota(cfg: Settings, actions: seq<Action>)
    requires ValidSettings(cfg)
    ensures var s := Run(cfg, Initial(cfg), actions);
            && |s.trial| + |Probes(s)| <= cfg.halfOpen.maxProbes
            && |s.trial| < cfg.halfOpen.maxProbes
            && Successes(s.trial) <= |s.trial|
            && (!(s.state.HalfOpen? && s.mode.Normal?) ==> s.trial == [] && Probes(s) == {})
  {
    Reachable(cfg, actions);
    var s := Run(cfg, Initial(cfg), actions);
    UndecidedIsShort(cfg.halfOpen, s.trial);
    AllSuccesses(s.trial);
    forall i | i in Probes(s)
      ensures s.state.HalfOpen? && s.mode.Normal?
    {
      assert PermitOk(s, s.permits[i]);
    }
  }

  /** Probes still unexpired at `now`. */
  ghost function Unexpired(s: Model, now: int): set<nat> {
    Probes(s) - Overdue(s, now)
  }

  /** Exactly when normal mode admits, at any observed time. */
  ghost predicate Admissible(cfg: Settings, s: Model, now: int) {
    match s.state
    case Closed => true
    case Open => s.nextProbeAt <= now
    case HalfOpen => |s.trial| + |Unexpired(s, now)| < cfg.halfOpen.maxProbes
  }

  /** Why a state rejects, when it does. */
  function RejectionCause(s: Model): Cause {
    if s.mode.ForceOpen? then ErrForceOpen
    else if s.mode.Isolated? then ErrIsolated
    else if s.state.Open? then ErrOpen
    else ErrHalfOpenExhausted
  }

  /** The admission matrix, both directions: who is admitted and what a new permit is bound to, who waits, and
      who is rejected and why; nothing else changes. */
  lemma {:induction false} AdmissionExact(cfg: Settings, s: Model, now: int, execution: bool)
    requires ValidSettings(cfg) && Inv(cfg, s)
    ensures var (after, reply) := TryAcquire(cfg, s, now, execution);
            && (reply.Admitted? <==> s.mode.Disabled? || (s.mode.Normal? && Admissible(cfg, s, now)))
            && (reply.MustWait? <==> s.mode.Normal? && s.state.HalfOpen? && !Admissible(cfg, s, now) && cfg.wait)
            && (reply.Rejected? <==> s.mode.ForceOpen? || s.mode.Isolated?
                                     || (s.mode.Normal? && !Admissible(cfg, s, now) && !(s.state.HalfOpen? && cfg.wait)))
            && (reply.MustWait? ==> after == ExpireProbes(s, now))
            && (reply.Admitted? ==>
                  && reply.id == |s.permits| && |after.permits| == |s.permits| + 1
                  && after.permits[reply.id] ==
                     PermitRecord(after.generation, after.state, now + cfg.permitTTL, s.mode.Normal?, execution, Active)
                  && (reply.id in Probes(after) <==> s.mode.Normal? && !s.state.Closed?))
            && (reply.Rejected? ==>
                  && after == (if s.mode.Normal? && s.state.HalfOpen? then ExpireProbes(s, now) else s).(rejected := s.rejected + 1)
                  && reply.rejection == Rejection(s.state, s.mode, s.generation, s.nextProbeAt, RejectionCause(s)))
  {
    hide Settled, Health, Inv;
    if s.mode.Normal? && !(s.state.Open? && now < s.nextProbeAt) {
      SettledShape(cfg, s, now);
      Bound(cfg, Settled(cfg, s, now), now, true, execution);
    } else if s.mode.Disabled? {
      Bound(cfg, s, now, false, execution);
    } else {
      assert s.mode.Normal? || s.mode.ForceOpen? || s.mode.Isolated? by { KnownMode(cfg, s); }
    }
  }

  lemma KnownMode(cfg: Settings, s: Model)
    requires ValidSettings(cfg) && Inv(cfg, s)
    ensures !s.mode.UnknownMode?
  {
  }

  /** What a new permit is bound to. */
  lemma Bound(cfg: Settings, s: Model, now: int, recording: bool, execution: bool)
    ensures var after := Issue(cfg, s, now, recording, execution);
            && |after.permits| == |s.permits| + 1 && after.mode == s.mode && after.rejected == s.rejected
            && after.permits[|s.permits|] ==
               PermitRecord(after.generation, after.state, now + cfg.permitTTL, recording, execution, Active)
            && (|s.permits| in Probes(after) <==> recording && s.state.HalfOpen?)
  {
    ProbesAfterIssue(cfg, s, now, recording, execution);
    assert |s.permits| !in Probes(s);
  }

  /** The state an admission is decided on, in terms of the state before. */
  lemma SettledShape(cfg: Settings, s: Model, now: int)
    requires ValidSettings(cfg) && Inv(cfg, s) && s.mode.Normal? && (s.state.Open? ==> s.nextProbeAt <= now)
    ensures var ready := Settled(cfg, s, now);
            && ready.mode.Normal?
            && ready.state == (if s.state.Closed? then Closed else HalfOpen)
            && ready.trial == (if s.state.HalfOpen? then s.trial else [])
            && Probes(ready) == (if s.state.HalfOpen? then Unexpired(s, now) else {})
            && |ready.permits| == |s.permits| && ready.rejected == s.rejected
            && (s.state.HalfOpen? ==> ready == ExpireProbes(s, now))
  {
    if s.state.Open? {
      FreshHalfOpen(cfg, s, now);
      ProbesAfterExpiry(HalfOpenFrom(cfg, s, now), now);
    } else if s.state.HalfOpen? {
      ProbesAfterExpiry(s, now);
    }
  }

  lemma FreshHalfOpen(cfg: Settings, s: Model, now: int)
    requires ValidSettings(cfg) && Inv(cfg, s)
    ensures var h := HalfOpenFrom(cfg, s, now);
            && Probes(h) == {} && h.trial == [] && h.state.HalfOpen? && h.mode == s.mode
            && |h.permits| == |s.permits| && h.rejected == s.rejected
  {
    ObserveKeeps(cfg, s, now);
    var o := Observed(s, now);
    ProbesAfterCommit(cfg, o, o.(state := HalfOpen), OpenIntervalElapsed, now);
  }

  /** No permanent lockout: from every reachable normal-mode state an acquire at any time at or past the
      open schedule and every live probe deadline is admitted. */
  lemma {:induction false} NoLockout(cfg: Settings, actions: seq<Action>, now: int, execution: bool)
    requires ValidSettings(cfg)
    requires Run(cfg, Initial(cfg), actions).mode.Normal?
    requires Run(cfg, Initial(cfg), actions).nextProbeAt <= now
    requires forall i :: i in Probes(Run(cfg, Initial(cfg), actions)) ==>
               Run(cfg, Initial(cfg), actions).permits[i].deadline <= now
    ensures TryAcquire(cfg, Run(cfg, Initial(cfg), actions), now, execution).1.Admitted?
  {
    var s := Run(cfg, Initial(cfg), actions);
    Reachable(cfg, actions);
    UndecidedIsShort(cfg.halfOpen, s.trial);
    assert Unexpired(s, now) == {};
    AdmissionExact(cfg, s, now, execution);
  }

  // ---------- transitions ----------

  /** Neighbouring log entries meet: one ends in the state, mode and generation the next starts from. */
  ghost predicate Chained(log: seq<Transition>) {
    forall i :: 0 <= i < |log| - 1 ==>
      && log[i].event.after.state == log[i + 1].event.before.state
      && log[i].event.after.mode == log[i + 1].event.before.mode
      && log[i].event.after.generation == log[i + 1].event.before.generation
  }

  lemma {:induction false} PathIsChain(log: seq<Transition>, state: State, mode: Mode, generation: nat)
    requires PathTo(log, state, mode, generation)
    ensures Chained(log) && generation == |log| + 1
    ensures forall i :: 0 <= i < |log| ==>
              && Allowed(log[i].event)
              && log[i].event.before.generation == i + 1 && log[i].event.after.generation == i + 2
              && log[i].event.before.transitions == i && log[i].event.after.transitions == i + 1
    ensures log != [] ==> log[|log| - 1].event.after.state == state
  {
    hide Allowed;
    if log != [] {
      var e := log[|log| - 1].event;
      PathIsChain(log[..|log| - 1], e.before.state, e.before.mode, e.before.generation);
      if |log| > 1 {
        assert log[..|log| - 1][|log| - 2] == log[|log| - 2];
        var previous := log[|log| - 2].event.after;
        assert previous.state == e.before.state && previous.mode == e.before.mode
            && previous.generation == e.before.generation;
      }
      forall i | 0 <= i < |log|
        ensures Allowed(log[i].event)
        ensures log[i].event.before.generation == i + 1 && log[i].event.after.generation == i + 2
        ensures log[i].event.before.transitions == i && log[i].event.after.transitions == i + 1
      {
        if i < |log| - 1 {
          assert log[..|log| - 1][i] == log[i];
        }
      }
      forall i | 0 <= i < |log| - 2
        ensures log[i].event.after.generation == log[i + 1].event.before.generation
        ensures log[i].event.after.state == log[i + 1].event.before.state
        ensures log[i].event.after.mode == log[i + 1].event.before.mode
      {
        assert log[..|log| - 1][i] == log[i] && log[..|log| - 1][i + 1] == log[i + 1];
      }
    }
  }

  /** The committed transitions of any run form a path in the transition table, one generation each;
      every opening was decided on satisfied rules, the window is emptied and retained as the table says,
      and every probe generation that ended by verdict ended by the verdict of its own outcomes. */
  lemma TransitionPath(cfg: Settings, actions: seq<Action>)
    requires ValidSettings(cfg)
    ensures var s := Run(cfg, Initial(cfg), actions);
            && s.generation == |s.log| + 1
            && Chained(s.log)
            && (forall i :: 0 <= i < |s.log| ==>
                  && Allowed(s.log[i].event)
                  && s.log[i].event.after.generation == s.log[i].event.before.generation + 1 == i + 2
                  && EvidenceOk(cfg, s.log[i]) && HealthOk(cfg, s.log[i])
                  && (s.log[i].event.reason == HalfOpenRecovered ==>
                        Feed(cfg.halfOpen, s.log[i].trial, 0) == (Recovers, |s.log[i].trial|))
                  && (s.log[i].event.reason == HalfOpenFailed ==>
                        Feed(cfg.halfOpen, s.log[i].trial, 0) == (Fails, |s.log[i].trial|)))
  {
    Reachable(cfg, actions);
    var s := Run(cfg, Initial(cfg), actions);
    PathIsChain(s.log, s.state, s.mode, s.generation);
    forall i | 0 <= i < |s.log|
      ensures s.log[i].event.reason == HalfOpenRecovered ==>
                Feed(cfg.halfOpen, s.log[i].trial, 0) == (Recovers, |s.log[i].trial|)
      ensures s.log[i].event.reason == HalfOpenFailed ==>
                Feed(cfg.halfOpen, s.log[i].trial, 0) == (Fails, |s.log[i].trial|)
    {
      assert s.log[i] in s.log;
      if s.log[i].event.reason == HalfOpenRecovered {
        TrialClassified(cfg.halfOpen, s.log[i].trial, Recovers);
        DecidedIsFed(cfg.halfOpen, s.log[i].trial, Recovers);
      } else if s.log[i].event.reason == HalfOpenFailed {
        TrialClassified(cfg.halfOpen, s.log[i].trial, Fails);
        DecidedIsFed(cfg.halfOpen, s.log[i].trial, Fails);
      }
    }
  }

  lemma {:induction false} UndecidedClassified(policy: Recovery, trial: seq<Outcome>)
    requires UndecidedTrial(policy, trial)
    ensures AllClassified(trial)
  {
    if trial != [] {
      UndecidedClassified(policy, trial[..|trial| - 1]);
      assert trial == trial[..|trial| - 1] + [trial[|trial| - 1]];
    }
  }

  lemma TrialClassified(policy: Recovery, trial: seq<Outcome>, verdict: Verdict)
    requires DecidedTrial(policy, trial, verdict)
    ensures AllClassified(trial)
  {
    UndecidedClassified(policy, trial[..|trial| - 1]);
    assert trial == trial[..|trial| - 1] + [trial[|trial| - 1]];
  }

  /** The place of the latest opening in a log. */
  function LatestOpening(log: seq<Transition>): (i: int)
    ensures -1 <= i < |log|
  {
    if log == [] then -1
    else if IsOpening(log[|log| - 1].event) then |log| - 1
    else LatestOpening(log[..|log| - 1])
  }

  /** The latest opening of a log, with no closing after it. */
  ghost predicate OpenSince(log: seq<Transition>, i: int) {
    && 0 <= i < |log| && IsOpening(log[i].event)
    && forall j :: i < j < |log| ==> !IsOpening(log[j].event) && !log[j].event.after.state.Closed?
  }

  lemma {:induction false} ScheduledSince(cfg: Settings, log: seq<Transition>, openDuration: int, nextProbeAt: int)
    requires ValidSettings(cfg) && Scheduled(cfg, log, openDuration, nextProbeAt)
    ensures var i := LatestOpening(log);
            && OpenSince(log, i)
            && log[i].event.after.openDuration == openDuration
            && nextProbeAt == log[i].event.at + openDuration
    ensures OpeningsSinceClosed(log) > 0 && Interval(cfg, OpeningsSinceClosed(log), openDuration)
  {
    hide Interval, OpenInterval;
    if !IsOpening(log[|log| - 1].event) {
      ScheduledSince(cfg, log[..|log| - 1], openDuration, nextProbeAt);
    }
  }

  /** The open schedule: the opening count is the number of openings since the last closed state, zero
      exactly when closed. Otherwise the probe time is the latest opening's time plus its interval, which
      is the scheduled level for that count, shortened by jitter only: equal without jitter, and never
      short of the configured fraction. */
  lemma OpenIntervals(cfg: Settings, actions: seq<Action>)
    requires ValidSettings(cfg)
    ensures var s := Run(cfg, Initial(cfg), actions);
            && s.openings == OpeningsSinceClosed(s.log)
            && (s.openings == 0 <==> s.state.Closed?)
            && (s.state.Closed? <==> s.openDuration == 0)
            && (s.state.Closed? ==> s.nextProbeAt == ZERO_TIME)
            && (!s.state.Closed? ==>
                  var level, i := Selected(cfg.openDuration, s.openings), LatestOpening(s.log);
                  && 1 <= s.openDuration <= level <= Most(cfg.openDuration)
                  && (cfg.jitter == 0.0 ==> s.openDuration == level)
                  && s.openDuration as real > level as real * (1.0 - cfg.jitter) - 1.0
                  && OpenSince(s.log, i)
                  && s.nextProbeAt == s.log[i].event.at + s.openDuration)
  {
    hide OpenSince, LatestOpening, OpeningsSinceClosed, PermitsOk, WindowOk, LogOk, SampleOk, RestsOk, Scheduled, Selected, Most, Run;
    Reachable(cfg, actions);
    var s := Run(cfg, Initial(cfg), actions);
    if s.openings > 0 {
      ScheduledSince(cfg, s.log, s.openDuration, s.nextProbeAt);
      var sample: Sample :| OpenInterval(cfg, s.openings, sample) == s.openDuration;
    }
  }

  /** No lockout outlasts the schedule: from every reachable normal-mode state an acquire is admitted at any
      time that lies the longest configured interval past the latest opening, and at or past every live
      probe deadline. */
  lemma {:induction false} LockoutIsBounded(cfg: Settings, actions: seq<Action>, now: int, execution: bool)
    requires ValidSettings(cfg)
    requires Run(cfg, Initial(cfg), actions).mode.Normal?
    requires var log := Run(cfg, Initial(cfg), actions).log;
             LatestOpening(log) >= 0 ==> log[LatestOpening(log)].event.at + Most(cfg.openDuration) <= now
    requires forall i :: i in Probes(Run(cfg, Initial(cfg), actions)) ==>
               Run(cfg, Initial(cfg), actions).permits[i].deadline <= now
    ensures TryAcquire(cfg, Run(cfg, Initial(cfg), actions), now, execution).1.Admitted?
  {
    hide LatestOpening, Most, Selected, TryAcquire, Inv, IsProbe;
    var s := Run(cfg, Initial(cfg), actions);
    Reachable(cfg, actions);
    OpenIntervals(cfg, actions);
    SampleShort(cfg, s);
    assert Unexpired(s, now) == {};
    AdmissionExact(cfg, s, now, execution);
  }

  lemma SampleShort(cfg: Settings, s: Model)
    requires ValidSettings(cfg) && Inv(cfg, s)
    ensures |s.trial| < cfg.halfOpen.maxProbes
  {
    UndecidedIsShort(cfg.halfOpen, s.trial);
  }

  // ---------- evidence ----------

  /** A closed breaker with a count window never rests on evidence that satisfies its opening rule. */
  lemma {:induction false} NeverRestsSatisfied(cfg: Settings, actions: seq<Action>)
    requires ValidSettings(cfg) && cfg.window.ByCount?
    requires Run(cfg, Initial(cfg), actions).state.Closed?
    ensures var s := Run(cfg, Initial(cfg), actions);
            s.window.CountModel?
            && !Opens(cfg.opening, cfg.minimumThroughput, Streak(s.window.records, cfg.opening.resetOnIgnored),
                      CountRing.View(s.window.records, cfg.window.size))
  {
    Reachable(cfg, actions);
  }

  /** Whether a record cuts a failure run short. */
  predicate Breaks(record: Record, resetOnIgnored: bool) {
    record.outcome.Success? || (record.outcome.Ignored? && resetOnIgnored)
  }

  function Failures(records: seq<Record>): nat {
    if records == [] then 0
    else Failures(records[..|records| - 1]) + if records[|records| - 1].outcome.Failure? then 1 else 0
  }

  /** The streak is the trailing failure run: the failures after the last record that breaks one. */
  lemma {:induction false} StreakIsTrailingRun(records: seq<Record>, resetOnIgnored: bool) returns (cut: nat)
    requires forall r :: r in records ==> ValidRecord(r)
    ensures cut <= |records|
    ensures cut > 0 ==> Breaks(records[cut - 1], resetOnIgnored)
    ensures forall i :: cut <= i < |records| ==> !Breaks(records[i], resetOnIgnored)
    ensures Streak(records, resetOnIgnored) == Failures(records[cut..])
  {
    if records == [] {
      return 0;
    }
    var before, last := records[..|records| - 1], records[|records| - 1];
    assert last in records;
    assert forall r :: r in before ==> r in records;
    cut := StreakIsTrailingRun(before, resetOnIgnored);
    if Breaks(last, resetOnIgnored) {
      cut := |records|;
    } else {
      assert records[cut..][..|records[cut..]| - 1] == before[cut..];
    }
  }

  // ---------- waiters ----------

  /** What a waiter relies on between two signals. */
  ghost predicate NoCapacityFreed(s: Model, t: Model) {
    && s.revision <= t.revision
    && (s.revision == t.revision ==>
          t.generation == s.generation && t.state == s.state && t.mode == s.mode && InUse(s) <= InUse(t))
  }

  lemma ExpirySignals(s: Model, now: int)
    ensures NoCapacityFreed(s, ExpireProbes(s, now))
  {
    ProbesAfterExpiry(s, now);
    if |Overdue(s, now)| == 0 {
      assert Overdue(s, now) == {};
    }
  }

  lemma SettlingSignals(cfg: Settings, s: Model, now: int)
    ensures NoCapacityFreed(s, Settled(cfg, s, now))
  {
    hide Health;
    if s.state.Open? {
      assert HalfOpenFrom(cfg, s, now).revision == s.revision + 1;
    } else {
      ExpirySignals(s, now);
    }
  }

  lemma IssueSignals(cfg: Settings, s: Model, now: int, recording: bool, execution: bool)
    ensures NoCapacityFreed(s, Issue(cfg, s, now, recording, execution).(rejected := s.rejected))
    ensures NoCapacityFreed(s, s.(rejected := s.rejected + 1))
  {
    ProbesAfterIssue(cfg, s, now, recording, execution);
    ProbesShrink(s, Probes(Issue(cfg, s, now, recording, execution)));
    assert Probes(s.(rejected := s.rejected + 1)) == Probes(s);
  }

  lemma AcquireSignals(cfg: Settings, s: Model, now: int, execution: bool)
    ensures NoCapacityFreed(s, TryAcquire(cfg, s, now, execution).0)
  {
    hide Settled;
    var ready := Settled(cfg, s, now);
    SettlingSignals(cfg, s, now);
    IssueSignals(cfg, s, now, false, execution);
    IssueSignals(cfg, ready, now, true, execution);
  }

  lemma ReleaseSignals(s: Model, id: nat, status: Status)
    requires id < |s.permits| && status != Active
    ensures NoCapacityFreed(s, Release(s, id, status))
  {
    ProbesAfterStatus(s, id, status);
    assert Probes(Release(s, id, status)) == Probes(SetStatus(s, id, status));
  }

  lemma CompleteSignals(cfg: Settings, s: Model, id: nat, outcome: Outcome, slow: bool, now: int, sample: real)
    requires ValidSettings(cfg) && 0.0 <= sample < 1.0 && Inv(cfg, s)
    ensures NoCapacityFreed(s, Complete(cfg, s, id, outcome, slow, now, sample).0)
  {
    hide OpenInterval, Health, RecordHealth, CompleteProbe;
    if !outcome.Unknown? && id < |s.permits| {
      var p, counted := s.permits[id], SetStatus(s, id, Completed(outcome));
      ReleaseSignals(s, id, Expired);
      ProbesAfterStatus(s, id, Completed(outcome));
      assert PermitOk(s, p);
      if s.state.HalfOpen? {
        ProbeSignals(cfg, counted, outcome, now, sample);
      } else {
        HealthSignals(cfg, counted, outcome, slow, now, sample);
      }
    }
  }

  lemma ProbeSignals(cfg: Settings, s: Model, outcome: Outcome, now: int, sample: real)
    requires ValidSettings(cfg) && 0.0 <= sample < 1.0
    ensures CompleteProbe(cfg, s, outcome, now, sample).revision > s.revision
  {
    hide OpenInterval, Health;
  }

  lemma HealthSignals(cfg: Settings, s: Model, outcome: Outcome, slow: bool, now: int, sample: real)
    requires ValidSettings(cfg) && 0.0 <= sample < 1.0
    ensures NoCapacityFreed(s, RecordHealth(cfg, s, outcome, slow, now, sample))
  {
    hide OpenInterval, Health;
    var recorded := s.(window := AppendWindow(s.window, now, Record(outcome, slow && !outcome.Ignored?)));
    assert Probes(recorded) == Probes(s);
  }

  lemma StepSignals(cfg: Settings, s: Model, a: Action)
    requires ValidSettings(cfg) && Inv(cfg, s)
    ensures NoCapacityFreed(s, Step(cfg, s, a).0)
  {
    hide Health, OpenInterval, Inv, TryAcquire, Complete, ExpireProbes;
    match a
    case DoTryAcquire(now, execution) => AcquireSignals(cfg, s, now, execution);
    case DoRejectWaiter => assert Probes(Step(cfg, s, a).0) == Probes(s);
    case DoComplete(id, outcome, slow, now, sample) => CompleteSignals(cfg, s, id, outcome, slow, now, sample);
    case DoCancel(id, now) =>
      if id < |s.permits| {
        ReleaseSignals(s, id, Expired);
        ReleaseSignals(s, id, Canceled);
      }
    case DoSetMode(mode, now) =>
    case DoReset(now) =>
    case DoSnapshot(now) =>
      ExpirySignals(s, now);
      var e := if s.state.HalfOpen? then ExpireProbes(s, now) else s;
      assert Probes(Observed(e, now)) == Probes(e);
  }

  /** No lost wakeup: over any run that leaves the signal revision unchanged, the generation is unchanged
      and the capacity in use has not fallen, so a caller told to wait would still be told to wait. */
  lemma {:induction false} NoLostWakeup(cfg: Settings, s: Model, actions: seq<Action>)
    requires ValidSettings(cfg) && Inv(cfg, s)
    ensures NoCapacityFreed(s, Run(cfg, s, actions))
    decreases |actions|
  {
    if actions != [] {
      StepSignals(cfg, s, actions[0]);
      StepKeeps(cfg, s, actions[0]);
      NoLostWakeup(cfg, Step(cfg, s, actions[0]).0, actions[1..]);
    }
  }
}
