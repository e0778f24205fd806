/** What every reachable state of the breaker satisfies. */
module BreakerInvariants {
  import opened Window
  import opened Config
  import opened Policy
  import opened OpenSchedule
  import opened BreakerModel

  // ---------- the parts ----------

  /** Permits belong to the past or to the current epoch; current ones record exactly in normal mode,
      and never in the open state. */
  ghost predicate PermitsOk(s: Model) {
    forall i :: 0 <= i < |s.permits| ==> PermitOk(s, s.permits[i])
  }

  ghost predicate PermitOk(s: Model, p: PermitRecord) {
    && p.generation <= s.generation
    && (p.generation == s.generation ==>
          p.state == s.state && (p.recording <==> s.mode.Normal?) && (p.recording ==> !p.state.Open?))
  }

  predicate ClassifiedOutcome(outcome: Outcome) {
    outcome.Success? || outcome.Failure?
  }

  /** A sample no prefix of which has decided the generation. */
  ghost predicate UndecidedTrial(policy: Recovery, trial: seq<Outcome>) {
    trial != [] ==>
      && UndecidedTrial(policy, trial[..|trial| - 1])
      && ClassifiedOutcome(trial[|trial| - 1])
      && Judge(policy, trial) == Undecided
  }

  /** A sample decided by its last outcome and by no earlier one. */
  ghost predicate DecidedTrial(policy: Recovery, trial: seq<Outcome>, verdict: Verdict) {
    && trial != []
    && UndecidedTrial(policy, trial[..|trial| - 1])
    && ClassifiedOutcome(trial[|trial| - 1])
    && Judge(policy, trial) == verdict
  }

  /** The probe quota. */
  ghost predicate SampleOk(cfg: Settings, s: Model) {
    && UndecidedTrial(cfg.halfOpen, s.trial)
    && (s.trial != [] ==> s.state.HalfOpen? && s.mode.Normal?)
    && InUse(s) <= cfg.halfOpen.maxProbes
  }

  ghost predicate ScheduleOk(cfg: Settings, s: Model)
    requires ValidSettings(cfg)
  {
    && (s.openings == 0 <==> s.state.Closed?)
    && s.openings == OpeningsSinceClosed(s.log)
    && (if s.state.Closed? then s.openDuration == 0 && s.nextProbeAt == ZERO_TIME
        else Scheduled(cfg, s.log, s.openDuration, s.nextProbeAt))
  }

  predicate IsOpening(e: Event) {
    e.before.state != e.after.state && e.after.state.Open?
  }

  /** How many openings the log shows since the last closed state. */
  function OpeningsSinceClosed(log: seq<Transition>): nat {
    if log == [] then 0
    else
      var event, before := log[|log| - 1].event, OpeningsSinceClosed(log[..|log| - 1]);
      if event.after.state.Closed? then 0
      else if IsOpening(event) then before + 1
      else before
  }

  /** A level of the schedule, shortened by some sample of jitter. */
  ghost predicate Interval(cfg: Settings, openings: nat, duration: int)
    requires ValidSettings(cfg) && openings > 0
  {
    exists sample: Sample :: OpenInterval(cfg, openings, sample) == duration
  }

  /** The latest opening in the log, with no closing after it, selected this interval and this probe time. */
  ghost predicate Scheduled(cfg: Settings, log: seq<Transition>, openDuration: int, nextProbeAt: int)
    requires ValidSettings(cfg)
  {
    && log != []
    && var e := log[|log| - 1].event;
       if IsOpening(e) then
         && e.after.openDuration == openDuration
         && nextProbeAt == e.at + openDuration
         && Interval(cfg, OpeningsSinceClosed(log), openDuration)
       else !e.after.state.Closed? && Scheduled(cfg, log[..|log| - 1], openDuration, nextProbeAt)
  }

  ghost predicate WindowOk(cfg: Settings, w: WindowModel) {
    match w
    case CountModel(size, records) =>
      cfg.window == ByCount(size) && (forall r :: r in records ==> ValidRecord(r))
    case TimeModel(duration, count, entries, progress) =>
      && cfg.window == ByTime(duration, count)
      && (progress.Unseen? ==> entries == [])
      && (forall e :: e in entries ==> ValidRecord(e.record) && e.bucket <= progress.bucket)
  }

  /** With a count window, a closed breaker never rests on evidence that satisfies its opening rule. */
  ghost predicate RestsOk(cfg: Settings, s: Model) {
    s.state.Closed? && s.window.CountModel? ==> !Tripped(cfg, s)
  }

  // ---------- the transition table ----------

  /** The rows of the transition table (docs/design.md:5-50). */
  ghost predicate Allowed(e: Event) {
    match e.reason
    case PolicyOpened =>
      e.before.state.Closed? && e.after.state.Open? && e.before.mode.Normal? && e.after.mode.Normal?
    case OpenIntervalElapsed =>
      e.before.state.Open? && e.after.state.HalfOpen? && e.before.mode.Normal? && e.after.mode.Normal?
      && e.before.nextProbeAt <= e.at
    case HalfOpenRecovered =>
      e.before.state.HalfOpen? && e.after.state.Closed? && e.before.mode.Normal? && e.after.mode.Normal?
    case HalfOpenFailed =>
      e.before.state.HalfOpen? && e.after.state.Open? && e.before.mode.Normal? && e.after.mode.Normal?
    case ModeSet(mode) =>
      e.before.state == e.after.state && e.before.mode != e.after.mode == mode && !mode.UnknownMode?
    case WasReset => e.after.state.Closed? && e.after.mode.Normal?
  }

  /** The log is a path from the initial epoch to the given one, one generation per entry. */
  ghost predicate PathTo(log: seq<Transition>, state: State, mode: Mode, generation: nat) {
    if log == [] then state.Closed? && mode.Normal? && generation == 1
    else
      var e := log[|log| - 1].event;
      && e.after.state == state && e.after.mode == mode && e.after.generation == generation
      && e.after.transitions == |log| && e.before.transitions == |log| - 1
      && generation == e.before.generation + 1
      && Allowed(e)
      && PathTo(log[..|log| - 1], e.before.state, e.before.mode, e.before.generation)
  }

  /** A probe generation ends exactly by the verdict of its classified outcomes in completion order. */
  ghost predicate VerdictOk(policy: Recovery, t: Transition) {
    match t.event.reason
    case HalfOpenRecovered => DecidedTrial(policy, t.trial, Recovers)
    case HalfOpenFailed => DecidedTrial(policy, t.trial, Fails)
    case _ => UndecidedTrial(policy, t.trial)
  }

  /** The evidence column of the table: a closed breaker opens only on records that satisfy its rules,
      recovery and reset leave an empty window, and every other transition retains the window. */
  ghost predicate EvidenceOk(cfg: Settings, t: Transition) {
    var before, after := t.event.before.health, t.event.after.health;
    match t.event.reason
    case PolicyOpened =>
      && Opens(cfg.opening, cfg.minimumThroughput, Streak(Records(t.evidence), cfg.opening.resetOnIgnored), before)
      && after == before
    case HalfOpenRecovered => after == EMPTY
    case WasReset => after == EMPTY
    case _ => after == before
  }

  /** The reported health is the recount of the logged window, which is one of the configured kind. */
  ghost predicate HealthOk(cfg: Settings, t: Transition) {
    WindowOk(cfg, t.evidence) && t.event.before.health == Health(t.evidence)
  }

  ghost predicate LogOk(cfg: Settings, s: Model) {
    && PathTo(s.log, s.state, s.mode, s.generation)
    && !s.mode.UnknownMode?
    && (forall t :: t in s.log ==> VerdictOk(cfg.halfOpen, t) && EvidenceOk(cfg, t) && HealthOk(cfg, t))
  }

  /** The part that also holds in the middle of a critical section. */
  ghost predicate Base(cfg: Settings, s: Model)
    requires ValidSettings(cfg)
  {
    PermitsOk(s) && ScheduleOk(cfg, s) && WindowOk(cfg, s.window) && LogOk(cfg, s)
  }

  ghost predicate Inv(cfg: Settings, s: Model)
    requires ValidSettings(cfg)
  {
    Base(cfg, s) && SampleOk(cfg, s) && RestsOk(cfg, s)
  }

  // ---------- probes ----------

  lemma ProbesAfterStatus(s: Model, id: nat, status: Status)
    requires id < |s.permits| && status != Active
    ensures Probes(SetStatus(s, id, status)) == Probes(s) - {id}
  {
  }

  lemma ProbesAfterIssue(cfg: Settings, s: Model, now: int, recording: bool, execution: bool)
    ensures Probes(Issue(cfg, s, now, recording, execution)) ==
            Probes(s) + if recording && s.state.HalfOpen? then {|s.permits|} else {}
  {
  }

  lemma ProbesAfterExpiry(s: Model, now: int)
    ensures Probes(ExpireProbes(s, now)) == Probes(s) - Overdue(s, now)
    ensures forall i :: i in Probes(ExpireProbes(s, now)) ==> now < s.permits[i].deadline
  {
  }

  /** A new generation starts with no probes at all. */
  lemma ProbesAfterCommit(cfg: Settings, s: Model, next: Model, reason: Reason, now: int)
    requires PermitsOk(s) && next.permits == s.permits && next.generation == s.generation
    ensures Probes(Commit(cfg, s, next, reason, now)) == {}
  {
    var after := Commit(cfg, s, next, reason, now);
    forall i | 0 <= i < |after.permits|
      ensures !IsProbe(after, after.permits[i])
    {
      assert PermitOk(s, s.permits[i]);
    }
  }

  lemma ProbesShrink(s: Model, before: set<nat>)
    requires Probes(s) <= before
    ensures |Probes(s)| <= |before|
  {
    Subset(Probes(s), before);
  }

  lemma {:induction false} Subset<T>(a: set<T>, b: set<T>)
    requires a <= b
    ensures |a| <= |b|
    decreases |a|
  {
    if a != {} {
      var x :| x in a;
      Subset(a - {x}, b - {x});
    }
  }

  /** The probes and the soundness of permits depend on the permits and the epoch alone. */
  lemma SameEpoch(s: Model, t: Model)
    requires PermitsOk(s) && t.permits == s.permits
    requires t.state == s.state && t.mode == s.mode && t.generation == s.generation
    ensures PermitsOk(t) && Probes(t) == Probes(s)
  {
    forall i | 0 <= i < |t.permits|
      ensures PermitOk(t, t.permits[i])
    {
      assert PermitOk(s, s.permits[i]);
    }
  }

  // ---------- samples ----------

  /** Reopening immediately means every undecided outcome was a success. */
  lemma {:induction false} ImmediateAllSuccesses(policy: Recovery, trial: seq<Outcome>)
    requires policy.immediate && UndecidedTrial(policy, trial)
    ensures Successes(trial) == |trial|
  {
    if trial != [] {
      ImmediateAllSuccesses(policy, trial[..|trial| - 1]);
    }
  }

  /** An undecided sample never fills the quota: room for one more classified probe always remains. */
  lemma UndecidedIsShort(policy: Recovery, trial: seq<Outcome>)
    requires ValidRecovery(policy) && UndecidedTrial(policy, trial)
    ensures |trial| < policy.maxProbes
  {
    if policy.immediate {
      ImmediateAllSuccesses(policy, trial);
    }
  }

  // ---------- steps ----------

  lemma ObserveKeeps(cfg: Settings, s: Model, now: int)
    requires ValidSettings(cfg) && Base(cfg, s)
    ensures Base(cfg, Observed(s, now)) && Probes(Observed(s, now)) == Probes(s)
    ensures RestsOk(cfg, s) ==> RestsOk(cfg, Observed(s, now))
    ensures SampleOk(cfg, s) ==> SampleOk(cfg, Observed(s, now))
  {
    SameEpoch(s, Observed(s, now));
  }

  lemma FreshWindowOk(cfg: Settings)
    requires ValidSettings(cfg)
    ensures WindowOk(cfg, FreshWindow(cfg.window))
    ensures Health(FreshWindow(cfg.window)) == EMPTY
    ensures forall now :: Health(ObserveWindow(FreshWindow(cfg.window), now)) == EMPTY
    ensures !Opens(cfg.opening, cfg.minimumThroughput, 0, EMPTY)
  {
  }

  /** What a rewrite may change for its commit to restore the whole invariant. */
  ghost predicate Committable(cfg: Settings, s: Model, next: Model, reason: Reason, now: int)
    requires ValidSettings(cfg)
  {
    && next.permits == s.permits && next.generation == s.generation && next.log == s.log
    && WindowOk(cfg, next.window)
    && !next.mode.UnknownMode?
    && (next.openings == 0 <==> next.state.Closed?)
    && (if next.state.Closed? then next.openDuration == 0 && next.nextProbeAt == ZERO_TIME
        else if next.state != s.state && next.state.Open? then
          next.openings > 0 && Interval(cfg, next.openings, next.openDuration) && next.nextProbeAt == now + next.openDuration
        else !s.state.Closed? && next.openDuration == s.openDuration && next.nextProbeAt == s.nextProbeAt)
    && next.openings == (if next.state.Closed? then 0
                         else if next.state != s.state && next.state.Open? then s.openings + 1 else s.openings)
    && (next.state.Closed? && next.window.CountModel? ==> !Tripped(cfg, next))
  }

  lemma CommitKeeps(cfg: Settings, s: Model, next: Model, reason: Reason, now: int)
    requires ValidSettings(cfg) && Base(cfg, s) && Committable(cfg, s, next, reason, now)
    requires var c := Commit(cfg, s, next, reason, now);
             Allowed(c.log[|s.log|].event) && VerdictOk(cfg.halfOpen, c.log[|s.log|]) && EvidenceOk(cfg, c.log[|s.log|])
    ensures Inv(cfg, Commit(cfg, s, next, reason, now))
  {
    hide Health, Opens, Interval, Streak, Records, EvidenceOk, VerdictOk, Allowed, Probes, IsProbe, Successes, Judge, Evidence;
    EvidenceReads(cfg, s);
    var c := Commit(cfg, s, next, reason, now);
    ProbesAfterCommit(cfg, s, next, reason, now);
    assert forall i :: 0 <= i < |s.permits| ==> PermitOk(s, s.permits[i]);
    assert c.log[..|c.log| - 1] == s.log;
    PathLength(s.log, s.state, s.mode, s.generation);
    assert c.window == next.window || c.window == ObserveWindow(next.window, now);
  }

  lemma {:induction false} PathLength(log: seq<Transition>, state: State, mode: Mode, generation: nat)
    requires PathTo(log, state, mode, generation)
    ensures generation == |log| + 1
  {
    if log != [] {
      var e := log[|log| - 1].event;
      PathLength(log[..|log| - 1], e.before.state, e.before.mode, e.before.generation);
    }
  }

  /** What a commit writes down. */
  lemma CommitEntry(cfg: Settings, s: Model, next: Model, reason: Reason, now: int)
    ensures var c := Commit(cfg, s, next, reason, now);
            && |c.log| == |s.log| + 1
            && var t := c.log[|s.log|];
               && t.event.reason == reason && t.event.at == now && t.trial == s.trial && t.evidence == Evidence(s.window)
               && Records(t.evidence) == Records(s.window)
               && t.event.before.state == s.state && t.event.before.mode == s.mode && t.event.before.nextProbeAt == s.nextProbeAt
               && t.event.after.state == next.state && t.event.after.mode == next.mode
               && t.event.before.health == Health(s.window)
               && t.event.after.health == Health(ObserveWindow(next.window, now))
  {
    hide Health, Probes;
  }

  /** The evidence reads like the window. */
  lemma EvidenceReads(cfg: Settings, s: Model)
    requires WindowOk(cfg, s.window)
    ensures WindowOk(cfg, Evidence(s.window)) && Health(Evidence(s.window)) == Health(s.window)
  {
  }

  lemma OpenKeeps(cfg: Settings, s: Model, reason: Reason, now: int, sample: real)
    requires ValidSettings(cfg) && 0.0 <= sample < 1.0 && Base(cfg, s) && s.mode.Normal?
    requires || (reason == PolicyOpened && s.state.Closed? && UndecidedTrial(cfg.halfOpen, s.trial)
                 && Observed(s, now) == s && Tripped(cfg, s))
             || (reason == HalfOpenFailed && s.state.HalfOpen? && DecidedTrial(cfg.halfOpen, s.trial, Fails))
    ensures Inv(cfg, OpenFrom(cfg, s, reason, now, sample))
  {
    hide OpenInterval, Health, Selected, UndecidedTrial, DecidedTrial, PathTo, Commit, Base, Inv, Opens, Streak, Records, WindowOk;
    ObserveKeeps(cfg, s, now);
    var o := Observed(s, now);
    var duration := OpenInterval(cfg, o.openings + 1, sample);
    var next := o.(state := State.Open, openings := o.openings + 1, openDuration := duration,
                   nextProbeAt := now + duration);
    WindowParts(cfg, o);
    assert Interval(cfg, next.openings, duration);
    CommitEntry(cfg, o, next, reason, now);
    CommitKeeps(cfg, o, next, reason, now);
  }

  lemma WindowParts(cfg: Settings, s: Model)
    requires ValidSettings(cfg) && Base(cfg, s)
    ensures WindowOk(cfg, s.window) && !s.mode.UnknownMode?
  {
  }

  lemma HalfOpenKeeps(cfg: Settings, s: Model, now: int)
    requires ValidSettings(cfg) && Inv(cfg, s) && s.mode.Normal? && s.state.Open? && s.nextProbeAt <= now
    ensures Inv(cfg, HalfOpenFrom(cfg, s, now))
  {
    ObserveKeeps(cfg, s, now);
    var o := Observed(s, now);
    CommitKeeps(cfg, o, o.(state := HalfOpen), OpenIntervalElapsed, now);
  }

  lemma RecoverKeeps(cfg: Settings, s: Model, now: int)
    requires ValidSettings(cfg) && Base(cfg, s) && s.mode.Normal? && s.state.HalfOpen?
    requires DecidedTrial(cfg.halfOpen, s.trial, Recovers)
    ensures Inv(cfg, RecoverFrom(cfg, s, now))
  {
    ObserveKeeps(cfg, s, now);
    FreshWindowOk(cfg);
    CommitKeeps(cfg, Observed(s, now), Cleared(cfg, Observed(s, now)), HalfOpenRecovered, now);
  }

  lemma ResetKeeps(cfg: Settings, s: Model, now: int)
    requires ValidSettings(cfg) && Inv(cfg, s)
    ensures Inv(cfg, ResetFrom(cfg, s, now))
  {
    ObserveKeeps(cfg, s, now);
    FreshWindowOk(cfg);
    CommitKeeps(cfg, Observed(s, now), Cleared(cfg, Observed(s, now)).(mode := Normal), WasReset, now);
  }

  lemma ModeKeeps(cfg: Settings, s: Model, mode: Mode, now: int)
    requires ValidSettings(cfg) && Inv(cfg, s) && mode != s.mode && !mode.UnknownMode?
    ensures Inv(cfg, ModeFrom(cfg, s, mode, now))
  {
    hide Commit, Health, UndecidedTrial, DecidedTrial, PathTo, Opens, Streak, Records, OpenInterval, Interval;
    ObserveKeeps(cfg, s, now);
    CommitEntry(cfg, Observed(s, now), Observed(s, now).(mode := mode), ModeSet(mode), now);
    CommitKeeps(cfg, Observed(s, now), Observed(s, now).(mode := mode), ModeSet(mode), now);
  }

  lemma StatusKeeps(cfg: Settings, s: Model, id: nat, status: Status)
    requires ValidSettings(cfg) && Inv(cfg, s) && id < |s.permits| && status != Active
    ensures Inv(cfg, SetStatus(s, id, status)) && Inv(cfg, Release(s, id, status))
  {
    ProbesAfterStatus(s, id, status);
    var e := SetStatus(s, id, status);
    ProbesShrink(e, Probes(s));
    assert forall i :: 0 <= i < |s.permits| ==> PermitOk(s, s.permits[i]);
    assert forall i :: 0 <= i < |e.permits| ==> PermitOk(e, e.permits[i]);
    SameEpoch(e, Release(s, id, status));
  }

  lemma ExpireKeeps(cfg: Settings, s: Model, now: int)
    requires ValidSettings(cfg) && Inv(cfg, s)
    ensures Inv(cfg, ExpireProbes(s, now))
  {
    ProbesAfterExpiry(s, now);
    var e := ExpireProbes(s, now);
    ProbesShrink(e, Probes(s));
    assert forall i :: 0 <= i < |s.permits| ==> PermitOk(s, s.permits[i]);
    assert forall i :: 0 <= i < |e.permits| ==> PermitOk(e, e.permits[i]);
  }

  lemma IssueKeeps(cfg: Settings, s: Model, now: int, recording: bool, execution: bool)
    requires ValidSettings(cfg) && Inv(cfg, s)
    requires recording <==> s.mode.Normal?
    requires recording ==> !s.state.Open? && (s.state.HalfOpen? ==> InUse(s) < cfg.halfOpen.maxProbes)
    ensures Inv(cfg, Issue(cfg, s, now, recording, execution))
  {
    ProbesAfterIssue(cfg, s, now, recording, execution);
    var e := Issue(cfg, s, now, recording, execution);
    assert |s.permits| !in Probes(s);
    assert forall i :: 0 <= i < |s.permits| ==> PermitOk(s, s.permits[i]);
    assert forall i :: 0 <= i < |e.permits| ==> PermitOk(e, e.permits[i]);
  }

  lemma SettledKeeps(cfg: Settings, s: Model, now: int)
    requires ValidSettings(cfg) && Inv(cfg, s) && s.mode.Normal? && (s.state.Open? ==> s.nextProbeAt <= now)
    ensures Inv(cfg, Settled(cfg, s, now))
    ensures Settled(cfg, s, now).mode.Normal? && !Settled(cfg, s, now).state.Open?
  {
    if s.state.Open? {
      HalfOpenKeeps(cfg, s, now);
      ExpireKeeps(cfg, HalfOpenFrom(cfg, s, now), now);
    } else if s.state.HalfOpen? {
      ExpireKeeps(cfg, s, now);
    }
  }

  lemma RejectKeeps(cfg: Settings, s: Model, cause: Cause)
    requires ValidSettings(cfg) && Inv(cfg, s)
    ensures Inv(cfg, Reject(s, cause).0)
  {
    SameEpoch(s, Reject(s, cause).0);
  }

  lemma TryAcquireKeeps(cfg: Settings, s: Model, now: int, execution: bool)
    requires ValidSettings(cfg) && Inv(cfg, s)
    ensures Inv(cfg, TryAcquire(cfg, s, now, execution).0)
  {
    if s.mode.ForceOpen? {
      RejectKeeps(cfg, s, ErrForceOpen);
    } else if s.mode.Isolated? {
      RejectKeeps(cfg, s, ErrIsolated);
    } else if s.mode.Disabled? {
      IssueKeeps(cfg, s, now, false, execution);
    } else if s.state.Open? && now < s.nextProbeAt {
      RejectKeeps(cfg, s, ErrOpen);
    } else {
      SettledKeeps(cfg, s, now);
      var ready := Settled(cfg, s, now);
      if ready.state.HalfOpen? && InUse(ready) >= cfg.halfOpen.maxProbes {
        RejectKeeps(cfg, ready, ErrHalfOpenExhausted);
      } else {
        IssueKeeps(cfg, ready, now, true, execution);
      }
    }
  }

  /** The slot of a completed probe leaves room for its outcome. */
  lemma FreedSlot(cfg: Settings, s: Model, id: nat, outcome: Outcome)
    requires ValidSettings(cfg) && Inv(cfg, s) && id in Probes(s)
    ensures var counted := SetStatus(s, id, Completed(outcome));
            var signaled := counted.(revision := counted.revision + 1);
            && Inv(cfg, signaled) && signaled.state.HalfOpen? && signaled.mode.Normal?
            && InUse(signaled) < cfg.halfOpen.maxProbes
  {
    hide Base, RestsOk, UndecidedTrial;
    var counted := SetStatus(s, id, Completed(outcome));
    StatusKeeps(cfg, s, id, Completed(outcome));
    ProbesAfterStatus(s, id, Completed(outcome));
    SameButSignal(cfg, counted, counted.(revision := counted.revision + 1));
    ProbeMode(cfg, s, id);
  }

  lemma ProbeMode(cfg: Settings, s: Model, id: nat)
    requires ValidSettings(cfg) && Base(cfg, s) && id in Probes(s)
    ensures s.state.HalfOpen? && s.mode.Normal?
  {
    assert PermitOk(s, s.permits[id]);
  }

  /** Completing a probe: one active slot becomes at most one classified outcome. */
  lemma CompleteProbeKeeps(cfg: Settings, s: Model, id: nat, outcome: Outcome, now: int, sample: real)
    requires ValidSettings(cfg) && 0.0 <= sample < 1.0 && Inv(cfg, s)
    requires id in Probes(s) && !outcome.Unknown?
    ensures Inv(cfg, CompleteProbe(cfg, SetStatus(s, id, Completed(outcome)), outcome, now, sample))
  {
    hide Inv, OpenFrom, RecoverFrom, Judge, InUse;
    FreedSlot(cfg, s, id, outcome);
    var counted := SetStatus(s, id, Completed(outcome));
    var signaled := counted.(revision := counted.revision + 1);
    if !outcome.Ignored? {
      JudgedKeeps(cfg, signaled, outcome, now, sample);
    }
  }

  /** A sample with room for one more outcome stays undecided or ends its generation. */
  lemma JudgedKeeps(cfg: Settings, s: Model, outcome: Outcome, now: int, sample: real)
    requires ValidSettings(cfg) && 0.0 <= sample < 1.0 && Inv(cfg, s)
    requires s.state.HalfOpen? && s.mode.Normal? && ClassifiedOutcome(outcome) && InUse(s) < cfg.halfOpen.maxProbes
    ensures var judged := s.(trial := s.trial + [outcome]);
            match Judge(cfg.halfOpen, judged.trial)
            case Undecided => Inv(cfg, judged)
            case Recovers => Inv(cfg, RecoverFrom(cfg, judged, now))
            case Fails => Inv(cfg, OpenFrom(cfg, judged, HalfOpenFailed, now, sample))
  {
    hide OpenInterval, Health;
    var judged := s.(trial := s.trial + [outcome]);
    assert judged.trial[..|judged.trial| - 1] == s.trial;
    SameEpoch(s, judged);
    match Judge(cfg.halfOpen, judged.trial)
    case Undecided =>
    case Recovers => RecoverKeeps(cfg, judged, now);
    case Fails => OpenKeeps(cfg, judged, HalfOpenFailed, now, sample);
  }

  lemma SameButSignal(cfg: Settings, s: Model, signaled: Model)
    requires ValidSettings(cfg) && Inv(cfg, s) && signaled == s.(revision := s.revision + 1)
    ensures Inv(cfg, signaled) && Probes(signaled) == Probes(s)
  {
    SameEpoch(s, signaled);
  }

  lemma AppendKeeps(cfg: Settings, w: WindowModel, now: int, record: Record)
    requires ValidSettings(cfg) && WindowOk(cfg, w) && ValidRecord(record)
    ensures WindowOk(cfg, AppendWindow(w, now, record))
  {
  }

  lemma RecordHealthKeeps(cfg: Settings, s: Model, outcome: Outcome, slow: bool, now: int, sample: real)
    requires ValidSettings(cfg) && 0.0 <= sample < 1.0 && Inv(cfg, s)
    requires s.state.Closed? && s.mode.Normal? && !outcome.Unknown?
    ensures Inv(cfg, RecordHealth(cfg, s, outcome, slow, now, sample))
  {
    var record := Record(outcome, slow && !outcome.Ignored?);
    AppendKeeps(cfg, s.window, now, record);
    var recorded := s.(window := AppendWindow(s.window, now, record));
    SameEpoch(s, recorded);
    if Tripped(cfg, recorded) {
      OpenKeeps(cfg, recorded, PolicyOpened, now, sample);
    }
  }

  lemma CompleteKeeps(cfg: Settings, s: Model, id: nat, outcome: Outcome, slow: bool, now: int, sample: real)
    requires ValidSettings(cfg) && 0.0 <= sample < 1.0 && Inv(cfg, s)
    ensures Inv(cfg, Complete(cfg, s, id, outcome, slow, now, sample).0)
  {
    if !outcome.Unknown? && id < |s.permits| {
      var p := s.permits[id];
      StatusKeeps(cfg, s, id, Completed(outcome));
      StatusKeeps(cfg, s, id, Expired);
      assert PermitOk(s, p);
      if p.status.Active? && (p.execution || now < p.deadline) && Live(s, p) {
        if s.state.HalfOpen? {
          CompleteProbeKeeps(cfg, s, id, outcome, now, sample);
        } else {
          RecordHealthKeeps(cfg, SetStatus(s, id, Completed(outcome)), outcome, slow, now, sample);
        }
      }
    }
  }

  lemma CancelKeeps(cfg: Settings, s: Model, id: nat, now: int)
    requires ValidSettings(cfg) && Inv(cfg, s)
    ensures Inv(cfg, Cancel(s, id, now).0)
  {
    if id < |s.permits| {
      StatusKeeps(cfg, s, id, Expired);
      StatusKeeps(cfg, s, id, Canceled);
    }
  }

  /** Every critical section keeps the invariant, at any observed time. */
  lemma StepKeeps(cfg: Settings, s: Model, a: Action)
    requires ValidSettings(cfg) && Inv(cfg, s)
    ensures Inv(cfg, Step(cfg, s, a).0)
  {
    hide Inv, TryAcquire, Complete, Cancel, Reject, ModeFrom, ResetFrom, ExpireProbes, Observed, Look;
    match a
    case DoTryAcquire(now, execution) => TryAcquireKeeps(cfg, s, now, execution);
    case DoRejectWaiter => RejectKeeps(cfg, s, ErrHalfOpenWaitTimeout);
    case DoComplete(id, outcome, slow, now, sample) => CompleteKeeps(cfg, s, id, outcome, slow, now, sample);
    case DoCancel(id, now) => CancelKeeps(cfg, s, id, now);
    case DoSetMode(mode, now) =>
      if mode != s.mode && !mode.UnknownMode? {
        ModeKeeps(cfg, s, mode, now);
      }
    case DoReset(now) => ResetKeeps(cfg, s, now);
    case DoSnapshot(now) =>
      ExpireKeeps(cfg, s, now);
      ReadKeeps(cfg, if s.state.HalfOpen? then ExpireProbes(s, now) else s, now);
  }

  lemma ReadKeeps(cfg: Settings, s: Model, now: int)
    requires ValidSettings(cfg) && Inv(cfg, s)
    ensures Inv(cfg, Observed(s, now))
  {
    ObserveKeeps(cfg, s, now);
  }

  lemma {:induction false} RunKeeps(cfg: Settings, s: Model, actions: seq<Action>)
    requires ValidSettings(cfg) && Inv(cfg, s)
    ensures Inv(cfg, Run(cfg, s, actions))
    decreases |actions|
  {
    if actions != [] {
      StepKeeps(cfg, s, actions[0]);
      RunKeeps(cfg, Step(cfg, s, actions[0]).0, actions[1..]);
    }
  }

  lemma InitialOk(cfg: Settings)
    requires ValidSettings(cfg)
    ensures Inv(cfg, Initial(cfg))
  {
    FreshWindowOk(cfg);
    assert Probes(Initial(cfg)) == {};
  }

  /** Every reachable state satisfies the invariant. */
  lemma Reachable(cfg: Settings, actions: seq<Action>)
    requires ValidSettings(cfg)
    ensures Inv(cfg, Run(cfg, Initial(cfg), actions))
  {
    InitialOk(cfg);
    RunKeeps(cfg, Initial(cfg), actions);
  }
}
