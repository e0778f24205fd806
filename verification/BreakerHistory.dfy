/** What the breaker remembers, as a history of the run that led to it, and how long a mode holds. */
module BreakerHistory {
  import opened Window
  import opened Config
  import opened Policy
  import opened BreakerModel
  import opened BreakerInvariants
  import opened ProbeVerdict
  import opened BreakerLifetime
  import opened BreakerSafety
  import opened BreakerSteps

  // ---------- records and samples ----------

  /** A completion that counts: of a permit in force, with a valid outcome. */
  predicate CountsNow(s: Model, a: Action) {
    a.DoComplete? && !a.outcome.Unknown? && InForce(s, a.id, a.now)
  }

  /** A recovery or a reset has just happened. */
  predicate Emptied(s: Model, t: Model) {
    |t.log| > |s.log| && (t.log[|t.log| - 1].event.reason.HalfOpenRecovered? || t.log[|t.log| - 1].event.reason.WasReset?)
  }

  function NextRecords(s: Model, a: Action, t: Model, held: seq<Record>): seq<Record> {
    if Emptied(s, t) then []
    else if s.state.Closed? && CountsNow(s, a) then held + [Record(a.outcome, a.slow && a.outcome != Ignored)]
    else held
  }

  function NextTrial(s: Model, a: Action, t: Model, held: seq<Outcome>): seq<Outcome> {
    if t.generation != s.generation then []
    else if s.state.HalfOpen? && CountsNow(s, a) && a.outcome != Ignored then held + [a.outcome]
    else held
  }

  /** Every outcome counted while closed since the last recovery or reset of a run, in order. */
  ghost function RecordsOver(cfg: Settings, s: Model, actions: seq<Action>, held: seq<Record>): seq<Record>
    requires ValidSettings(cfg)
    decreases |actions|
  {
    if actions == [] then held
    else
      var t := Step(cfg, s, actions[0]).0;
      RecordsOver(cfg, t, actions[1..], NextRecords(s, actions[0], t, held))
  }

  /** Every classified outcome counted while half-open since the generation of a run began, in order. */
  ghost function TrialOver(cfg: Settings, s: Model, actions: seq<Action>, held: seq<Outcome>): seq<Outcome>
    requires ValidSettings(cfg)
    decreases |actions|
  {
    if actions == [] then held
    else
      var t := Step(cfg, s, actions[0]).0;
      TrialOver(cfg, t, actions[1..], NextTrial(s, actions[0], t, held))
  }

  lemma RecordsSame(s: Model, t: Model, now: int)
    requires WindowRead(s, t, now)
    ensures Records(t.window) == Records(s.window)
  {
  }

  lemma EmptyRecords(cfg: Settings, w: WindowModel)
    requires EmptyWindow(cfg, w)
    ensures Records(w) == []
  {
  }

  /** What one step makes of the records and of the sample. */
  ghost predicate Remembers(s: Model, a: Action, t: Model) {
    Records(t.window) == NextRecords(s, a, t, Records(s.window)) && t.trial == NextTrial(s, a, t, s.trial)
  }

  /** A step without a transition that leaves records and sample alone. */
  lemma Unmoved(s: Model, a: Action, t: Model)
    requires t.log == s.log && t.generation == s.generation && t.trial == s.trial && Records(t.window) == Records(s.window)
    requires !CountsNow(s, a) || s.state.Open? || (s.state.HalfOpen? && a.outcome == Ignored)
    ensures Remembers(s, a, t)
  {
    hide Records;
  }

  lemma MovedKeeping(s: Model, a: Action, t: Model, trial: seq<Outcome>, active: int, reason: Reason, now: int)
    requires MovedOn(s, t, trial, active, reason, now) && !reason.HalfOpenRecovered? && !reason.WasReset?
    requires Records(t.window) == Records(s.window) && (s.state.Closed? ==> !CountsNow(s, a))
    ensures Remembers(s, a, t)
  {
    hide Records, Look, Probes;
  }

  lemma MovedEmptying(cfg: Settings, s: Model, a: Action, t: Model, trial: seq<Outcome>, active: int, reason: Reason, now: int)
    requires MovedOn(s, t, trial, active, reason, now) && (reason.HalfOpenRecovered? || reason.WasReset?)
    requires EmptyWindow(cfg, t.window)
    ensures Remembers(s, a, t)
  {
    EmptyRecords(cfg, t.window);
    hide Records, Look, Probes;
  }

  lemma {:induction false} CompletionRemembers(cfg: Settings, s: Model, a: Action)
    requires ValidSettings(cfg) && Inv(cfg, s) && a.DoComplete?
    ensures Remembers(s, a, Step(cfg, s, a).0)
  {
    hide Inv, Step, MovedOn, InForce, Records, Decision, Opened, Opens, Health, Remembers, WindowRead, EmptyWindow, Recorded;
    var t := Step(cfg, s, a).0;
    if !CountsNow(s, a) {
      OtherCompletion(cfg, s, a.id, a.outcome, a.slow, a.now, a.sample);
      Unmoved(s, a, t);
    } else if s.state.Closed? {
      ClosedCompletion(cfg, s, a.id, a.outcome, a.slow, a.now, a.sample);
      ClosedRemembers(cfg, s, a, t);
    } else {
      InForceHalfOpen(cfg, s, a.id, a.now);
      ProbeCompletion(cfg, s, a.id, a.outcome, a.slow, a.now, a.sample);
      ProbeRemembers(cfg, s, a, t);
    }
  }

  lemma ClosedRemembers(cfg: Settings, s: Model, a: Action, t: Model)
    requires ValidSettings(cfg) && s.state.Closed? && CountsNow(s, a)
    requires Records(t.window) == Records(s.window) + [Record(a.outcome, a.slow && a.outcome != Ignored)]
    requires t == s.(window := t.window, permits := t.permits) || MovedOn(s, t, [], 0, PolicyOpened, a.now)
    ensures Remembers(s, a, t)
  {
    hide Records, Look, Probes;
  }

  lemma ProbeRemembers(cfg: Settings, s: Model, a: Action, t: Model)
    requires ValidSettings(cfg) && s.state.HalfOpen? && CountsNow(s, a)
    requires var trial := s.trial + [a.outcome];
             if a.outcome.Ignored? then t == s.(permits := t.permits, revision := s.revision + 1)
             else match Decision(cfg.halfOpen, trial)
                  case Undecided => t == s.(permits := t.permits, revision := s.revision + 1, trial := trial)
                  case Recovers => MovedOn(s, t, trial, |Probes(s)| - 1, HalfOpenRecovered, a.now) && EmptyWindow(cfg, t.window)
                  case Fails => MovedOn(s, t, trial, |Probes(s)| - 1, HalfOpenFailed, a.now) && WindowRead(s, t, a.now)
    ensures Remembers(s, a, t)
  {
    hide Records, Decision, MovedOn, Probes, EmptyWindow, WindowRead;
    var trial := s.trial + [a.outcome];
    if a.outcome.Ignored? {
      Unmoved(s, a, t);
    } else {
      match Decision(cfg.halfOpen, trial)
      case Undecided =>
      case Recovers => MovedEmptying(cfg, s, a, t, trial, |Probes(s)| - 1, HalfOpenRecovered, a.now);
      case Fails =>
        RecordsSame(s, t, a.now);
        MovedKeeping(s, a, t, trial, |Probes(s)| - 1, HalfOpenFailed, a.now);
    }
  }

  lemma InForceHalfOpen(cfg: Settings, s: Model, id: nat, now: int)
    requires ValidSettings(cfg) && Inv(cfg, s) && InForce(s, id, now) && !s.state.Closed?
    ensures s.state.HalfOpen?
  {
    assert PermitOk(s, s.permits[id]);
  }

  lemma {:induction false} StepRemembers(cfg: Settings, s: Model, a: Action)
    requires ValidSettings(cfg) && Inv(cfg, s)
    ensures Remembers(s, a, Step(cfg, s, a).0)
  {
    hide Inv, Step, MovedOn, Records, Remembers, WindowRead, EmptyWindow, Probes, Overdue, Look;
    var t := Step(cfg, s, a).0;
    match a
    case DoTryAcquire(now, execution) =>
      AdmissionEffect(cfg, s, now, execution);
      if s.mode.Normal? && s.state.Open? && s.nextProbeAt <= now {
        RecordsSame(s, t, a.now);
        MovedKeeping(s, a, t.(permits := s.permits), [], 0, OpenIntervalElapsed, now);
        RemembersFrame(s, a, t, s.permits);
      } else {
        Unmoved(s, a, t);
      }
    case DoRejectWaiter =>
      WaiterRejected(cfg, s);
      Unmoved(s, a, t);
    case DoComplete(_, _, _, _, _) => CompletionRemembers(cfg, s, a);
    case DoCancel(id, now) =>
      Cancellation(cfg, s, id, now);
      Unmoved(s, a, t);
    case DoSetMode(mode, now) =>
      ModeChange(cfg, s, mode, now);
      if t == s {
        Unmoved(s, a, t);
      } else {
        RecordsSame(s, t, a.now);
        MovedKeeping(s, a, t, s.trial, |Probes(s)|, ModeSet(mode), now);
      }
    case DoReset(now) =>
      ResetEffect(cfg, s, now);
      MovedEmptying(cfg, s, a, t, s.trial, |Probes(s)|, WasReset, now);
    case DoSnapshot(now) =>
      SnapshotReports(cfg, s, now);
      RecordsSame(s, t, a.now);
      Unmoved(s, a, t);
  }

  lemma RemembersFrame(s: Model, a: Action, t: Model, permits: seq<PermitRecord>)
    requires Remembers(s, a, t.(permits := permits))
    ensures Remembers(s, a, t)
  {
    hide Records;
  }

  /** The evidence of a closed breaker is its history: over any run, the records in the window are exactly the
      outcomes counted while closed since the last recovery or reset, in order, with their slow marks, and the
      probe sample is exactly the classified outcomes counted while half-open since its generation began. */
  lemma {:induction false} EvidenceIsHistory(cfg: Settings, s: Model, actions: seq<Action>)
    requires ValidSettings(cfg) && Inv(cfg, s)
    ensures var t := Run(cfg, s, actions);
            && Records(t.window) == RecordsOver(cfg, s, actions, Records(s.window))
            && t.trial == TrialOver(cfg, s, actions, s.trial)
    decreases |actions|
  {
    hide Inv, Step, NextRecords, NextTrial, Records;
    if actions != [] {
      StepRemembers(cfg, s, actions[0]);
      StepKeeps(cfg, s, actions[0]);
      EvidenceIsHistory(cfg, Step(cfg, s, actions[0]).0, actions[1..]);
    }
  }

  // ---------- refusals ----------

  function RefusalsOf(reply: Reply): nat {
    if reply.Rejected? then 1 else 0
  }

  /** How many refusals a run's callers saw. */
  ghost function Refusals(cfg: Settings, s: Model, actions: seq<Action>): nat
    requires ValidSettings(cfg)
    decreases |actions|
  {
    if actions == [] then 0
    else RefusalsOf(Step(cfg, s, actions[0]).1) + Refusals(cfg, Step(cfg, s, actions[0]).0, actions[1..])
  }

  lemma {:induction false} StepRefuses(cfg: Settings, s: Model, a: Action)
    requires ValidSettings(cfg) && Inv(cfg, s)
    ensures Step(cfg, s, a).0.rejected == s.rejected + RefusalsOf(Step(cfg, s, a).1)
  {
    hide Inv, Step, MovedOn, InForce, WindowRead, EmptyWindow, Probes, Overdue, Look, Records, Decision, Opens, Opened, Recorded, Health, Terminal;
    match a
    case DoTryAcquire(now, execution) => AdmissionEffect(cfg, s, now, execution);
    case DoRejectWaiter => WaiterRejected(cfg, s);
    case DoComplete(id, outcome, slow, now, sample) =>
      if !CountsNow(s, a) {
        OtherCompletion(cfg, s, id, outcome, slow, now, sample);
      } else if s.state.Closed? {
        ClosedCompletion(cfg, s, id, outcome, slow, now, sample);
      } else {
        InForceHalfOpen(cfg, s, id, now);
        ProbeCompletion(cfg, s, id, outcome, slow, now, sample);
      }
    case DoCancel(id, now) => Cancellation(cfg, s, id, now);
    case DoSetMode(mode, now) => ModeChange(cfg, s, mode, now);
    case DoReset(now) => ResetEffect(cfg, s, now);
    case DoSnapshot(now) => SnapshotReports(cfg, s, now);
  }

  /** The rejection total counts exactly the refusals callers saw, admissions and waits alike. */
  lemma {:induction false} RefusalsAreCounted(cfg: Settings, s: Model, actions: seq<Action>)
    requires ValidSettings(cfg) && Inv(cfg, s)
    ensures Run(cfg, s, actions).rejected == s.rejected + Refusals(cfg, s, actions)
    decreases |actions|
  {
    hide Inv, Step;
    if actions != [] {
      StepRefuses(cfg, s, actions[0]);
      StepKeeps(cfg, s, actions[0]);
      RefusalsAreCounted(cfg, Step(cfg, s, actions[0]).0, actions[1..]);
    }
  }

  // ---------- administrative modes ----------

  /** Neither a reset nor a change to another mode. */
  predicate KeepsMode(mode: Mode, a: Action) {
    !a.DoReset? && (a.DoSetMode? ==> a.mode == mode || a.mode.UnknownMode?)
  }

  lemma {:induction false} StepMode(cfg: Settings, s: Model, a: Action)
    requires ValidSettings(cfg) && Inv(cfg, s) && KeepsMode(s.mode, a)
    ensures Step(cfg, s, a).0.mode == s.mode
  {
    hide Inv, Step, MovedOn, InForce, WindowRead, EmptyWindow, Probes, Overdue, Look, Records, Decision, Opens, Recorded, Health, Terminal;
    match a
    case DoTryAcquire(now, execution) => AdmissionEffect(cfg, s, now, execution);
    case DoRejectWaiter => WaiterRejected(cfg, s);
    case DoComplete(id, outcome, slow, now, sample) =>
      if !CountsNow(s, a) {
        OtherCompletion(cfg, s, id, outcome, slow, now, sample);
      } else if s.state.Closed? {
        ClosedCompletion(cfg, s, id, outcome, slow, now, sample);
      } else {
        InForceHalfOpen(cfg, s, id, now);
        ProbeCompletion(cfg, s, id, outcome, slow, now, sample);
      }
    case DoCancel(id, now) => Cancellation(cfg, s, id, now);
    case DoSetMode(mode, now) => ModeChange(cfg, s, mode, now);
    case DoSnapshot(now) => SnapshotReports(cfg, s, now);
  }

  /** A mode holds until the next mode change or reset. */
  lemma {:induction false} ModeHolds(cfg: Settings, s: Model, actions: seq<Action>)
    requires ValidSettings(cfg) && Inv(cfg, s) && forall a :: a in actions ==> KeepsMode(s.mode, a)
    ensures Run(cfg, s, actions).mode == s.mode && Inv(cfg, Run(cfg, s, actions))
    decreases |actions|
  {
    hide Inv, Step;
    if actions != [] {
      StepMode(cfg, s, actions[0]);
      StepKeeps(cfg, s, actions[0]);
      ModeHolds(cfg, Step(cfg, s, actions[0]).0, actions[1..]);
    }
  }

  /** After ForceOpen or Isolated every acquire is refused with its cause, whatever happens in between, until
      the next mode change or reset; after Disabled every one is admitted. */
  lemma {:induction false} OverrideHolds(cfg: Settings, s: Model, mode: Mode, at: int, actions: seq<Action>, now: int, execution: bool)
    requires ValidSettings(cfg) && Inv(cfg, s) && !mode.UnknownMode? && forall a :: a in actions ==> KeepsMode(mode, a)
    ensures var t := Run(cfg, Step(cfg, s, DoSetMode(mode, at)).0, actions);
            var reply := Step(cfg, t, DoTryAcquire(now, execution)).1;
            && t.mode == mode
            && (mode.ForceOpen? ==> reply == Rejected(Rejection(t.state, ForceOpen, t.generation, t.nextProbeAt, ErrForceOpen)))
            && (mode.Isolated? ==> reply == Rejected(Rejection(t.state, Isolated, t.generation, t.nextProbeAt, ErrIsolated)))
            && (mode.Disabled? ==> reply.Admitted?)
  {
    hide Inv, Step, MovedOn, WindowRead, Look, Probes, Run, TryAcquire;
    ModeChange(cfg, s, mode, at);
    StepKeeps(cfg, s, DoSetMode(mode, at));
    ModeHolds(cfg, Step(cfg, s, DoSetMode(mode, at)).0, actions);
    var t := Run(cfg, Step(cfg, s, DoSetMode(mode, at)).0, actions);
    AdmissionExact(cfg, t, now, execution);
    TryIsStep(cfg, t, now, execution);
  }

  lemma TryIsStep(cfg: Settings, s: Model, now: int, execution: bool)
    requires ValidSettings(cfg)
    ensures Step(cfg, s, DoTryAcquire(now, execution)) == TryAcquire(cfg, s, now, execution)
  {
    hide TryAcquire, ValidSettings;
  }
}
