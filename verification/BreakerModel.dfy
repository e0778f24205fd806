/** The reference state machine of the breaker: what one critical section does, stated on values.

    It is deliberately simpler than breaker.go. The probe set is derived from the permits, the probe
    sample is the list of its classified outcomes, the window is the list of everything recorded since
    the last recovery or reset, the streak and every lifetime total are read off those lists, and the
    transition count is the length of a log. CircuitBreaker.dfy proves that the fields of the source, updated
    in place, agree with this machine step by step; the whole-run theorems are proved here. */
module BreakerModel {
  import opened Window
  import opened Config
  import opened Policy
  import opened OpenSchedule
  import CountRing = CountWindow
  import TimeRing = TimeWindow

  datatype State = Closed | Open | HalfOpen

  datatype Mode = Normal | ForceOpen | Disabled | Isolated | UnknownMode(code: nat)

  datatype Reason = PolicyOpened | OpenIntervalElapsed | HalfOpenRecovered | HalfOpenFailed
                  | ModeSet(mode: Mode) | WasReset

  datatype Status = Active | Completed(outcome: Outcome) | Canceled | Expired

  datatype PermitRecord = PermitRecord(generation: nat, state: State, deadline: int, recording: bool,
                                       execution: bool, status: Status)

  /** The source's zero time, in nanoseconds since the epoch. */
  const ZERO_TIME: int := -62_135_596_800_000_000_000

  // ---------- the health window, as a list ----------

  datatype WindowModel = CountModel(size: nat, records: seq<Record>)
                       | TimeModel(duration: int, count: nat, entries: seq<TimeRing.Entry>, progress: TimeRing.Progress)

  function FreshWindow(shape: WindowShape): WindowModel {
    match shape
    case ByCount(size) => CountModel(size, [])
    case ByTime(duration, count) => TimeModel(duration, count, [], TimeRing.Unseen)
  }

  /** Reading a time window at `now` advances its observed bucket; a count window has none. */
  function ObserveWindow(w: WindowModel, now: int): WindowModel {
    match w
    case CountModel(_, _) => w
    case TimeModel(duration, _, _, progress) =>
      if duration <= 0 then w
      else w.(progress := TimeRing.Seen(TimeRing.Advance(progress, now / duration)))
  }

  function AppendWindow(w: WindowModel, now: int, record: Record): WindowModel {
    match w
    case CountModel(_, records) => w.(records := records + [record])
    case TimeModel(_, _, entries, _) =>
      var seen := ObserveWindow(w, now);
      if seen.progress.Unseen? then w
      else seen.(entries := entries + [TimeRing.Entry(seen.progress.bucket, record)])
  }

  ghost function Health(w: WindowModel): Snapshot {
    match w
    case CountModel(size, records) => CountRing.View(records, size)
    case TimeModel(_, count, entries, progress) =>
      if progress.Unseen? then EMPTY else TimeRing.View(entries, progress.bucket, count)
  }

  function RecordsOf(entries: seq<TimeRing.Entry>): seq<Record> {
    seq(|entries|, i requires 0 <= i < |entries| => entries[i].record)
  }

  /** Everything recorded since the last recovery or reset, oldest first. */
  function Records(w: WindowModel): seq<Record> {
    match w
    case CountModel(_, records) => records
    case TimeModel(_, _, entries, _) => RecordsOf(entries)
  }

  /** What a window holds: its records, and the horizon they are read in when there are any. */
  function Evidence(w: WindowModel): WindowModel {
    if w.TimeModel? && w.entries == [] then w.(progress := TimeRing.Unseen) else w
  }

  /** The trailing run of failures. */
  function Streak(records: seq<Record>, resetOnIgnored: bool): nat {
    if records == [] then 0
    else
      var before := Streak(records[..|records| - 1], resetOnIgnored);
      match records[|records| - 1].outcome
      case Success => 0
      case Failure => before + 1
      case Ignored => if resetOnIgnored then 0 else before
      case Unknown(_) => before
  }

  // ---------- the probe sample ----------

  datatype Verdict = Undecided | Recovers | Fails

  function Successes(trial: seq<Outcome>): nat {
    if trial == [] then 0
    else Successes(trial[..|trial| - 1]) + if trial[|trial| - 1].Success? then 1 else 0
  }

  /** What the latest outcome of a sample decides. */
  function Judge(policy: Recovery, trial: seq<Outcome>): Verdict {
    if trial == [] then Undecided
    else if trial[|trial| - 1].Failure? && policy.immediate then Fails
    else if policy.requiredSuccesses > 0 && Successes(trial) >= policy.requiredSuccesses then Recovers
    else if policy.successRatio > 0.0 && |trial| >= policy.maxProbes then
      if Ratio(Successes(trial), |trial|) >= policy.successRatio then Recovers else Fails
    else if !policy.immediate && |trial| >= policy.maxProbes then Fails
    else Undecided
  }

  // ---------- state ----------

  /** What a snapshot reports of policy state; lifetime outcome totals are kept apart in `Totals`. */
  datatype View = View(state: State, mode: Mode, generation: nat, transitions: nat, lastTransition: int,
                       health: Snapshot, admitted: nat, rejected: nat,
                       active: nat, completedProbes: nat, successfulProbes: nat,
                       openDuration: int, nextProbeAt: int)

  datatype Totals = Totals(completed: nat, successes: nat, failures: nat, ignored: nat)

  datatype Event = Event(before: View, after: View, reason: Reason, at: int)

  /** A committed transition with the probe sample it ended and the evidence it was decided on. */
  datatype Transition = Transition(event: Event, trial: seq<Outcome>, evidence: WindowModel)

  datatype Model = Model(state: State, mode: Mode, generation: nat, lastTransition: int,
                         window: WindowModel, openings: nat, openDuration: int, nextProbeAt: int,
                         trial: seq<Outcome>, permits: seq<PermitRecord>, rejected: nat,
                         revision: nat, log: seq<Transition>)

  function Initial(cfg: Settings): Model {
    Model(Closed, Normal, 1, ZERO_TIME, FreshWindow(cfg.window), 0, 0, ZERO_TIME, [], [], 0, 0, [])
  }

  /** A probe is an active recording permit of the current half-open generation. */
  predicate IsProbe(s: Model, p: PermitRecord) {
    && p.status == Active
    && p.recording
    && p.generation == s.generation
    && p.state == s.state == HalfOpen
  }

  function Probes(s: Model): set<nat> {
    set i | 0 <= i < |s.permits| && IsProbe(s, s.permits[i])
  }

  ghost function Look(s: Model): View {
    View(s.state, s.mode, s.generation, |s.log|, s.lastTransition, Health(s.window), |s.permits|, s.rejected,
         |Probes(s)|, |s.trial|, Successes(s.trial), s.openDuration, s.nextProbeAt)
  }

  /** How many permits ended in one given outcome. */
  function CompletedAs(permits: seq<PermitRecord>, outcome: Outcome): nat {
    if permits == [] then 0
    else CompletedAs(permits[..|permits| - 1], outcome)
         + if permits[|permits| - 1].status == Completed(outcome) then 1 else 0
  }

  function TotalsOf(s: Model): Totals {
    var successes, failures, ignored := CompletedAs(s.permits, Success), CompletedAs(s.permits, Failure),
                                        CompletedAs(s.permits, Ignored);
    Totals(successes + failures + ignored, successes, failures, ignored)
  }

  // ---------- transitions ----------

  function Observed(s: Model, now: int): Model {
    s.(window := ObserveWindow(s.window, now))
  }

  /** Commits `next`, a rewrite of `s`: one generation forward, an empty probe sample, a signal to every
      waiter, one log entry. Building the event's after-view reads the window, but only for an observer. */
  ghost function Commit(cfg: Settings, s: Model, next: Model, reason: Reason, now: int): Model {
    var moved := next.(generation := next.generation + 1, lastTransition := now, trial := [],
                       revision := next.revision + 1);
    var seen := Observed(moved, now);
    var after := Look(seen).(transitions := |s.log| + 1);
    (if cfg.delivery.NoObserver? then moved else seen)
      .(log := s.log + [Transition(Event(Look(s), after, reason, now), s.trial, Evidence(s.window))])
  }

  ghost function OpenFrom(cfg: Settings, s0: Model, reason: Reason, now: int, sample: real): Model
    requires ValidSettings(cfg) && 0.0 <= sample < 1.0
  {
    var s := Observed(s0, now);
    var duration := OpenInterval(cfg, s.openings + 1, sample);
    Commit(cfg, s, s.(state := Open, openings := s.openings + 1, openDuration := duration,
                      nextProbeAt := now + duration), reason, now)
  }

  function OpenInterval(cfg: Settings, openings: nat, sample: real): (d: int)
    requires ValidSettings(cfg) && 0.0 <= sample < 1.0 && openings > 0
    ensures 1 <= d <= Selected(cfg.openDuration, openings) <= Most(cfg.openDuration)
    ensures cfg.jitter == 0.0 ==> d == Selected(cfg.openDuration, openings)
    ensures d as real > Selected(cfg.openDuration, openings) as real * (1.0 - cfg.jitter) - 1.0
    ensures d == 1 || d as real <= Selected(cfg.openDuration, openings) as real * (1.0 - cfg.jitter * sample)
    ensures Selected(cfg.openDuration, openings) as real * (1.0 - cfg.jitter * sample) < d as real + 1.0
  {
    SelectedBounds(cfg.openDuration, openings, openings);
    Jittered(Selected(cfg.openDuration, openings), cfg.jitter, sample)
  }

  ghost function HalfOpenFrom(cfg: Settings, s0: Model, now: int): Model {
    var s := Observed(s0, now);
    Commit(cfg, s, s.(state := HalfOpen), OpenIntervalElapsed, now)
  }

  function Cleared(cfg: Settings, s: Model): Model {
    s.(state := Closed, window := FreshWindow(cfg.window), openings := 0, openDuration := 0, nextProbeAt := ZERO_TIME)
  }

  ghost function RecoverFrom(cfg: Settings, s0: Model, now: int): Model {
    var s := Observed(s0, now);
    Commit(cfg, s, Cleared(cfg, s), HalfOpenRecovered, now)
  }

  ghost function ResetFrom(cfg: Settings, s0: Model, now: int): Model {
    var s := Observed(s0, now);
    Commit(cfg, s, Cleared(cfg, s).(mode := Normal), WasReset, now)
  }

  ghost function ModeFrom(cfg: Settings, s0: Model, mode: Mode, now: int): Model {
    var s := Observed(s0, now);
    Commit(cfg, s, s.(mode := mode), ModeSet(mode), now)
  }

  // ---------- permits ----------

  function SetStatus(s: Model, id: nat, status: Status): Model
    requires id < |s.permits|
  {
    s.(permits := s.permits[id := s.permits[id].(status := status)])
  }

  /** Ends a permit without an outcome; a probe hands its capacity back and signals. */
  function Release(s: Model, id: nat, status: Status): Model
    requires id < |s.permits|
  {
    var ended := SetStatus(s, id, status);
    if IsProbe(s, s.permits[id]) then ended.(revision := ended.revision + 1) else ended
  }

  function Overdue(s: Model, now: int): set<nat> {
    set i | i in Probes(s) && s.permits[i].deadline <= now
  }

  /** Lazy expiry: every probe at or past its deadline ends, each with a signal. */
  function ExpireProbes(s: Model, now: int): Model {
    s.(permits := seq(|s.permits|, i requires 0 <= i < |s.permits| =>
         if i in Overdue(s, now) then s.permits[i].(status := Expired) else s.permits[i]),
       revision := s.revision + |Overdue(s, now)|)
  }

  function Issue(cfg: Settings, s: Model, now: int, recording: bool, execution: bool): Model {
    s.(permits := s.permits + [PermitRecord(s.generation, s.state, now + cfg.permitTTL, recording, execution, Active)])
  }

  // ---------- steps ----------

  datatype Cause = ErrOpen | ErrHalfOpenExhausted | ErrHalfOpenWaitTimeout | ErrForceOpen | ErrIsolated

  datatype Rejection = Rejection(state: State, mode: Mode, generation: nat, retryAt: int, cause: Cause)

  datatype Reply = Admitted(id: nat) | Rejected(rejection: Rejection) | MustWait
                 | Accepted | PermitCompleted | PermitCanceled | PermitExpired | InvalidOutcome | UnknownModeError
                 | Viewed(view: View) | NoSuchPermit

  function Reject(s: Model, cause: Cause): (Model, Reply) {
    (s.(rejected := s.rejected + 1), Rejected(Rejection(s.state, s.mode, s.generation, s.nextProbeAt, cause)))
  }

  /** Capacity in use: classified completions plus active probes. */
  function InUse(s: Model): nat {
    |s.trial| + |Probes(s)|
  }

  /** The state an admission decision is taken on: an elapsed open interval has become half-open and
      overdue probes have expired. */
  ghost function Settled(cfg: Settings, s: Model, now: int): Model {
    var s1 := if s.state.Open? then HalfOpenFrom(cfg, s, now) else s;
    if s1.state.HalfOpen? then ExpireProbes(s1, now) else s1
  }

  ghost function TryAcquire(cfg: Settings, s: Model, now: int, execution: bool): (Model, Reply) {
    if s.mode.ForceOpen? then Reject(s, ErrForceOpen)
    else if s.mode.Isolated? then Reject(s, ErrIsolated)
    else if s.mode.Disabled? then (Issue(cfg, s, now, false, execution), Admitted(|s.permits|))
    else if s.state.Open? && now < s.nextProbeAt then Reject(s, ErrOpen)
    else
      var ready := Settled(cfg, s, now);
      if ready.state.HalfOpen? && InUse(ready) >= cfg.halfOpen.maxProbes then
        if cfg.wait then (ready, MustWait) else Reject(ready, ErrHalfOpenExhausted)
      else (Issue(cfg, ready, now, true, execution), Admitted(|ready.permits|))
  }

  /** A permit counts for health while it records and its generation and state are the current ones. */
  predicate Live(s: Model, p: PermitRecord) {
    p.recording && p.generation == s.generation && p.state == s.state
  }

  ghost function CompleteProbe(cfg: Settings, s: Model, outcome: Outcome, now: int, sample: real): Model
    requires ValidSettings(cfg) && 0.0 <= sample < 1.0
  {
    var signaled := s.(revision := s.revision + 1);
    if outcome.Ignored? then signaled
    else
      var judged := signaled.(trial := s.trial + [outcome]);
      match Judge(cfg.halfOpen, judged.trial)
      case Undecided => judged
      case Recovers => RecoverFrom(cfg, judged, now)
      case Fails => OpenFrom(cfg, judged, HalfOpenFailed, now, sample)
  }

  ghost function RecordHealth(cfg: Settings, s: Model, outcome: Outcome, slow: bool, now: int, sample: real): Model
    requires ValidSettings(cfg) && 0.0 <= sample < 1.0
  {
    var recorded := s.(window := AppendWindow(s.window, now, Record(outcome, slow && !outcome.Ignored?)));
    if Tripped(cfg, recorded) then OpenFrom(cfg, recorded, PolicyOpened, now, sample) else recorded
  }

  ghost predicate Tripped(cfg: Settings, s: Model) {
    Opens(cfg.opening, cfg.minimumThroughput, Streak(Records(s.window), cfg.opening.resetOnIgnored), Health(s.window))
  }

  ghost function Complete(cfg: Settings, s: Model, id: nat, outcome: Outcome, slow: bool, now: int, sample: real): (Model, Reply)
    requires ValidSettings(cfg) && 0.0 <= sample < 1.0
  {
    if outcome.Unknown? then (s, InvalidOutcome)
    else if id >= |s.permits| then (s, NoSuchPermit)
    else
      var p := s.permits[id];
      match p.status
      case Completed(_) => (s, PermitCompleted)
      case Canceled => (s, PermitCanceled)
      case Expired => if p.execution then (SetStatus(s, id, Completed(outcome)), Accepted) else (s, PermitExpired)
      case Active =>
        if !p.execution && p.deadline <= now then (Release(s, id, Expired), PermitExpired)
        else
          var counted := SetStatus(s, id, Completed(outcome));
          if !Live(s, p) then (counted, Accepted)
          else if s.state.HalfOpen? then (CompleteProbe(cfg, counted, outcome, now, sample), Accepted)
          else (RecordHealth(cfg, counted, outcome, slow, now, sample), Accepted)
  }

  function Cancel(s: Model, id: nat, now: int): (Model, Reply) {
    if id >= |s.permits| then (s, NoSuchPermit)
    else
      match s.permits[id].status
      case Completed(_) => (s, PermitCompleted)
      case Canceled => (s, PermitCanceled)
      case Expired => (s, PermitExpired)
      case Active =>
        if s.permits[id].deadline <= now then (Release(s, id, Expired), PermitExpired)
        else (Release(s, id, Canceled), Accepted)
  }

  type Sample = x: real | 0.0 <= x < 1.0 witness 0.0

  /** One critical section. `now` and `sample` were read before the lock and are unconstrained. */
  datatype Action = DoTryAcquire(now: int, execution: bool)
                  | DoRejectWaiter
                  | DoComplete(id: nat, outcome: Outcome, slow: bool, now: int, sample: Sample)
                  | DoCancel(id: nat, now: int)
                  | DoSetMode(mode: Mode, now: int)
                  | DoReset(now: int)
                  | DoSnapshot(now: int)

  ghost function Step(cfg: Settings, s: Model, a: Action): (Model, Reply)
    requires ValidSettings(cfg)
  {
    match a
    case DoTryAcquire(now, execution) => TryAcquire(cfg, s, now, execution)
    case DoRejectWaiter => Reject(s, ErrHalfOpenWaitTimeout)
    case DoComplete(id, outcome, slow, now, sample) => Complete(cfg, s, id, outcome, slow, now, sample)
    case DoCancel(id, now) => Cancel(s, id, now)
    case DoSetMode(mode, now) =>
      if mode.UnknownMode? then (s, UnknownModeError)
      else if mode == s.mode then (s, Accepted)
      else (ModeFrom(cfg, s, mode, now), Accepted)
    case DoReset(now) => (ResetFrom(cfg, s, now), Accepted)
    case DoSnapshot(now) =>
      var seen := Observed(if s.state.HalfOpen? then ExpireProbes(s, now) else s, now);
      (seen, Viewed(Look(seen)))
  }

  /** A run: any sequence of critical sections, by any callers, at any observed times. */
  ghost function Run(cfg: Settings, s: Model, actions: seq<Action>): Model
    requires ValidSettings(cfg)
    decreases |actions|
  {
    if actions == [] then s else Run(cfg, Step(cfg, s, actions[0]).0, actions[1..])
  }

  lemma {:induction false} RunConcat(cfg: Settings, s: Model, first: seq<Action>, second: seq<Action>)
    requires ValidSettings(cfg)
    ensures Run(cfg, s, first + second) == Run(cfg, Run(cfg, s, first), second)
    decreases |first|
  {
    if first == [] {
      assert first + second == second;
    } else {
      assert (first + second)[1..] == first[1..] + second;
      RunConcat(cfg, Step(cfg, s, first[0]).0, first[1..], second);
    }
  }
}
