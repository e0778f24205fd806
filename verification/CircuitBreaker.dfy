/** The breaker as the source keeps it: fields and permits updated in place under one lock
    (breaker.go). Every method is one critical section or part of one; its contract equates the new
    state of the ghost field `spec` with a step of the reference machine, and `Valid` ties each field
    to `spec`. */
module CircuitBreaker {
  import opened Window
  import opened Config
  import opened Policy
  import opened OpenSchedule
  import opened BucketId
  import opened BreakerModel
  import opened BreakerInvariants
  import opened BreakerLifetime
  import CountRing = CountWindow
  import TimeRing = TimeWindow

  /** Timestamps whose Unix seconds fit an int64, as every timestamp of the source does. */
  predicate IsTimestamp(t: int) {
    -0x8000_0000_0000_0000 * NANOS_PER_SECOND <= t < 0x8000_0000_0000_0000 * NANOS_PER_SECOND
  }

  type Timestamp = t: int | IsTimestamp(t)

  function InstantOf(t: Timestamp): (at: Instant)
    ensures UnixNanos(at) == t
  {
    assert IsTimestamp(t);
    Instant((t / NANOS_PER_SECOND) as Int64, (t % NANOS_PER_SECOND) as Nanos)
  }

  // ---------- the rolling window behind its interface (breaker.go:13-36, 101-108) ----------

  datatype RollingWindow = CountRolling(count: CountRing.Count) | TimeRolling(time: TimeRing.Time)

  ghost function Footprint(w: RollingWindow): set<object> {
    match w
    case CountRolling(c) => {c, c.records}
    case TimeRolling(t) => {t, t.buckets}
  }

  ghost predicate WindowMatches(w: RollingWindow, m: WindowModel)
    reads Footprint(w)
  {
    match w
    case CountRolling(c) => c.Valid() && m == CountModel(c.records.Length, c.history)
    case TimeRolling(t) => t.Valid() && m == TimeModel(t.duration as int, t.buckets.Length, t.history, t.Observed())
  }

  method NewRollingWindow(cfg: Settings) returns (w: RollingWindow)
    requires ValidSettings(cfg)
    ensures fresh(Footprint(w)) && WindowMatches(w, FreshWindow(cfg.window))
  {
    match cfg.window
    case ByCount(size) =>
      var c := new CountRing.Count(size);
      w := CountRolling(c);
    case ByTime(duration, count) =>
      DurationFits(duration, count);
      var t := new TimeRing.Time(duration as Duration, count);
      w := TimeRolling(t);
  }

  lemma DurationFits(duration: int, count: nat)
    requires 0 < duration && 0 < count && duration * count <= MAX_DURATION
    ensures duration <= MAX_DURATION
  {
    assert duration * (count - 1) >= 0;
    assert duration * count == duration * (count - 1) + duration;
  }

  method ReadWindow(w: RollingWindow, now: Timestamp, ghost m: WindowModel) returns (s: Snapshot)
    requires WindowMatches(w, m)
    modifies Footprint(w)
    ensures WindowMatches(w, ObserveWindow(m, now)) && s == Health(ObserveWindow(m, now))
  {
    match w
    case CountRolling(c) => s := c.Snapshot();
    case TimeRolling(t) => s := t.Snapshot(InstantOf(now));
  }

  method AddToWindow(w: RollingWindow, now: Timestamp, record: Record, ghost m: WindowModel)
    requires WindowMatches(w, m) && ValidRecord(record)
    modifies Footprint(w)
    ensures WindowMatches(w, AppendWindow(m, now, record))
  {
    match w
    case CountRolling(c) => var _ := c.Add(record);
    case TimeRolling(t) => var _ := t.Add(InstantOf(now), record);
  }

  // ---------- permits ----------

  datatype PermitStatus = StatusActive | StatusCompleted | StatusCanceled | StatusExpired

  class Permit {
    const generation: nat
    const state: State
    const deadline: int
    const recording: bool
    const execution: bool
    var status: PermitStatus
    /** Its place in the order of admissions. */
    ghost const id: nat

    constructor (generation: nat, state: State, deadline: int, recording: bool, execution: bool, ghost id: nat)
      ensures Matches(PermitRecord(generation, state, deadline, recording, execution, Active))
      ensures this.id == id
    {
      this.generation, this.state, this.deadline := generation, state, deadline;
      this.recording, this.execution, this.status := recording, execution, StatusActive;
      this.id := id;
    }

    ghost predicate Matches(p: PermitRecord)
      reads this
    {
      && generation == p.generation && state == p.state && deadline == p.deadline
      && recording == p.recording && execution == p.execution
      && status == StatusTag(p.status)
    }
  }

  method NewPermit(generation: nat, state: State, deadline: int, recording: bool, execution: bool, ghost id: nat)
    returns (p: Permit)
    ensures fresh(p) && p.id == id
    ensures p.Matches(PermitRecord(generation, state, deadline, recording, execution, Active))
  {
    p := new Permit(generation, state, deadline, recording, execution, id);
  }

  function StatusTag(status: Status): PermitStatus {
    match status
    case Active => StatusActive
    case Completed(_) => StatusCompleted
    case Canceled => StatusCanceled
    case Expired => StatusExpired
  }

  function EventsOf(log: seq<Transition>): (events: seq<Event>)
    ensures |events| == |log|
  {
    seq(|log|, i requires 0 <= i < |log| => log[i].event)
  }

  /** The mutation a transition runs between its two snapshots. */
  datatype Mutation = ToOpen(sample: Sample) | ToHalfOpen | ToClosed | ToReset | ToMode(mode: Mode)

  ghost function Mutated(cfg: Settings, s: Model, mutation: Mutation, now: int): Model
    requires ValidSettings(cfg)
  {
    match mutation
    case ToOpen(sample) =>
      var duration := OpenInterval(cfg, s.openings + 1, sample);
      s.(state := State.Open, openings := s.openings + 1, openDuration := duration, nextProbeAt := now + duration)
    case ToHalfOpen => s.(state := HalfOpen)
    case ToClosed => Cleared(cfg, s)
    case ToReset => Cleared(cfg, s).(mode := Normal)
    case ToMode(mode) => s.(mode := mode)
  }

  // ---------- coherence with the reference machine ----------

  /** The i-th handle is the i-th permit record. */
  ghost predicate HandlesMatch(issued: seq<Permit>, permits: seq<PermitRecord>)
    reads issued
  {
    && |issued| == |permits|
    && (forall i :: 0 <= i < |issued| ==> issued[i].id == i && issued[i].Matches(permits[i]))
  }

  /** The probe map is exactly the active recording permits of the current half-open generation. */
  ghost predicate ProbesMatch(probeMap: set<Permit>, issued: seq<Permit>, probes: set<nat>) {
    && (forall p :: p in probeMap ==> p.id in probes && p.id < |issued| && issued[p.id] == p)
    && (forall i :: i in probes ==> i < |issued| && issued[i] in probeMap && issued[i].id == i)
  }

  lemma NoProbesMatch(issued: seq<Permit>)
    ensures ProbesMatch({}, issued, {})
  {
  }

  /** The events an observer is owed: one per committed transition, in order. */
  ghost function Announced(cfg: Settings, log: seq<Transition>): seq<Event> {
    if cfg.delivery.NoObserver? then [] else EventsOf(log)
  }

  // ---------- the breaker ----------

  class Breaker {
    const cfg: Settings
    var window: RollingWindow
    var state: State
    var mode: Mode
    var generation: nat
    var transitionCount: nat
    var lastTransition: int
    var consecutiveFailures: nat
    var openCount: nat
    var currentOpenDuration: int
    var nextProbeAt: int
    var halfOpenActive: int
    var halfOpenCompleted: int
    var halfOpenSuccesses: int
    var admitted: nat
    var rejected: nat
    var completed: nat
    var totalSuccesses: nat
    var totalFailures: nat
    var totalIgnored: nat
    var halfOpenPermits: set<Permit>
    /** How often the broadcast channel has been closed and replaced. */
    var changed: nat
    var pendingEvents: seq<Event>

    ghost var spec: Model
    /** Every permit ever issued, in order; the handles themselves are the callers'. */
    ghost var issued: seq<Permit>
    /** Every event handed over for dispatch so far. */
    ghost var dispatched: seq<Event>
    ghost var Repr: set<object>

    /** The scalar fields are what the reference machine derives. */
    ghost predicate FieldsMatch(m: Model)
      reads `state, `mode, `generation, `transitionCount, `lastTransition, `consecutiveFailures, `openCount,
            `currentOpenDuration, `nextProbeAt, `halfOpenCompleted, `halfOpenSuccesses, `admitted, `rejected,
            `completed, `totalSuccesses, `totalFailures, `totalIgnored, `changed
    {
      && state == m.state && mode == m.mode && generation == m.generation
      && transitionCount == |m.log|
      && lastTransition == m.lastTransition
      && consecutiveFailures == Streak(Records(m.window), cfg.opening.resetOnIgnored)
      && openCount == m.openings && currentOpenDuration == m.openDuration && nextProbeAt == m.nextProbeAt
      && halfOpenCompleted == |m.trial| && halfOpenSuccesses == Successes(m.trial)
      && admitted == |m.permits| && rejected == m.rejected
      && Totals(completed, totalSuccesses, totalFailures, totalIgnored) == TotalsOf(m)
      && changed == m.revision
    }

    /** Every field agrees with `m`; `slack` counts the probe whose completion is being processed. */
    ghost predicate Mirrors(m: Model, slack: nat)
      reads this, Repr
    {
      && this in Repr && (forall p :: p in issued ==> p in Repr) && Footprint(window) <= Repr
      && this !in Footprint(window) && (forall p :: p in issued ==> p !in Footprint(window))
      && ValidSettings(cfg)
      && FieldsMatch(m)
      && WindowMatches(window, m.window)
      && HandlesMatch(issued, m.permits)
      && ProbesMatch(halfOpenPermits, issued, Probes(m))
      && halfOpenActive == |Probes(m)| + slack
      && dispatched + pendingEvents == Announced(cfg, m.log)
      && PermitsOk(m) && !m.mode.UnknownMode?
    }

    ghost predicate Coherent(slack: nat)
      reads this, Repr
    {
      Mirrors(spec, slack)
    }

    ghost predicate Valid()
      reads this, Repr
    {
      Coherent(0)
    }

    /** Moves the ghost machine to a state the fields already agree with. */
    ghost method Adopt(m: Model, slack: nat)
      requires Mirrors(m, slack)
      modifies `spec
      ensures Coherent(slack) && spec == m
    {
      hide Health, TotalsOf, Announced, ValidSettings, Streak, Records, WindowMatches, PermitsOk, Successes, Probes,
           ProbesMatch, HandlesMatch;
      spec := m;
    }

    constructor (cfg: Settings)
      requires ValidSettings(cfg)
      ensures Valid() && fresh(Repr)
      ensures this.cfg == cfg && spec == Initial(cfg) && issued == [] && pendingEvents == []
    {
      hide Mirrors, WindowMatches, ValidSettings, Initial, FreshWindow;
      this.cfg := cfg;
      var w := NewRollingWindow(cfg);
      window := w;
      state, mode, generation := Closed, Normal, 1;
      transitionCount, lastTransition, consecutiveFailures := 0, ZERO_TIME, 0;
      openCount, currentOpenDuration, nextProbeAt := 0, 0, ZERO_TIME;
      halfOpenActive, halfOpenCompleted, halfOpenSuccesses := 0, 0, 0;
      admitted, rejected, completed, totalSuccesses, totalFailures, totalIgnored := 0, 0, 0, 0, 0, 0;
      halfOpenPermits, changed, pendingEvents := {}, 0, [];
      spec, issued, dispatched := Initial(cfg), [], [];
      Repr := {this} + Footprint(w);
      new;
      StartsCoherent();
    }

    /** The fields of a new breaker agree with the initial state. */
    lemma StartsCoherent()
      requires ValidSettings(cfg) && WindowMatches(window, FreshWindow(cfg.window)) && this !in Footprint(window)
      requires state == Closed && mode == Normal && generation == 1 && transitionCount == 0 && lastTransition == ZERO_TIME
      requires consecutiveFailures == openCount == currentOpenDuration == 0 && nextProbeAt == ZERO_TIME
      requires halfOpenActive == halfOpenCompleted == halfOpenSuccesses == 0 && halfOpenPermits == {}
      requires admitted == rejected == completed == totalSuccesses == totalFailures == totalIgnored == changed == 0
      requires pendingEvents == dispatched == [] && issued == [] && spec == Initial(cfg)
      requires Repr == {this} + Footprint(window)
      ensures Valid()
    {
      hide Health, ValidSettings, WindowMatches, Footprint;
      assert Probes(spec) == {};
    }

    // ---------- snapshots and transitions ----------

    function FieldsView(aggregate: Snapshot): View
      requires halfOpenActive >= 0 && halfOpenCompleted >= 0 && halfOpenSuccesses >= 0
      reads this
    {
      View(state, mode, generation, transitionCount, lastTransition, aggregate, admitted, rejected,
           halfOpenActive, halfOpenCompleted, halfOpenSuccesses, currentOpenDuration, nextProbeAt)
    }

    /** The reading itself, which advances nothing but the window. */
    method PeekLocked(now: Timestamp) returns (v: View)
      requires Valid()
      modifies Footprint(window)
      ensures v == Look(Observed(spec, now))
      ensures WindowMatches(window, ObserveWindow(spec.window, now))
    {
      hide Health, IsProbe, PermitsOk, TotalsOf, Successes, Streak, Records, Announced, ValidSettings, WindowMatches;
      ObservedSame(spec, now);
      var aggregate := ReadWindow(window, now, spec.window);
      v := FieldsView(aggregate);
    }

    /** Reading the breaker: every incremental counter equals what the reference machine derives. */
    method SnapshotLocked(now: Timestamp) returns (v: View)
      requires Valid()
      modifies this`spec, Footprint(window)
      ensures Valid() && spec == Observed(old(spec), now)
      ensures v == Look(spec)
    {
      hide Health, IsProbe, PermitsOk, TotalsOf, Successes, Streak, Records, Probes, Announced, ValidSettings, WindowMatches, Look;
      v := PeekLocked(now);
      ObservedSame(spec, now);
      Adopt(Observed(spec, now), 0);
    }

    /** Selects the interval of the current opening (breaker.go:627-662). */
    method OpenDurationLocked(sample: Sample) returns (duration: int)
      requires ValidSettings(cfg) && openCount > 0
      ensures duration == OpenInterval(cfg, openCount, sample)
    {
      var selected, _ := Select(cfg.openDuration, openCount);
      SelectedBounds(cfg.openDuration, openCount, openCount);
      duration := Jittered(selected, cfg.jitter, sample);
    }

    method SignalLocked()
      modifies `changed
      ensures changed == old(changed) + 1
    {
      changed := changed + 1;
    }

    /** The assignments common to every transition: the next generation starts without a probe sample and
        every waiter is signaled. */
    method StartGeneration(now: Timestamp)
      modifies `generation, `transitionCount, `lastTransition, `halfOpenActive, `halfOpenCompleted,
               `halfOpenSuccesses, `halfOpenPermits, `changed
      ensures generation == old(generation) + 1 && transitionCount == old(transitionCount) + 1
      ensures lastTransition == now && halfOpenPermits == {} && changed == old(changed) + 1
      ensures halfOpenActive == halfOpenCompleted == halfOpenSuccesses == 0
    {
      generation := generation + 1;
      transitionCount := transitionCount + 1;
      lastTransition := now;
      halfOpenActive, halfOpenCompleted, halfOpenSuccesses := 0, 0, 0;
      halfOpenPermits := {};
      SignalLocked();
    }

    /** The closures the source passes to transitionLocked, and SetMode's assignment. */
    method Apply(mutation: Mutation, now: Timestamp, ghost o: Model, ghost next: Model)
      requires ValidSettings(cfg) && next == Mutated(cfg, o, mutation, now)
      requires state == o.state && mode == o.mode && openCount == o.openings
      requires currentOpenDuration == o.openDuration && nextProbeAt == o.nextProbeAt
      requires consecutiveFailures == Streak(Records(o.window), cfg.opening.resetOnIgnored)
      requires WindowMatches(window, o.window) && this !in Footprint(window)
      modifies `window, `state, `mode, `consecutiveFailures, `openCount, `currentOpenDuration, `nextProbeAt, `Repr
      ensures state == next.state && mode == next.mode && openCount == next.openings
      ensures currentOpenDuration == next.openDuration && nextProbeAt == next.nextProbeAt
      ensures consecutiveFailures == Streak(Records(next.window), cfg.opening.resetOnIgnored)
      ensures WindowMatches(window, next.window)
      ensures if window == old(window) then Repr == old(Repr)
              else fresh(Footprint(window)) && Repr == old(Repr) + Footprint(window)
    {
      hide Health, ValidSettings, OpenInterval, Streak, Records, WindowMatches, FreshWindow;
      match mutation
      case ToOpen(sample) => StartOpenInterval(sample, now);
      case ToHalfOpen => state := HalfOpen;
      case ToClosed => Clear();
      case ToReset =>
        Clear();
        mode := Normal;
      case ToMode(m) => mode := m;
    }

    method StartOpenInterval(sample: Sample, now: Timestamp)
      requires ValidSettings(cfg)
      modifies `state, `openCount, `currentOpenDuration, `nextProbeAt
      ensures state == State.Open && openCount == old(openCount) + 1
      ensures currentOpenDuration == OpenInterval(cfg, openCount, sample) && nextProbeAt == now + currentOpenDuration
    {
      openCount := openCount + 1;
      currentOpenDuration := OpenDurationLocked(sample);
      nextProbeAt := now + currentOpenDuration;
      state := State.Open;
    }

    /** Appends the event of a committed transition; without an observer nothing is even read. */
    method RecordEventLocked(before: View, reason: Reason, now: Timestamp, ghost m: WindowModel) returns (ghost after: View)
      requires WindowMatches(window, m) && this !in Footprint(window)
      requires halfOpenActive == halfOpenCompleted == halfOpenSuccesses == 0
      modifies `pendingEvents, Footprint(window)
      ensures after == FieldsView(Health(ObserveWindow(m, now)))
      ensures if cfg.delivery.NoObserver? then WindowMatches(window, m) && pendingEvents == old(pendingEvents)
              else WindowMatches(window, ObserveWindow(m, now))
                   && pendingEvents == old(pendingEvents) + [Event(before, after, reason, now)]
    {
      hide Health;
      after := FieldsView(Health(ObserveWindow(m, now)));
      if cfg.delivery.NoObserver? {
        return;
      }
      var aggregate := ReadWindow(window, now, m);
      pendingEvents := pendingEvents + [Event(before, FieldsView(aggregate), reason, now)];
    }

    /** What validity says of the fields a transition rewrites. */
    lemma MutableParts()
      requires Valid()
      ensures this in Repr && this !in Footprint(window) && Footprint(window) <= Repr
      ensures ValidSettings(cfg) && PermitsOk(spec) && WindowMatches(window, spec.window)
      ensures state == spec.state && mode == spec.mode && openCount == spec.openings
      ensures currentOpenDuration == spec.openDuration && nextProbeAt == spec.nextProbeAt
      ensures consecutiveFailures == Streak(Records(spec.window), cfg.opening.resetOnIgnored)
    {
    }

    /** The before-snapshot and the mutation. */
    method ReadAndApply(mutation: Mutation, now: Timestamp, ghost o: Model, ghost next: Model) returns (before: View)
      requires Valid() && o == Observed(spec, now) && next == Mutated(cfg, o, mutation, now)
      modifies `window, `state, `mode, `consecutiveFailures, `openCount, `currentOpenDuration, `nextProbeAt, `Repr,
               Footprint(window)
      ensures before == Look(o)
      ensures state == next.state && mode == next.mode && openCount == next.openings
      ensures currentOpenDuration == next.openDuration && nextProbeAt == next.nextProbeAt
      ensures consecutiveFailures == Streak(Records(next.window), cfg.opening.resetOnIgnored)
      ensures WindowMatches(window, next.window) && this !in Footprint(window)
      ensures if window == old(window) then Repr == old(Repr)
              else fresh(Footprint(window)) && Repr == old(Repr) + Footprint(window)
    {
      hide Health, ValidSettings, Streak, Records, WindowMatches, Mutated, Look, PermitsOk, Mirrors, FieldsMatch;
      MutableParts();
      ObservedSame(spec, now);
      before := PeekLocked(now);
      Apply(mutation, now, o, next);
    }

    /** The in-place part of a transition: read the before-snapshot, run the mutation, start the
        generation, record the event. */
    method CommitLocked(mutation: Mutation, reason: Reason, now: Timestamp, ghost o: Model, ghost next: Model)
      returns (ghost after: View)
      requires Valid() && o == Observed(spec, now) && next == Mutated(cfg, o, mutation, now)
      modifies `window, `state, `mode, `consecutiveFailures, `openCount, `currentOpenDuration, `nextProbeAt, `Repr,
               `generation, `transitionCount, `lastTransition, `halfOpenActive, `halfOpenCompleted,
               `halfOpenSuccesses, `halfOpenPermits, `changed, `pendingEvents, Footprint(window)
      ensures state == next.state && mode == next.mode && openCount == next.openings
      ensures currentOpenDuration == next.openDuration && nextProbeAt == next.nextProbeAt
      ensures consecutiveFailures == Streak(Records(next.window), cfg.opening.resetOnIgnored)
      ensures generation == old(generation) + 1 && transitionCount == old(transitionCount) + 1
      ensures lastTransition == now && halfOpenPermits == {} && changed == old(changed) + 1
      ensures halfOpenActive == halfOpenCompleted == halfOpenSuccesses == 0
      ensures if window == old(window) then Repr == old(Repr)
              else fresh(Footprint(window)) && Repr == old(Repr) + Footprint(window)
      ensures after == View(next.state, next.mode, generation, transitionCount, now,
                            Health(ObserveWindow(next.window, now)), admitted, rejected, 0, 0, 0,
                            next.openDuration, next.nextProbeAt)
      ensures WindowMatches(window, if cfg.delivery.NoObserver? then next.window else ObserveWindow(next.window, now))
      ensures pendingEvents == if cfg.delivery.NoObserver? then old(pendingEvents)
                               else old(pendingEvents) + [Event(Look(o), after, reason, now)]
    {
      hide Health, ValidSettings, Streak, Records, WindowMatches, Mutated, Look, PermitsOk, Mirrors, FieldsMatch;
      var before := ReadAndApply(mutation, now, o, next);
      StartGeneration(now);
      after := RecordEventLocked(before, reason, now, next.window);
    }

    /** One committed transition. */
    method TransitionLocked(mutation: Mutation, reason: Reason, now: Timestamp)
      requires Valid() && !(mutation.ToMode? && mutation.mode.UnknownMode?)
      modifies Repr
      ensures Valid() && fresh(Repr - old(Repr)) && issued == old(issued) && dispatched == old(dispatched)
      ensures spec == Transitioned(cfg, old(spec), mutation, reason, now)
    {
      hide Health, TotalsOf, Announced, ValidSettings, Streak, Records, WindowMatches, PermitsOk, IsProbe, Successes, Probes, Mutated, Look,
           HandlesMatch, ProbesMatch, Permit.Matches, ObserveWindow, Valid, FieldsMatch, Commit;
      LastingParts();
      ghost var o := Observed(spec, now);
      ghost var next := Mutated(cfg, o, mutation, now);
      ObservedSame(spec, now);
      ghost var after := CommitLocked(mutation, reason, now, o, next);
      AdoptTransition(o, mutation, next, reason, now, after);
    }

    /** Every part of validity. */
    lemma Parts()
      requires Valid()
      ensures this in Repr && Footprint(window) <= Repr && this !in Footprint(window)
      ensures forall p :: p in issued ==> p in Repr && p !in Footprint(window)
      ensures ValidSettings(cfg) && HandlesMatch(issued, spec.permits) && FieldsMatch(spec) && WindowMatches(window, spec.window)
      ensures ProbesMatch(halfOpenPermits, issued, Probes(spec)) && halfOpenActive == |Probes(spec)|
      ensures dispatched + pendingEvents == Announced(cfg, spec.log) && PermitsOk(spec) && !spec.mode.UnknownMode?
      ensures state == spec.state && mode == spec.mode && generation == spec.generation && admitted == |spec.permits|
    {
      hide Health, TotalsOf, Announced, ValidSettings, Streak, Records, WindowMatches, PermitsOk, Successes, Probes,
           ProbesMatch, HandlesMatch;
    }

    /** What a transition leaves alone. */
    lemma LastingParts()
      requires Valid()
      ensures this in Repr && Footprint(window) <= Repr && this !in Footprint(window)
      ensures forall p :: p in issued ==> p in Repr && p !in Footprint(window)
      ensures ValidSettings(cfg) && HandlesMatch(issued, spec.permits)
      ensures PermitsOk(spec) && !spec.mode.UnknownMode?
      ensures generation == spec.generation && transitionCount == |spec.log| && changed == spec.revision
      ensures admitted == |spec.permits| && rejected == spec.rejected
      ensures Totals(completed, totalSuccesses, totalFailures, totalIgnored) == TotalsOf(spec)
      ensures dispatched + pendingEvents == Announced(cfg, spec.log)
    {
      hide Health, TotalsOf, Announced, ValidSettings, Streak, Records, WindowMatches, PermitsOk, Successes, Probes,
           ProbesMatch, HandlesMatch;
    }

    /** The fields after a commit agree with the committed state. */
    ghost method AdoptTransition(o: Model, mutation: Mutation, next: Model, reason: Reason, now: int, after: View)
      requires ValidSettings(cfg) && PermitsOk(o) && next == Mutated(cfg, o, mutation, now)
      requires !o.mode.UnknownMode? && !(mutation.ToMode? && mutation.mode.UnknownMode?)
      requires this in Repr && Footprint(window) <= Repr && this !in Footprint(window)
      requires forall p :: p in issued ==> p in Repr && p !in Footprint(window)
      requires HandlesMatch(issued, o.permits)
      requires state == next.state && mode == next.mode && openCount == next.openings
      requires currentOpenDuration == next.openDuration && nextProbeAt == next.nextProbeAt
      requires consecutiveFailures == Streak(Records(next.window), cfg.opening.resetOnIgnored)
      requires generation == o.generation + 1 && transitionCount == |o.log| + 1 && changed == o.revision + 1
      requires lastTransition == now && halfOpenPermits == {}
      requires halfOpenActive == halfOpenCompleted == halfOpenSuccesses == 0
      requires admitted == |o.permits| && rejected == o.rejected
      requires Totals(completed, totalSuccesses, totalFailures, totalIgnored) == TotalsOf(o)
      requires after == View(next.state, next.mode, generation, transitionCount, now,
                             Health(ObserveWindow(next.window, now)), admitted, rejected, 0, 0, 0,
                             next.openDuration, next.nextProbeAt)
      requires WindowMatches(window, if cfg.delivery.NoObserver? then next.window else ObserveWindow(next.window, now))
      requires dispatched + pendingEvents == Announced(cfg, o.log) +
               if cfg.delivery.NoObserver? then [] else [Event(Look(o), after, reason, now)]
      modifies `spec
      ensures Valid() && spec == Commit(cfg, o, next, reason, now)
    {
      hide Health, TotalsOf, Announced, ValidSettings, Streak, Records, WindowMatches, PermitsOk, IsProbe, Successes, Probes, Mutated, Look,
           HandlesMatch, ProbesMatch, Permit.Matches, ObserveWindow, Mirrors, Commit;
      ghost var c := Commit(cfg, o, next, reason, now);
      CommitShape(cfg, o, mutation, next, c, reason, now, after);
      MutatedFrame(cfg, o, mutation, now);
      NoProbesMatch(issued);
      AdoptParts(c, 0);
    }

    /** Adopts a state whose parts are known to agree. */
    ghost method AdoptParts(c: Model, slack: nat)
      requires this in Repr && Footprint(window) <= Repr && this !in Footprint(window)
      requires forall p :: p in issued ==> p in Repr && p !in Footprint(window)
      requires ValidSettings(cfg) && HandlesMatch(issued, c.permits) && FieldsMatch(c) && WindowMatches(window, c.window)
      requires ProbesMatch(halfOpenPermits, issued, Probes(c)) && halfOpenActive == |Probes(c)| + slack
      requires dispatched + pendingEvents == Announced(cfg, c.log) && PermitsOk(c) && !c.mode.UnknownMode?
      modifies `spec
      ensures Coherent(slack) && spec == c
    {
      hide Health, TotalsOf, Announced, ValidSettings, Streak, Records, WindowMatches, PermitsOk, Successes, Probes,
           ProbesMatch, HandlesMatch, FieldsMatch;
      Adopt(c, slack);
    }

    /** A fresh empty window and no open schedule. */
    method Clear()
      requires ValidSettings(cfg)
      modifies `window, `state, `consecutiveFailures, `openCount, `currentOpenDuration, `nextProbeAt, `Repr
      ensures fresh(Footprint(window)) && WindowMatches(window, FreshWindow(cfg.window))
      ensures Repr == old(Repr) + Footprint(window)
      ensures state == Closed && openCount == 0 && currentOpenDuration == 0
      ensures consecutiveFailures == Streak(Records(FreshWindow(cfg.window)), cfg.opening.resetOnIgnored)
      ensures nextProbeAt == ZERO_TIME
    {
      hide WindowMatches, ValidSettings;
      window := NewRollingWindow(cfg);
      Repr := Repr + Footprint(window);
      state, consecutiveFailures, openCount, currentOpenDuration := Closed, 0, 0, 0;
      nextProbeAt := ZERO_TIME;
    }

    // ---------- permits ----------

    method RejectLocked(cause: Cause) returns (rejection: Rejection)
      requires Valid()
      modifies `rejected, `spec
      ensures Valid() && (spec, Rejected(rejection)) == Reject(old(spec), cause)
    {
      hide Health, TotalsOf, Announced, ValidSettings, Streak, Records, WindowMatches, PermitsOk, IsProbe, Successes,
           HandlesMatch, ProbesMatch, Probes;
      RejectedSame(spec, cause);
      rejected := rejected + 1;
      rejection := Rejection(state, mode, generation, nextProbeAt, cause);
      Adopt(Reject(spec, cause).0, 0);
    }

    /** Creates a permit for the current epoch; a recording one in half-open occupies a probe slot. */
    method IssueLocked(now: Timestamp, recording: bool, execution: bool) returns (p: Permit)
      requires Valid() && (recording <==> mode.Normal?) && (recording ==> state != State.Open)
      modifies this
      ensures Valid() && Repr == old(Repr) + {p} && fresh(p) && window == old(window)
      ensures spec == Issue(cfg, old(spec), now, recording, execution)
      ensures p.id == old(admitted) == |old(issued)|
      ensures issued == old(issued) + [p] && dispatched == old(dispatched) && pendingEvents == old(pendingEvents)
    {
      p := NewPermit(generation, state, now + cfg.permitTTL, recording, execution, admitted);
      Enroll(p, now, recording, execution);
    }

    method Enroll(p: Permit, now: Timestamp, recording: bool, execution: bool)
      requires Valid() && (recording <==> mode.Normal?) && (recording ==> state != State.Open)
      requires p !in Footprint(window) && p.id == admitted
      requires p.Matches(PermitRecord(generation, state, now + cfg.permitTTL, recording, execution, Active))
      modifies this
      ensures Valid() && Repr == old(Repr) + {p} && window == old(window)
      ensures spec == Issue(cfg, old(spec), now, recording, execution)
      ensures issued == old(issued) + [p] && dispatched == old(dispatched) && pendingEvents == old(pendingEvents)
    {
      hide Health, TotalsOf, Announced, ValidSettings, Streak, Records, WindowMatches, PermitsOk, IsProbe, Successes,
           HandlesMatch, ProbesMatch, Probes, Issue, Permit.Matches, Footprint, Mirrors, FieldsMatch;
      Parts();
      ghost var next := Issue(cfg, spec, now, recording, execution);
      IssueShape(cfg, spec, now, recording, execution, next);
      HandlesAppend(issued, spec.permits, p, next.permits);
      Occupy(p, recording && state == HalfOpen, Probes(spec));
      CountAdmission(p, next);
      AdoptParts(next, 0);
    }

    /** The counting part of an admission. */
    method CountAdmission(p: Permit, ghost next: Model)
      requires FieldsMatch(spec) && next == spec.(permits := next.permits)
      requires |next.permits| == |spec.permits| + 1 && TotalsOf(next) == TotalsOf(spec)
      modifies `admitted, `issued, `Repr
      ensures FieldsMatch(next) && issued == old(issued) + [p] && Repr == old(Repr) + {p}
    {
      hide TotalsOf, Streak, Records, Successes;
      admitted := admitted + 1;
      issued := issued + [p];
      Repr := Repr + {p};
    }

    /** A half-open probe takes a slot. */
    method Occupy(p: Permit, probe: bool, ghost probes: set<nat>)
      requires ProbesMatch(halfOpenPermits, issued, probes) && halfOpenActive == |probes|
      requires p.id == |issued| && |issued| !in probes
      modifies `halfOpenActive, `halfOpenPermits
      ensures var grown := probes + if probe then {|issued|} else {};
              ProbesMatch(halfOpenPermits, issued + [p], grown) && halfOpenActive == |grown|
    {
      if probe {
        halfOpenActive := halfOpenActive + 1;
        halfOpenPermits := halfOpenPermits + {p};
        assert |probes + {|issued|}| == |probes| + 1;
      } else {
        assert probes + {} == probes;
      }
    }

    predicate BelongsToCurrentState(p: Permit)
      reads this
    {
      p.generation == generation && p.state == state
    }

    predicate BelongsToCurrentHalfOpen(p: Permit)
      reads this
    {
      p.state == HalfOpen && BelongsToCurrentState(p)
    }

    /** The terminal status of one permit. */
    method Terminate(p: Permit, status: Status)
      requires HandlesMatch(issued, spec.permits) && p in issued
      modifies p`status
      ensures HandlesMatch(issued, spec.permits[p.id := spec.permits[p.id].(status := status)])
    {
      p.status := StatusTag(status);
    }

    /** Handing back a held probe slot (breaker.go:414-425). */
    method ReleaseSlot(p: Permit, ghost status: Status, ghost next: Model)
      requires p.id < |spec.permits| == |issued| && issued[p.id] == p
      requires FieldsMatch(spec) && ProbesMatch(halfOpenPermits, issued, Probes(spec)) && halfOpenActive == |Probes(spec)|
      requires Ended(spec, p.id, status, next)
      requires p.generation == spec.permits[p.id].generation && p.state == spec.permits[p.id].state
      modifies `halfOpenPermits, `halfOpenActive, `changed
      ensures FieldsMatch(next)
      ensures ProbesMatch(halfOpenPermits, issued, Probes(next)) && halfOpenActive == |Probes(next)|
    {
      hide TotalsOf, Streak, Records, Successes, Probes, IsProbe, ProbesMatch;
      ProbesRemove(halfOpenPermits, issued, Probes(spec), p);
      if BelongsToCurrentHalfOpen(p) && p in halfOpenPermits {
        halfOpenPermits := halfOpenPermits - {p};
        halfOpenActive := halfOpenActive - 1;
        SignalLocked();
      }
    }

    /** Expiry and cancellation: the permit becomes terminal and a held probe slot is released. */
    method EndLocked(p: Permit, status: Status)
      requires Valid() && p in issued && p.status == StatusActive && (status.Expired? || status.Canceled?)
      modifies this, p
      ensures Valid() && Repr == old(Repr) && issued == old(issued) && window == old(window)
      ensures dispatched == old(dispatched) && pendingEvents == old(pendingEvents)
      ensures spec == Release(old(spec), p.id, status)
    {
      hide Health, TotalsOf, Announced, ValidSettings, Streak, Records, WindowMatches, PermitsOk, Successes, Release,
           HandlesMatch, ProbesMatch, Footprint, Probes, IsProbe, Permit.Matches, FieldsMatch;
      HandleOf(issued, spec.permits, p);
      ghost var next := Release(spec, p.id, status);
      ReleaseShape(spec, p.id, status, next);
      Terminate(p, status);
      ReleaseSlot(p, status, next);
      Adopt(next, 0);
    }

    /** Lazy expiry: ends every overdue probe of the map (breaker.go:446-452). */
    method ExpireHalfOpenLocked(now: Timestamp)
      requires Valid()
      modifies this, issued
      ensures Valid() && Repr == old(Repr) && issued == old(issued) && window == old(window)
      ensures dispatched == old(dispatched) && pendingEvents == old(pendingEvents)
      ensures spec == ExpireProbes(old(spec), now)
    {
      hide Health, TotalsOf, Announced, ValidSettings, Streak, Records, WindowMatches, PermitsOk, Successes, Release,
           Footprint, IsProbe, Permit.Matches, FieldsMatch, ExpireSet;
      ghost var s0, done: set<nat> := spec, {};
      ExpireNone(s0);
      var todo := halfOpenPermits;
      while todo != {}
        invariant Valid() && Repr == old(Repr) && issued == old(issued) && window == old(window)
        invariant dispatched == old(dispatched) && pendingEvents == old(pendingEvents)
        invariant done <= Overdue(s0, now) && spec == ExpireSet(s0, done)
        invariant forall p :: p in todo ==> p in issued && p.id in Probes(s0) && p.id !in done && issued[p.id] == p
        invariant forall i :: i in Overdue(s0, now) ==> i in done || (i < |issued| && issued[i] in todo)
        decreases |todo|
      {
        var p :| p in todo;
        HandleOf(issued, spec.permits, p);
        ExpireOne(s0, done, p.id);
        todo := todo - {p};
        if p.deadline <= now {
          EndLocked(p, Expired);
          done := done + {p.id};
        }
      }
      assert done == Overdue(s0, now);
      ExpireAll(s0, now);
    }

    // ---------- admission ----------

    /** The lazily observed part of an admission: an elapsed open interval becomes half-open, and overdue
        probes expire (breaker.go:226-230). */
    method SettleLocked(now: Timestamp)
      requires Valid()
      modifies Repr
      ensures Valid() && fresh(Repr - old(Repr)) && issued == old(issued) && dispatched == old(dispatched)
      ensures spec == Settled(cfg, old(spec), now)
    {
      hide Health, TotalsOf, Announced, ValidSettings, Streak, Records, WindowMatches, PermitsOk, IsProbe, Successes,
           HandlesMatch, ProbesMatch, Footprint, Permit.Matches, Commit, HalfOpenFrom, ExpireProbes, FieldsMatch;
      FieldEpoch();
      if state == State.Open {
        HalfOpenIsTransition(cfg, spec, now);
        TransitionLocked(ToHalfOpen, OpenIntervalElapsed, now);
        FieldEpoch();
      }
      if state == HalfOpen {
        ExpireHalfOpenLocked(now);
      }
    }

    /** What an admission reads. */
    lemma Admission()
      requires Valid()
      ensures this in Repr && mode == spec.mode && state == spec.state && nextProbeAt == spec.nextProbeAt
      ensures admitted == |spec.permits| == |issued|
      ensures halfOpenCompleted + halfOpenActive == InUse(spec)
    {
      hide Health, TotalsOf, Announced, ValidSettings, Streak, Records, WindowMatches, PermitsOk, IsProbe, Successes;
    }

    /** One admission attempt (breaker.go:204-253). */
    method TryAcquireLocked(now: Timestamp, execution: bool) returns (reply: Reply, permit: Permit?)
      requires Valid()
      modifies Repr
      ensures Valid() && fresh(Repr - old(Repr)) && dispatched == old(dispatched)
      ensures (spec, reply) == TryAcquire(cfg, old(spec), now, execution)
      ensures if reply.Admitted? then permit != null && permit !in old(Repr) && issued == old(issued) + [permit]
                                      && permit.id == reply.id == |old(issued)|
              else permit == null && issued == old(issued)
    {
      hide Valid, Settled, Issue, InUse;
      Admission();
      permit := null;
      match mode {
        case ForceOpen =>
          reply := Refuse(ErrForceOpen);
          return;
        case Isolated =>
          reply := Refuse(ErrIsolated);
          return;
        case Disabled =>
          reply := Admitted(admitted);
          permit := IssueLocked(now, false, execution);
          return;
        case _ => KnownMode();
      }
      if state == State.Open && now < nextProbeAt {
        reply := Refuse(ErrOpen);
        return;
      }
      SettledFrame(cfg, spec, now);
      SettleLocked(now);
      Admission();
      if state == HalfOpen && halfOpenCompleted + halfOpenActive >= cfg.halfOpen.maxProbes {
        if cfg.wait {
          return MustWait, null;
        }
        reply := Refuse(ErrHalfOpenExhausted);
        return;
      }
      reply := Admitted(admitted);
      permit := IssueLocked(now, true, execution);
    }

    lemma KnownMode()
      requires Valid()
      ensures !spec.mode.UnknownMode?
    {
    }

    method Refuse(cause: Cause) returns (reply: Reply)
      requires Valid()
      modifies Repr
      ensures Valid() && Repr == old(Repr) && issued == old(issued) && dispatched == old(dispatched)
      ensures (spec, reply) == Reject(old(spec), cause)
    {
      var r := RejectLocked(cause);
      reply := Rejected(r);
    }

    // ---------- completion ----------

    /** Lifetime counters and the terminal status; a probe leaves the map but keeps its slot until its
        outcome is processed (breaker.go:312-316, 347-358). */
    method CountCompletion(p: Permit, outcome: Outcome)
      requires Valid() && p in issued && !outcome.Unknown?
      requires p.status == StatusActive || p.status == StatusExpired
      modifies this, p
      ensures Coherent(if p.id in Probes(old(spec)) then 1 else 0)
      ensures Repr == old(Repr) && issued == old(issued) && window == old(window)
      ensures dispatched == old(dispatched) && pendingEvents == old(pendingEvents)
      ensures p.id < |old(spec).permits| && spec == SetStatus(old(spec), p.id, Completed(outcome))
    {
      hide Health, TotalsOf, Announced, ValidSettings, Streak, Records, WindowMatches, PermitsOk, IsProbe, Successes,
           HandlesMatch, ProbesMatch, Footprint, Permit.Matches, SetStatus, Probes, FieldsMatch, Mirrors;
      Parts();
      HandleOf(issued, spec.permits, p);
      ghost var next := SetStatus(spec, p.id, Completed(outcome));
      CompletedShape(spec, p.id, outcome, next);
      Terminate(p, Completed(outcome));
      Unmap(p, Probes(spec));
      RecordLifetime(outcome, next);
      AdoptParts(next, if p.id in Probes(spec) then 1 else 0);
    }

    lemma FieldEpoch()
      requires Valid()
      ensures state == spec.state && generation == spec.generation
    {
    }

    method Unmap(p: Permit, ghost probes: set<nat>)
      requires ProbesMatch(halfOpenPermits, issued, probes) && p.id < |issued| && issued[p.id] == p
      requires p.id in probes ==> BelongsToCurrentHalfOpen(p)
      modifies `halfOpenPermits
      ensures ProbesMatch(halfOpenPermits, issued, probes - {p.id})
    {
      ProbesRemove(halfOpenPermits, issued, probes, p);
      if BelongsToCurrentHalfOpen(p) {
        halfOpenPermits := halfOpenPermits - {p};
      }
    }

    method RecordLifetime(outcome: Outcome, ghost next: Model)
      requires FieldsMatch(spec) && next == spec.(permits := next.permits) && |next.permits| == |spec.permits|
      requires TotalsOf(next) == Counting(TotalsOf(spec), outcome) && !outcome.Unknown?
      modifies `completed, `totalSuccesses, `totalFailures, `totalIgnored
      ensures FieldsMatch(next)
    {
      hide TotalsOf, Streak, Records, Successes;
      completed := completed + 1;
      match outcome
      case Success => totalSuccesses := totalSuccesses + 1;
      case Failure => totalFailures := totalFailures + 1;
      case Ignored => totalIgnored := totalIgnored + 1;
    }

    /** The outcome of a probe (breaker.go:454-486). */
    method CompleteHalfOpenLocked(outcome: Outcome, now: Timestamp, sample: Sample)
      requires Coherent(1) && !outcome.Unknown?
      modifies Repr
      ensures Valid() && fresh(Repr - old(Repr)) && issued == old(issued) && dispatched == old(dispatched)
      ensures spec == CompleteProbe(cfg, old(spec), outcome, now, sample)
    {
      hide Health, TotalsOf, Announced, ValidSettings, Streak, Records, WindowMatches, PermitsOk, IsProbe,
           HandlesMatch, ProbesMatch, Footprint, Permit.Matches, Probes, Commit, OpenFrom, RecoverFrom, FieldsMatch, OpenInterval;
      ghost var s := spec;
      CountProbe(outcome);
      if outcome == Ignored {
        return;
      }
      ghost var judged := spec;
      assert judged == s.(revision := s.revision + 1, trial := s.trial + [outcome]);
      FieldCounts(judged);
      TransitionsAre(cfg, judged, now, sample);
      var policy := cfg.halfOpen;
      if outcome == Failure && policy.immediate {
        TransitionLocked(ToOpen(sample), HalfOpenFailed, now);
        return;
      }
      if policy.requiredSuccesses > 0 && halfOpenSuccesses >= policy.requiredSuccesses {
        TransitionLocked(ToClosed, HalfOpenRecovered, now);
        return;
      }
      if policy.successRatio > 0.0 && halfOpenCompleted >= policy.maxProbes {
        if Ratio(halfOpenSuccesses, halfOpenCompleted) >= policy.successRatio {
          TransitionLocked(ToClosed, HalfOpenRecovered, now);
        } else {
          TransitionLocked(ToOpen(sample), HalfOpenFailed, now);
        }
        return;
      }
      if !policy.immediate && halfOpenCompleted >= policy.maxProbes {
        TransitionLocked(ToOpen(sample), HalfOpenFailed, now);
      }
    }

    /** The released slot and the classified outcome of a completed probe. */
    method CountProbe(outcome: Outcome)
      requires Coherent(1) && !outcome.Unknown?
      modifies this
      ensures Valid() && Repr == old(Repr) && issued == old(issued) && window == old(window)
      ensures dispatched == old(dispatched) && pendingEvents == old(pendingEvents)
      ensures spec == old(spec).(revision := old(spec).revision + 1,
                                 trial := if outcome.Ignored? then old(spec).trial else old(spec).trial + [outcome])
    {
      hide Health, TotalsOf, Announced, ValidSettings, Streak, Records, WindowMatches, PermitsOk, IsProbe, Successes,
           HandlesMatch, ProbesMatch, Footprint, Permit.Matches, Probes;
      ghost var trial := if outcome.Ignored? then spec.trial else spec.trial + [outcome];
      ghost var next := spec.(revision := spec.revision + 1, trial := trial);
      SameEpoch(spec, next);
      SamePermitsSameTotals(spec, next);
      SuccessesAppend(spec.trial, outcome);
      TallyProbe(outcome, next);
      hide FieldsMatch;
      Adopt(next, 0);
    }

    method TallyProbe(outcome: Outcome, ghost next: Model)
      requires FieldsMatch(spec) && TotalsOf(next) == TotalsOf(spec)
      requires next == spec.(revision := spec.revision + 1, trial := next.trial)
      requires |next.trial| == |spec.trial| + (if outcome.Ignored? then 0 else 1)
      requires Successes(next.trial) == Successes(spec.trial) + if outcome.Success? then 1 else 0
      modifies `halfOpenActive, `halfOpenCompleted, `halfOpenSuccesses, `changed
      ensures FieldsMatch(next) && halfOpenActive == old(halfOpenActive) - 1
    {
      hide TotalsOf, Streak, Records, Successes;
      halfOpenActive := halfOpenActive - 1;
      SignalLocked();
      if outcome != Ignored {
        halfOpenCompleted := halfOpenCompleted + 1;
        if outcome == Success {
          halfOpenSuccesses := halfOpenSuccesses + 1;
        }
      }
    }

    lemma FieldCounts(m: Model)
      requires Mirrors(m, 0)
      ensures halfOpenCompleted == |m.trial| && halfOpenSuccesses == Successes(m.trial)
    {
    }

    /** A closed-state completion: record, update the streak, evaluate the rules (breaker.go:328-344). */
    method RecordHealthLocked(outcome: Outcome, slow: bool, now: Timestamp, sample: Sample)
      requires Valid() && !outcome.Unknown?
      modifies Repr
      ensures Valid() && fresh(Repr - old(Repr)) && issued == old(issued) && dispatched == old(dispatched)
      ensures spec == RecordHealth(cfg, old(spec), outcome, slow, now, sample)
    {
      hide Health, TotalsOf, Announced, ValidSettings, Streak, Records, WindowMatches, PermitsOk, IsProbe, Successes,
           HandlesMatch, ProbesMatch, Footprint, Permit.Matches, Probes, Commit, OpenFrom, FieldsMatch, OpenInterval, AppendWindow;
      var snapshot := AddRecord(outcome, slow && outcome != Ignored, now);
      TransitionsAre(cfg, spec, now, sample);
      var open := OpeningDecision(cfg.opening, cfg.minimumThroughput, consecutiveFailures, snapshot);
      if open {
        TransitionLocked(ToOpen(sample), PolicyOpened, now);
      }
    }

    /** The in-place part: the window takes the record and the streak follows it. */
    method AddRecord(outcome: Outcome, slow: bool, now: Timestamp) returns (snapshot: Snapshot)
      requires Valid() && !outcome.Unknown?
      modifies this, Footprint(window)
      ensures Valid() && Repr == old(Repr) && issued == old(issued) && window == old(window)
      ensures dispatched == old(dispatched) && pendingEvents == old(pendingEvents)
      ensures spec == old(spec).(window := AppendWindow(old(spec).window, now, Record(outcome, slow)))
      ensures snapshot == Health(spec.window)
      ensures consecutiveFailures == Streak(Records(spec.window), cfg.opening.resetOnIgnored)
    {
      hide Health, TotalsOf, Announced, ValidSettings, Streak, Records, WindowMatches, PermitsOk, IsProbe, Successes,
           HandlesMatch, ProbesMatch, Permit.Matches, Probes, AppendWindow;
      var record := Record(outcome, slow);
      ghost var next := spec.(window := AppendWindow(spec.window, now, record));
      SameEpoch(spec, next);
      SamePermitsSameTotals(spec, next);
      AppendShape(window, spec.window, now, record, cfg.opening.resetOnIgnored);
      AddToWindow(window, now, record, spec.window);
      snapshot := ReadWindow(window, now, next.window);
      FollowStreak(outcome, next);
      hide FieldsMatch;
      Adopt(next, 0);
    }

    method FollowStreak(outcome: Outcome, ghost next: Model)
      requires !outcome.Unknown? && FieldsMatch(spec) && TotalsOf(next) == TotalsOf(spec)
      requires next == spec.(window := next.window)
      requires Streak(Records(next.window), cfg.opening.resetOnIgnored) ==
               match outcome
               case Success => 0
               case Failure => Streak(Records(spec.window), cfg.opening.resetOnIgnored) + 1
               case _ => if cfg.opening.resetOnIgnored then 0 else Streak(Records(spec.window), cfg.opening.resetOnIgnored)
      modifies `consecutiveFailures
      ensures FieldsMatch(next)
      ensures consecutiveFailures == Streak(Records(next.window), cfg.opening.resetOnIgnored)
    {
      hide TotalsOf, Streak, Records, Successes;
      match outcome {
        case Success => consecutiveFailures := 0;
        case Failure => consecutiveFailures := consecutiveFailures + 1;
        case Ignored =>
          if cfg.opening.resetOnIgnored {
            consecutiveFailures := 0;
          }
      }
    }

    // ---------- critical sections ----------

    /** Between critical sections no event is pending. */
    ghost predicate Quiescent()
      reads this, Repr
    {
      Valid() && pendingEvents == []
    }

    /** Hands the pending events over for dispatch. */
    method TakeEventsLocked() returns (events: seq<Event>)
      requires Valid()
      modifies `pendingEvents, `dispatched
      ensures Quiescent() && spec == old(spec)
      ensures events == old(pendingEvents) && dispatched == old(dispatched) + events
    {
      hide Health, TotalsOf, Announced, ValidSettings, Streak, Records, WindowMatches, PermitsOk, IsProbe, Successes,
           HandlesMatch, ProbesMatch, Footprint, Permit.Matches, Probes;
      events := pendingEvents;
      pendingEvents := [];
      dispatched := dispatched + events;
    }

    /** Quiescent coherence: everything announced has been handed over, exactly once and in order. */
    lemma AllDispatched()
      requires Quiescent()
      ensures dispatched == Announced(cfg, spec.log)
    {
      hide Announced;
    }

    lemma HandleCount()
      requires Valid()
      ensures |issued| == |spec.permits| && forall i :: 0 <= i < |issued| ==> issued[i].id == i
    {
      hide Health, TotalsOf, Announced, ValidSettings, Streak, Records, WindowMatches, PermitsOk, IsProbe, Successes;
    }

    lemma HandleDeadline(p: Permit)
      requires Valid() && p in issued
      ensures p.id < |spec.permits| && p.deadline == spec.permits[p.id].deadline
    {
      hide Health, TotalsOf, Announced, ValidSettings, Streak, Records, WindowMatches, PermitsOk, IsProbe, Successes;
      HandleOf(issued, spec.permits, p);
    }

    /** The admission time a permit was bound to (breaker.go:374-376). */
    method AdmissionTime(p: Permit) returns (at: int)
      requires Valid() && p in issued
      ensures p.id < |spec.permits| && at == spec.permits[p.id].deadline - cfg.permitTTL
    {
      hide Health, TotalsOf, Announced, ValidSettings, Streak, Records, WindowMatches, PermitsOk, IsProbe, Successes;
      HandleOf(issued, spec.permits, p);
      at := p.deadline - cfg.permitTTL;
    }

    /** One iteration of Acquire under the lock (breaker.go:158-186). */
    method AcquireOnce(now: Timestamp, execution: bool) returns (reply: Reply, permit: Permit?, events: seq<Event>)
      requires Quiescent()
      modifies Repr
      ensures Quiescent() && fresh(Repr - old(Repr)) && dispatched == old(dispatched) + events
      ensures (spec, reply) == TryAcquire(cfg, old(spec), now, execution)
      ensures if reply.Admitted? then permit != null && issued == old(issued) + [permit]
                                      && permit.id == reply.id == |old(issued)|
              else permit == null && issued == old(issued)
    {
      hide Health, TotalsOf, Announced, ValidSettings, Streak, Records, WindowMatches, PermitsOk, Successes, IsProbe,
           HandlesMatch, ProbesMatch, Footprint, Permit.Matches, Probes, TryAcquire;
      reply, permit := TryAcquireLocked(now, execution);
      events := TakeEventsLocked();
    }

    /** A waiter whose deadline has passed. */
    method RejectWaiter() returns (reply: Reply)
      requires Quiescent()
      modifies `rejected, `spec
      ensures Quiescent() && (spec, reply) == Reject(old(spec), ErrHalfOpenWaitTimeout)
    {
      hide Mirrors;
      var rejection := RejectLocked(ErrHalfOpenWaitTimeout);
      reply := Rejected(rejection);
    }

    /** A sanitized jitter sample; none is drawn without jitter. */
    function JitterSample(draw: Draw): (sample: Sample) {
      if cfg.jitter == 0.0 then 0.0 else SafeSample(draw)
    }

    /** Completing a permit (breaker.go:288-345). */
    method CompleteAt(p: Permit, outcome: Outcome, slow: bool, now: Timestamp, sample: Sample) returns (reply: Reply, events: seq<Event>)
      requires Quiescent() && p in issued
      modifies Repr
      ensures Quiescent() && fresh(Repr - old(Repr)) && issued == old(issued) && dispatched == old(dispatched) + events
      ensures (spec, reply) == Complete(cfg, old(spec), p.id, outcome, slow, now, sample)
    {
      reply := CompleteLocked(p, outcome, slow, now, sample);
      hide Complete, Mirrors;
      events := TakeEventsLocked();
    }

    method CompleteLocked(p: Permit, outcome: Outcome, slow: bool, now: Timestamp, sample: Sample) returns (reply: Reply)
      requires Valid() && p in issued
      modifies Repr
      ensures Valid() && fresh(Repr - old(Repr)) && issued == old(issued) && dispatched == old(dispatched)
      ensures (spec, reply) == Complete(cfg, old(spec), p.id, outcome, slow, now, sample)
    {
      hide Health, TotalsOf, Announced, ValidSettings, Streak, Records, WindowMatches, PermitsOk, Successes, IsProbe,
           HandlesMatch, ProbesMatch, Footprint, Permit.Matches, SetStatus, Release, RecordHealth, CompleteProbe;
      if outcome.Unknown? {
        return InvalidOutcome;
      }
      HandleOf(issued, spec.permits, p);
      match p.status {
        case StatusCompleted => return PermitCompleted;
        case StatusCanceled => return PermitCanceled;
        case StatusExpired =>
          if p.execution {
            ExpiredIsNoProbe(spec, p.id);
            CountCompletion(p, outcome);
            return Accepted;
          }
          return PermitExpired;
        case StatusActive =>
      }
      if !p.execution && p.deadline <= now {
        EndLocked(p, Expired);
        return PermitExpired;
      }
      ProbeExactly(spec, p.id);
      StatusFrame(spec, p.id, Completed(outcome));
      CountCompletion(p, outcome);
      reply := Accepted;
      if !p.recording || !BelongsToCurrentState(p) {
        return;
      }
      if state == HalfOpen {
        CompleteHalfOpenLocked(outcome, now, sample);
      } else {
        RecordHealthLocked(outcome, slow, now, sample);
      }
    }

    /** Canceling a permit (breaker.go:378-397). */
    method CancelAt(p: Permit, now: int) returns (reply: Reply)
      requires Quiescent() && p in issued
      modifies Repr
      ensures Quiescent() && Repr == old(Repr) && issued == old(issued) && dispatched == old(dispatched)
      ensures (spec, reply) == Cancel(old(spec), p.id, now)
    {
      hide Health, TotalsOf, Announced, ValidSettings, Streak, Records, WindowMatches, PermitsOk, Successes, IsProbe,
           HandlesMatch, ProbesMatch, Footprint, Permit.Matches, Release, Probes;
      HandleOf(issued, spec.permits, p);
      match p.status {
        case StatusCompleted => return PermitCompleted;
        case StatusCanceled => return PermitCanceled;
        case StatusExpired => return PermitExpired;
        case StatusActive =>
      }
      if p.deadline <= now {
        EndLocked(p, Expired);
        return PermitExpired;
      }
      EndLocked(p, Canceled);
      return Accepted;
    }

    /** The administrative override (breaker.go:554-577). */
    method SetMode(requested: Mode, now: Timestamp) returns (reply: Reply, events: seq<Event>)
      requires Quiescent()
      modifies Repr
      ensures Quiescent() && fresh(Repr - old(Repr)) && issued == old(issued) && dispatched == old(dispatched) + events
      ensures (spec, reply) == Step(cfg, old(spec), DoSetMode(requested, now))
    {
      hide Health, TotalsOf, Announced, ValidSettings, Streak, Records, WindowMatches, PermitsOk, Successes, IsProbe,
           HandlesMatch, ProbesMatch, Footprint, Permit.Matches, Commit, Probes;
      events := [];
      if requested.UnknownMode? {
        return UnknownModeError, [];
      }
      if mode == requested {
        return Accepted, [];
      }
      TransitionLocked(ToMode(requested), ModeSet(requested), now);
      assert spec == ModeFrom(cfg, old(spec), requested, now);
      hide Mirrors;
      events := TakeEventsLocked();
      reply := Accepted;
    }

    /** Back to a fresh closed state (breaker.go:610-623). */
    method Reset(now: Timestamp) returns (events: seq<Event>)
      requires Quiescent()
      modifies Repr
      ensures Quiescent() && fresh(Repr - old(Repr)) && issued == old(issued) && dispatched == old(dispatched) + events
      ensures spec == ResetFrom(cfg, old(spec), now)
    {
      hide Health, TotalsOf, Announced, ValidSettings, Streak, Records, WindowMatches, PermitsOk, Successes, IsProbe,
           HandlesMatch, ProbesMatch, Footprint, Permit.Matches, Probes, Commit;
      TransitionLocked(ToReset, WasReset, now);
      assert spec == ResetFrom(cfg, old(spec), now);
      events := TakeEventsLocked();
    }

    /** The copied view (breaker.go:761-770). */
    method TakeSnapshot(now: Timestamp) returns (v: View, totals: Totals)
      requires Quiescent()
      modifies Repr
      ensures Quiescent() && Repr == old(Repr) && issued == old(issued) && dispatched == old(dispatched)
      ensures (spec, Viewed(v)) == Step(cfg, old(spec), DoSnapshot(now)) && totals == TotalsOf(spec)
    {
      hide Health, TotalsOf, Announced, ValidSettings, Streak, Records, WindowMatches, PermitsOk, Successes, IsProbe,
           HandlesMatch, ProbesMatch, Footprint, Permit.Matches, Look, ExpireProbes, Probes;
      if state == HalfOpen {
        ExpireHalfOpenLocked(now);
      }
      v := SnapshotLocked(now);
      totals := Totals(completed, totalSuccesses, totalFailures, totalIgnored);
    }
  }

  /** Only active permits are probes. */
  lemma ExpiredIsNoProbe(s: Model, id: nat)
    requires id < |s.permits| && !s.permits[id].status.Active?
    ensures id !in Probes(s)
  {
  }

  /** An active permit is a probe exactly when it is live in half-open. */
  lemma ProbeExactly(s: Model, id: nat)
    requires id < |s.permits| && s.permits[id].status.Active?
    ensures id in Probes(s) <==> Live(s, s.permits[id]) && s.state == HalfOpen
  {
  }

  lemma StatusFrame(s: Model, id: nat, status: Status)
    requires id < |s.permits|
    ensures var t := SetStatus(s, id, status); t.state == s.state && t.generation == s.generation && t.mode == s.mode
  {
  }

  lemma HalfOpenIsTransition(cfg: Settings, s: Model, now: int)
    requires ValidSettings(cfg)
    ensures Transitioned(cfg, s, ToHalfOpen, OpenIntervalElapsed, now) == HalfOpenFrom(cfg, s, now)
    ensures HalfOpenFrom(cfg, s, now).state == HalfOpen && HalfOpenFrom(cfg, s, now).mode == s.mode
  {
    hide Health, Probes;
  }

  lemma SettledFrame(cfg: Settings, s: Model, now: int)
    ensures Settled(cfg, s, now).mode == s.mode
    ensures s.state.Open? ==> Settled(cfg, s, now).state == HalfOpen
    ensures !s.state.Open? ==> Settled(cfg, s, now).state == s.state
  {
    hide Health, Probes;
  }

  lemma TransitionsAre(cfg: Settings, s: Model, now: int, sample: Sample)
    requires ValidSettings(cfg)
    ensures Transitioned(cfg, s, ToOpen(sample), PolicyOpened, now) == OpenFrom(cfg, s, PolicyOpened, now, sample)
    ensures Transitioned(cfg, s, ToOpen(sample), HalfOpenFailed, now) == OpenFrom(cfg, s, HalfOpenFailed, now, sample)
    ensures Transitioned(cfg, s, ToClosed, HalfOpenRecovered, now) == RecoverFrom(cfg, s, now)
  {
    hide Health, Probes, OpenInterval, Commit;
  }

  lemma CompletedShape(s: Model, id: nat, outcome: Outcome, next: Model)
    requires PermitsOk(s) && id < |s.permits| && !s.permits[id].status.Completed? && !outcome.Unknown?
    requires next == SetStatus(s, id, Completed(outcome))
    ensures next == s.(permits := next.permits) && PermitsOk(next)
    ensures next.permits == s.permits[id := s.permits[id].(status := Completed(outcome))]
    ensures Probes(next) == Probes(s) - {id}
    ensures |Probes(next)| == |Probes(s)| - if id in Probes(s) then 1 else 0
    ensures id in Probes(s) ==> s.permits[id].generation == s.generation && s.permits[id].state == s.state == HalfOpen
    ensures TotalsOf(next) == Counting(TotalsOf(s), outcome)
  {
    ProbesAfterStatus(s, id, Completed(outcome));
    StatusTotals(s, id, Completed(outcome));
    assert forall i :: 0 <= i < |s.permits| ==> PermitOk(s, s.permits[i]);
    assert forall i :: 0 <= i < |next.permits| ==> PermitOk(next, next.permits[i]);
  }

  lemma SuccessesAppend(trial: seq<Outcome>, outcome: Outcome)
    ensures Successes(trial + [outcome]) == Successes(trial) + if outcome.Success? then 1 else 0
  {
    assert (trial + [outcome])[..|trial|] == trial;
  }

  /** Recording at `now` already observes `now`, and extends the record list by one. */
  lemma AppendShape(w: RollingWindow, m: WindowModel, now: int, record: Record, resetOnIgnored: bool)
    requires WindowMatches(w, m) && ValidRecord(record)
    ensures ObserveWindow(AppendWindow(m, now, record), now) == AppendWindow(m, now, record)
    ensures Records(AppendWindow(m, now, record)) == Records(m) + [record]
    ensures Streak(Records(AppendWindow(m, now, record)), resetOnIgnored) ==
            match record.outcome
            case Success => 0
            case Failure => Streak(Records(m), resetOnIgnored) + 1
            case _ => if resetOnIgnored then 0 else Streak(Records(m), resetOnIgnored)
  {
    assert Records(AppendWindow(m, now, record)) == Records(m) + [record];
    assert (Records(m) + [record])[..|Records(m)|] == Records(m);
  }

  /** Expiry of any set of probes. */
  function ExpireSet(s: Model, ids: set<nat>): Model {
    s.(permits := seq(|s.permits|, i requires 0 <= i < |s.permits| =>
         if i in ids then s.permits[i].(status := Expired) else s.permits[i]),
       revision := s.revision + |ids|)
  }

  lemma ExpireNone(s: Model)
    ensures ExpireSet(s, {}) == s
  {
    assert ExpireSet(s, {}).permits == s.permits;
  }

  lemma ExpireAll(s: Model, now: int)
    ensures ExpireSet(s, Overdue(s, now)) == ExpireProbes(s, now)
  {
    assert ExpireSet(s, Overdue(s, now)).permits == ExpireProbes(s, now).permits;
  }

  /** Ending one more probe extends the expired set; expiring others left it an active probe. */
  lemma ExpireOne(s: Model, done: set<nat>, id: nat)
    requires id in Probes(s) && id !in done && done <= Probes(s)
    ensures id < |s.permits| == |ExpireSet(s, done).permits|
    ensures ExpireSet(s, done).permits[id] == s.permits[id] && s.permits[id].status.Active?
    ensures Release(ExpireSet(s, done), id, Expired) == ExpireSet(s, done + {id})
  {
    var e := ExpireSet(s, done);
    assert |done + {id}| == |done| + 1;
    assert Release(e, id, Expired).permits == ExpireSet(s, done + {id}).permits;
  }

  /** How ending a permit without an outcome changes the reference state. */
  ghost predicate Ended(s: Model, id: nat, status: Status, next: Model)
    requires id < |s.permits|
  {
    && next == s.(permits := s.permits[id := s.permits[id].(status := status)],
                  revision := if id in Probes(s) then s.revision + 1 else s.revision)
    && (id in Probes(s) ==> s.permits[id].generation == s.generation && s.permits[id].state == s.state == HalfOpen)
    && Probes(next) == Probes(s) - {id}
    && TotalsOf(next) == TotalsOf(s)
  }

  lemma HandleOf(issued: seq<Permit>, permits: seq<PermitRecord>, p: Permit)
    requires HandlesMatch(issued, permits) && p in issued
    ensures p.id < |issued| == |permits| && issued[p.id] == p && p.Matches(permits[p.id])
    ensures p.status == StatusTag(permits[p.id].status)
    ensures p.generation == permits[p.id].generation && p.state == permits[p.id].state
    ensures p.deadline == permits[p.id].deadline && p.recording == permits[p.id].recording
    ensures p.execution == permits[p.id].execution
  {
  }

  lemma ProbesRemove(probeMap: set<Permit>, issued: seq<Permit>, probes: set<nat>, p: Permit)
    requires ProbesMatch(probeMap, issued, probes) && p.id < |issued| && issued[p.id] == p
    ensures p in probeMap <==> p.id in probes
    ensures ProbesMatch(probeMap - {p}, issued, probes - {p.id})
    ensures p !in probeMap ==> probeMap - {p} == probeMap && probes - {p.id} == probes
  {
  }

  lemma RejectedSame(s: Model, cause: Cause)
    requires PermitsOk(s)
    ensures var r := Reject(s, cause).0;
            PermitsOk(r) && Probes(r) == Probes(s) && TotalsOf(r) == TotalsOf(s)
  {
    SameEpoch(s, Reject(s, cause).0);
    SamePermitsSameTotals(s, Reject(s, cause).0);
  }

  lemma IssueShape(cfg: Settings, s: Model, now: int, recording: bool, execution: bool, next: Model)
    requires PermitsOk(s) && next == Issue(cfg, s, now, recording, execution)
    requires (recording <==> s.mode.Normal?) && (recording ==> s.state != State.Open)
    ensures next == s.(permits := next.permits) && PermitsOk(next) && TotalsOf(next) == TotalsOf(s)
    ensures next.permits == s.permits + [PermitRecord(s.generation, s.state, now + cfg.permitTTL, recording, execution, Active)]
    ensures |s.permits| !in Probes(s)
    ensures Probes(next) == Probes(s) + if recording && s.state == HalfOpen then {|s.permits|} else {}
  {
    ProbesAfterIssue(cfg, s, now, recording, execution);
    IssueTotals(cfg, s, now, recording, execution);
    assert forall i :: 0 <= i < |s.permits| ==> PermitOk(s, s.permits[i]);
    assert forall i :: 0 <= i < |next.permits| ==> PermitOk(next, next.permits[i]);
  }

  lemma HandlesAppend(issued: seq<Permit>, permits: seq<PermitRecord>, p: Permit, more: seq<PermitRecord>)
    requires HandlesMatch(issued, permits) && |more| == |permits| + 1 && more[..|permits|] == permits
    requires p.id == |permits| && p.Matches(more[|permits|])
    ensures HandlesMatch(issued + [p], more)
  {
  }

  lemma ReleaseShape(s: Model, id: nat, status: Status, next: Model)
    requires PermitsOk(s) && id < |s.permits| && s.permits[id].status.Active? && (status.Expired? || status.Canceled?)
    requires next == Release(s, id, status)
    ensures Ended(s, id, status, next) && PermitsOk(next)
  {
    ProbesAfterStatus(s, id, status);
    StatusTotals(s, id, status);
    assert forall i :: 0 <= i < |s.permits| ==> PermitOk(s, s.permits[i]);
    assert forall i :: 0 <= i < |next.permits| ==> PermitOk(next, next.permits[i]);
    assert Probes(next) == Probes(SetStatus(s, id, status));
  }

  /** No mutation touches permits, counters, sample or log. */
  lemma MutatedFrame(cfg: Settings, s: Model, mutation: Mutation, now: int)
    requires ValidSettings(cfg)
    ensures var next := Mutated(cfg, s, mutation, now);
            && next.permits == s.permits && next.generation == s.generation && next.log == s.log
            && next.trial == s.trial && next.rejected == s.rejected && next.revision == s.revision
            && next.lastTransition == s.lastTransition
            && (!s.mode.UnknownMode? && !(mutation.ToMode? && mutation.mode.UnknownMode?) ==> !next.mode.UnknownMode?)
  {
  }

  /** A transition of the reference machine, by mutation. */
  ghost function Transitioned(cfg: Settings, s: Model, mutation: Mutation, reason: Reason, now: int): Model
    requires ValidSettings(cfg)
  {
    var o := Observed(s, now);
    Commit(cfg, o, Mutated(cfg, o, mutation, now), reason, now)
  }

  /** A commit field by field. */
  lemma CommitShape(cfg: Settings, o: Model, mutation: Mutation, next: Model, c: Model, reason: Reason, now: int, after: View)
    requires ValidSettings(cfg) && PermitsOk(o)
    requires next == Mutated(cfg, o, mutation, now) && c == Commit(cfg, o, next, reason, now)
    requires after == View(next.state, next.mode, o.generation + 1, |o.log| + 1, now,
                           Health(ObserveWindow(next.window, now)), |o.permits|, o.rejected, 0, 0, 0,
                           next.openDuration, next.nextProbeAt)
    ensures c.state == next.state && c.mode == next.mode && c.generation == o.generation + 1
    ensures c.lastTransition == now && c.openings == next.openings && c.openDuration == next.openDuration
    ensures c.nextProbeAt == next.nextProbeAt && c.trial == [] && c.permits == o.permits
    ensures c.rejected == o.rejected && c.revision == o.revision + 1 && |c.log| == |o.log| + 1
    ensures c.window == if cfg.delivery.NoObserver? then next.window else ObserveWindow(next.window, now)
    ensures Records(c.window) == Records(next.window)
    ensures Probes(c) == {} && PermitsOk(c) && TotalsOf(c) == TotalsOf(o) && Successes(c.trial) == 0
    ensures Announced(cfg, c.log) == if cfg.delivery.NoObserver? then Announced(cfg, o.log)
                                     else Announced(cfg, o.log) + [Event(Look(o), after, reason, now)]
  {
    hide Health, OpenInterval;
    MutatedFrame(cfg, o, mutation, now);
    hide Mutated;
    ProbesAfterCommit(cfg, o, next, reason, now);
    CommittedPermits(o, c);
    SamePermitsSameTotals(o, c);
    CommittedView(cfg, o, next, now, after);
    assert EventsOf(c.log) == EventsOf(o.log) + [c.log[|o.log|].event];
  }

  lemma CommittedPermits(o: Model, c: Model)
    requires PermitsOk(o) && c.permits == o.permits && c.generation == o.generation + 1
    ensures PermitsOk(c)
  {
    assert forall i :: 0 <= i < |o.permits| ==> PermitOk(o, o.permits[i]);
    assert forall i :: 0 <= i < |c.permits| ==> PermitOk(c, c.permits[i]);
  }

  lemma CommittedView(cfg: Settings, o: Model, next: Model, now: int, after: View)
    requires PermitsOk(o) && next.permits == o.permits && next.generation == o.generation && next.rejected == o.rejected
    requires after == View(next.state, next.mode, o.generation + 1, |o.log| + 1, now,
                           Health(ObserveWindow(next.window, now)), |o.permits|, o.rejected, 0, 0, 0,
                           next.openDuration, next.nextProbeAt)
    ensures var moved := next.(generation := next.generation + 1, lastTransition := now, trial := [],
                               revision := next.revision + 1);
            Look(Observed(moved, now)).(transitions := |o.log| + 1) == after
  {
    hide Health;
    var moved := next.(generation := next.generation + 1, lastTransition := now, trial := [], revision := next.revision + 1);
    var seen := Observed(moved, now);
    assert Probes(seen) == {} by {
      forall i | 0 <= i < |seen.permits|
        ensures !IsProbe(seen, seen.permits[i])
      {
        assert PermitOk(o, o.permits[i]);
      }
    }
  }

  /** Observing the window changes nothing else that a field mirrors. */
  lemma ObservedSame(s: Model, now: int)
    requires PermitsOk(s)
    ensures var o := Observed(s, now);
            && PermitsOk(o) && Probes(o) == Probes(s) && TotalsOf(o) == TotalsOf(s)
            && Records(o.window) == Records(s.window)
  {
    SameEpoch(s, Observed(s, now));
  }
}
