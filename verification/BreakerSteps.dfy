/** What each call does to the breaker, field by field and without reference to how the machine computes it:
    the whole effect of a completion, a cancellation, a mode change, a reset, a snapshot and an admission,
    from any reachable state. */
module BreakerSteps {
  import opened Window
  import opened Config
  import opened Policy
  import opened BreakerModel
  import opened BreakerInvariants
  import opened ProbeVerdict
  import opened BreakerLifetime
  import opened BreakerSafety
  import CountRing = CountWindow
  import TimeRing = TimeWindow

  // ---------- what stays ----------

  predicate SameSchedule(s: Model, t: Model) {
    t.openings == s.openings && t.openDuration == s.openDuration && t.nextProbeAt == s.nextProbeAt
  }

  /** A window that was read at `now`: its records as they were and, for a time window, the later of the bucket
      it had observed and the bucket of `now`. */
  predicate WindowRead(s: Model, t: Model, now: int) {
    match s.window
    case CountModel(_, _) => t.window == s.window
    case TimeModel(duration, count, entries, progress) =>
      duration > 0 &&
      t.window == TimeModel(duration, count, entries,
                            TimeRing.Seen(if progress.Seen? && now / duration < progress.bucket then progress.bucket
                                          else now / duration))
  }

  /** The health that the latest transition was decided on, as its event shows it. */
  predicate Showed(t: Model, health: Snapshot) {
    t.log != [] && t.log[|t.log| - 1].event.before.health == health
  }

  /** The before-view of an event: the state that was left, with its probe counts. */
  ghost predicate Left(s: Model, view: View, trial: seq<Outcome>, active: int) {
    && view.state == s.state && view.mode == s.mode && view.generation == s.generation && view.transitions == |s.log|
    && view.lastTransition == s.lastTransition && view.admitted == |s.permits| && view.rejected == s.rejected
    && view.active == active && view.completedProbes == |trial| && view.successfulProbes == multiset(trial)[Success]
    && view.openDuration == s.openDuration && view.nextProbeAt == s.nextProbeAt
  }

  /** Exactly one transition has happened: the next generation, logged with its reason and time, the sample
      and probes of the last one gone, every waiter signaled, the event's before-view the state left and its
      after-view what a snapshot would show now. */
  ghost predicate MovedOn(s: Model, t: Model, trial: seq<Outcome>, active: int, reason: Reason, now: int) {
    && t.generation == s.generation + 1
    && |t.log| == |s.log| + 1 && t.log[..|s.log|] == s.log
    && t.log[|s.log|].event.reason == reason && t.log[|s.log|].event.at == now && t.log[|s.log|].trial == trial
    && t.lastTransition == now
    && t.trial == [] && Probes(t) == {}
    && t.revision > s.revision
    && Left(s, t.log[|s.log|].event.before, trial, active)
    && t.log[|s.log|].event.after == Look(Observed(t, now))
  }

  /** A fresh window of the configured kind, empty for every later reading. */
  predicate EmptyWindow(cfg: Settings, w: WindowModel) {
    match cfg.window
    case ByCount(size) => w == CountModel(size, [])
    case ByTime(duration, count) => w.TimeModel? && w.duration == duration && w.count == count && w.entries == []
  }

  // ---------- one committed transition ----------

  lemma CommitMoves(cfg: Settings, s: Model, next: Model, reason: Reason, now: int)
    requires PermitsOk(s) && next.permits == s.permits && next.generation == s.generation && next.log == s.log
    requires next.revision == s.revision
    ensures var t := Commit(cfg, s, next, reason, now);
            && MovedOn(s, t, s.trial, |Probes(s)|, reason, now)
            && t.state == next.state && t.mode == next.mode && SameSchedule(next, t)
            && t.permits == s.permits && t.rejected == next.rejected
            && (t.window == next.window || t.window == ObserveWindow(next.window, now))
            && Showed(t, Health(s.window))
  {
    hide Health, IsProbe, PermitOk;
    ProbesAfterCommit(cfg, s, next, reason, now);
    var t := Commit(cfg, s, next, reason, now);
    assert t.log[..|s.log|] == s.log;
    assert Observed(t, now).window == ObserveWindow(next.window, now);
    SuccessesOfBag(s.trial);
    SameEpochProbes(t, Observed(t, now));
    var moved := next.(generation := next.generation + 1, lastTransition := now, trial := [], revision := next.revision + 1);
    SameEpochProbes(t, Observed(moved, now));
  }

  lemma SameEpochProbes(s: Model, t: Model)
    requires t.permits == s.permits && t.generation == s.generation && t.state == s.state
    ensures Probes(t) == Probes(s)
  {
  }

  /** Reading twice at the same time is reading once. */
  lemma ReadOnce(cfg: Settings, s: Model, t: Model, now: int)
    requires ValidSettings(cfg) && WindowOk(cfg, s.window)
    requires var w := ObserveWindow(s.window, now); t.window == w || t.window == ObserveWindow(w, now)
    ensures WindowRead(s, t, now)
  {
  }

  lemma SameReading(s: Model, o: Model, t: Model, now: int, health: Snapshot)
    requires WindowRead(s, o, now) && Showed(o, health) && t.window == o.window && t.log == o.log
    ensures WindowRead(s, t, now) && Showed(t, health)
  {
  }

  lemma ObservedParts(cfg: Settings, s: Model, now: int)
    requires ValidSettings(cfg) && Inv(cfg, s)
    ensures var o := Observed(s, now);
            && PermitsOk(o) && WindowRead(s, o, now) && Health(o.window) == HealthAt(s.window, now)
            && o == s.(window := o.window)
  {
    ObserveKeeps(cfg, s, now);
    ObservedHealth(cfg, s, now);
  }

  // ---------- mode and reset ----------

  /** SetMode: a known mode is the mode afterwards. If it differed, exactly one transition with that reason
      happens, and policy state, records, schedule, permits and counters stay; if not, nothing changes. An
      unknown mode changes nothing and is refused. */
  lemma {:induction false} ModeChange(cfg: Settings, s: Model, mode: Mode, now: int)
    requires ValidSettings(cfg) && Inv(cfg, s)
    ensures var (t, reply) := Step(cfg, s, DoSetMode(mode, now));
            if mode.UnknownMode? then t == s && reply == UnknownModeError
            else
              && reply == Accepted && t.mode == mode
              && (s.mode == mode ==> t == s)
              && (s.mode != mode ==>
                    && MovedOn(s, t, s.trial, |Probes(s)|, ModeSet(mode), now)
                    && t.state == s.state && WindowRead(s, t, now) && SameSchedule(s, t)
                    && Showed(t, HealthAt(s.window, now))
                    && t.permits == s.permits && t.rejected == s.rejected)
  {
    hide Inv, Commit, MovedOn;
    if !mode.UnknownMode? && mode != s.mode {
      ObservedParts(cfg, s, now);
      var o := Observed(s, now);
      CommitMoves(cfg, o, o.(mode := mode), ModeSet(mode), now);
      SameEpochProbes(s, o);
      MovedFrom(s, o, ModeFrom(cfg, s, mode, now), s.trial, |Probes(s)|, ModeSet(mode), now);
    }
  }

  /** A transition of the observed state is one of the state itself. */
  lemma MovedFrom(s: Model, o: Model, t: Model, trial: seq<Outcome>, active: int, reason: Reason, now: int)
    requires MovedOn(o, t, trial, active, reason, now)
    requires o == s.(window := o.window, permits := o.permits, trial := o.trial, revision := o.revision)
    requires |o.permits| == |s.permits| && s.revision <= o.revision
    ensures MovedOn(s, t, trial, active, reason, now)
  {
    hide Look, Probes;
  }

  /** Reset: exactly one transition, always, to a closed breaker in normal mode with an empty window and no
      open schedule; permits and counters stay. */
  lemma {:induction false} ResetEffect(cfg: Settings, s: Model, now: int)
    requires ValidSettings(cfg) && Inv(cfg, s)
    ensures var (t, reply) := Step(cfg, s, DoReset(now));
            && reply == Accepted
            && MovedOn(s, t, s.trial, |Probes(s)|, WasReset, now) && Showed(t, HealthAt(s.window, now))
            && t.state.Closed? && t.mode.Normal? && EmptyWindow(cfg, t.window)
            && t.openings == 0 && t.openDuration == 0 && t.nextProbeAt == ZERO_TIME
            && t.permits == s.permits && t.rejected == s.rejected
  {
    hide Inv, Commit, MovedOn;
    ObservedParts(cfg, s, now);
    var o := Observed(s, now);
    CommitMoves(cfg, o, Cleared(cfg, o).(mode := Normal), WasReset, now);
    SameEpochProbes(s, o);
    MovedFrom(s, o, ResetFrom(cfg, s, now), s.trial, |Probes(s)|, WasReset, now);
  }

  // ---------- opening and recovering ----------

  /** The open schedule after an opening: one more opening, the interval of that opening under this sample,
      and the probe time that far from now. */
  ghost predicate Opened(cfg: Settings, s: Model, t: Model, now: int, sample: Sample)
    requires ValidSettings(cfg)
  {
    && t.state.Open? && t.mode == s.mode
    && t.openings == s.openings + 1
    && t.openDuration == OpenInterval(cfg, s.openings + 1, sample)
    && t.nextProbeAt == now + t.openDuration
  }

  predicate Recovered(cfg: Settings, s: Model, t: Model) {
    && t.state.Closed? && t.mode == s.mode && EmptyWindow(cfg, t.window)
    && t.openings == 0 && t.openDuration == 0 && t.nextProbeAt == ZERO_TIME
  }

  lemma OpenMoves(cfg: Settings, s: Model, reason: Reason, now: int, sample: Sample)
    requires ValidSettings(cfg) && PermitsOk(s)
    ensures var t := OpenFrom(cfg, s, reason, now, sample);
            && MovedOn(s, t, s.trial, |Probes(s)|, reason, now) && Opened(cfg, s, t, now, sample)
            && Showed(t, Health(ObserveWindow(s.window, now)))
            && (WindowOk(cfg, s.window) ==> WindowRead(s, t, now)) && t.permits == s.permits && t.rejected == s.rejected
            && (Observed(s, now) == s ==> t.window == s.window)
  {
    hide Commit, MovedOn, OpenInterval, ValidSettings, PermitsOk, Probes, WindowRead, WindowOk, Showed, Health, ObserveWindow;
    var o := Observed(s, now);
    SameEpoch(s, o);
    var duration := OpenInterval(cfg, o.openings + 1, sample);
    CommitMoves(cfg, o, o.(state := State.Open, openings := o.openings + 1, openDuration := duration, nextProbeAt := now + duration),
                reason, now);
    MovedFrom(s, o, OpenFrom(cfg, s, reason, now, sample), s.trial, |Probes(s)|, reason, now);
    if WindowOk(cfg, s.window) {
      ReadOnce(cfg, s, OpenFrom(cfg, s, reason, now, sample), now);
    }
  }

  lemma RecoverMoves(cfg: Settings, s: Model, now: int)
    requires ValidSettings(cfg) && PermitsOk(s)
    ensures var t := RecoverFrom(cfg, s, now);
            && MovedOn(s, t, s.trial, |Probes(s)|, HalfOpenRecovered, now) && Recovered(cfg, s, t)
            && Showed(t, Health(ObserveWindow(s.window, now)))
            && t.permits == s.permits && t.rejected == s.rejected
  {
    hide Commit, MovedOn, ValidSettings, PermitOk;
    var o := Observed(s, now);
    SameEpoch(s, o);
    CommitMoves(cfg, o, Cleared(cfg, o), HalfOpenRecovered, now);
    MovedFrom(s, o, RecoverFrom(cfg, s, now), s.trial, |Probes(s)|, HalfOpenRecovered, now);
  }

  // ---------- completions that count ----------

  /** An active permit of the current epoch that records, completed in time or by Execute. */
  predicate InForce(s: Model, id: nat, now: int) {
    && id < |s.permits|
    && var p := s.permits[id];
       p.status == Active && p.recording && p.generation == s.generation && p.state == s.state
       && (p.execution || now < p.deadline)
  }

  function Ending(s: Model, id: nat, status: Status): seq<PermitRecord>
    requires id < |s.permits|
  {
    s.permits[id := s.permits[id].(status := status)]
  }

  /** The window with one more record: a count window appends it, a time window in the bucket of `now` or in
      the latest one it has observed. */
  predicate Recorded(s: Model, t: Model, record: Record, now: int) {
    match s.window
    case CountModel(size, records) => t.window == CountModel(size, records + [record])
    case TimeModel(duration, count, entries, progress) =>
      duration > 0 &&
      var bucket := if progress.Seen? && now / duration < progress.bucket then progress.bucket else now / duration;
      t.window == TimeModel(duration, count, entries + [TimeRing.Entry(bucket, record)], TimeRing.Seen(bucket))
  }

  lemma AppendRecords(cfg: Settings, s: Model, now: int, record: Record)
    requires ValidSettings(cfg) && WindowOk(cfg, s.window)
    ensures var r := s.(window := AppendWindow(s.window, now, record));
            Recorded(s, r, record, now) && Observed(r, now) == r && Records(r.window) == Records(s.window) + [record]
  {
    assert Records(AppendWindow(s.window, now, record)) == Records(s.window) + [record];
  }

  lemma StreakMoves(records: seq<Record>, record: Record, resetOnIgnored: bool)
    ensures Streak(records + [record], resetOnIgnored) ==
            match record.outcome
            case Success => 0
            case Failure => Streak(records, resetOnIgnored) + 1
            case Ignored => if resetOnIgnored then 0 else Streak(records, resetOnIgnored)
            case Unknown(_) => Streak(records, resetOnIgnored)
  {
    assert (records + [record])[..|records|] == records;
  }

  /** Completing a permit in force on a closed breaker, for every outcome and slow mark: exactly that record
      joins the evidence, ignored ones never slow; the streak follows it; and the breaker opens, once, exactly
      when the rules hold of the new evidence. Nothing else changes. */
  lemma {:induction false} ClosedCompletion(cfg: Settings, s: Model, id: nat, outcome: Outcome, slow: bool, now: int, sample: Sample)
    requires ValidSettings(cfg) && Inv(cfg, s) && s.state.Closed? && InForce(s, id, now) && !outcome.Unknown?
    ensures var (t, reply) := Step(cfg, s, DoComplete(id, outcome, slow, now, sample));
            var record := Record(outcome, slow && outcome != Ignored);
            var streak := Streak(Records(s.window), cfg.opening.resetOnIgnored);
            var streak' := match outcome
                           case Success => 0
                           case Failure => streak + 1
                           case _ => if cfg.opening.resetOnIgnored then 0 else streak;
            && reply == Accepted
            && Recorded(s, t, record, now) && Records(t.window) == Records(s.window) + [record]
            && Streak(Records(t.window), cfg.opening.resetOnIgnored) == streak'
            && t.permits == Ending(s, id, Completed(outcome)) && t.rejected == s.rejected
            && if Opens(cfg.opening, cfg.minimumThroughput, streak', Health(t.window)) then
                 MovedOn(s, t, [], 0, PolicyOpened, now) && Opened(cfg, s, t, now, sample) && Showed(t, Health(t.window))
               else t == s.(window := t.window, permits := t.permits)
  {
    hide Health, Opens, Streak, OpenFrom, MovedOn, Opened, Recorded, AppendWindow, OpenInterval, PermitOk;
    var record := Record(outcome, slow && outcome != Ignored);
    var counted := SetStatus(s, id, Completed(outcome));
    StatusKeeps(cfg, s, id, Completed(outcome));
    AppendRecords(cfg, s, now, record);
    StreakMoves(Records(s.window), record, cfg.opening.resetOnIgnored);
    var recorded := counted.(window := AppendWindow(s.window, now, record));
    SameEpoch(counted, recorded);
    OpenMoves(cfg, recorded, PolicyOpened, now, sample);
    var t := OpenFrom(cfg, recorded, PolicyOpened, now, sample);
    NoProbesClosed(recorded);
    MovedFrom(s, recorded, t, [], 0, PolicyOpened, now);
    RecordedSame(s, s.(window := AppendWindow(s.window, now, record)), t, record, now);
    RecordedSame(s, s.(window := AppendWindow(s.window, now, record)), recorded, record, now);
    OpenedFrom(cfg, s, recorded, t, now, sample);
    InForceLive(cfg, s, id, now);
  }

  lemma NoProbesClosed(s: Model)
    requires s.state.Closed?
    ensures Probes(s) == {}
  {
  }

  lemma RecordedSame(s: Model, r: Model, t: Model, record: Record, now: int)
    requires Recorded(s, r, record, now) && t.window == r.window
    ensures Recorded(s, t, record, now)
  {
  }

  lemma OpenedFrom(cfg: Settings, s: Model, o: Model, t: Model, now: int, sample: Sample)
    requires ValidSettings(cfg) && Opened(cfg, o, t, now, sample) && o.openings == s.openings && o.mode == s.mode
    ensures Opened(cfg, s, t, now, sample)
  {
  }

  /** Such a permit is live, its breaker in normal mode and, when closed, without a sample. */
  lemma InForceLive(cfg: Settings, s: Model, id: nat, now: int)
    requires ValidSettings(cfg) && Inv(cfg, s) && InForce(s, id, now)
    ensures Live(s, s.permits[id]) && s.mode.Normal? && (s.state.Closed? ==> s.trial == [])
    ensures s.state.HalfOpen? ==> id in Probes(s)
  {
    assert PermitOk(s, s.permits[id]);
  }

  /** Completing a permit in force on a half-open breaker: its slot is handed back with a signal; an ignored
      outcome does no more; a classified one joins the sample, which then decides, by its bag of outcomes,
      whether the generation goes on, recovers or fails. */
  lemma {:induction false} ProbeCompletion(cfg: Settings, s: Model, id: nat, outcome: Outcome, slow: bool, now: int, sample: Sample)
    requires ValidSettings(cfg) && Inv(cfg, s) && s.state.HalfOpen? && InForce(s, id, now) && !outcome.Unknown?
    ensures var (t, reply) := Step(cfg, s, DoComplete(id, outcome, slow, now, sample));
            var trial := s.trial + [outcome];
            && reply == Accepted
            && t.permits == Ending(s, id, Completed(outcome)) && t.rejected == s.rejected
            && if outcome.Ignored? then t == s.(permits := t.permits, revision := s.revision + 1)
               else match Decision(cfg.halfOpen, trial)
                    case Undecided => t == s.(permits := t.permits, revision := s.revision + 1, trial := trial)
                    case Recovers => MovedOn(s, t, trial, |Probes(s)| - 1, HalfOpenRecovered, now) && Recovered(cfg, s, t)
                                     && Showed(t, HealthAt(s.window, now))
                    case Fails => MovedOn(s, t, trial, |Probes(s)| - 1, HalfOpenFailed, now) && Opened(cfg, s, t, now, sample)
                                  && WindowRead(s, t, now) && Showed(t, HealthAt(s.window, now))
  {
    hide Health, HealthAt, Decision, CompleteProbe, MovedOn, Opened, Recovered, Showed, WindowRead, Step, Inv;
    ProbeStep(cfg, s, id, outcome, slow, now, sample);
    if outcome.Ignored? {
      ProbeIgnored(cfg, s, id, now, sample);
    } else {
      ProbeJudged(cfg, s, id, outcome, now, sample);
    }
  }

  /** A permit in force on a half-open breaker completes as a probe. */
  lemma ProbeStep(cfg: Settings, s: Model, id: nat, outcome: Outcome, slow: bool, now: int, sample: Sample)
    requires ValidSettings(cfg) && Inv(cfg, s) && s.state.HalfOpen? && InForce(s, id, now) && !outcome.Unknown?
    ensures Step(cfg, s, DoComplete(id, outcome, slow, now, sample)) ==
            (CompleteProbe(cfg, SetStatus(s, id, Completed(outcome)), outcome, now, sample), Accepted)
  {
    hide CompleteProbe, RecordHealth;
    InForceLive(cfg, s, id, now);
  }

  lemma ProbeIgnored(cfg: Settings, s: Model, id: nat, now: int, sample: Sample)
    requires ValidSettings(cfg) && id < |s.permits|
    ensures CompleteProbe(cfg, SetStatus(s, id, Completed(Ignored)), Ignored, now, sample) ==
            s.(permits := Ending(s, id, Completed(Ignored)), revision := s.revision + 1)
  {
    hide Judge, RecoverFrom, OpenFrom, ValidSettings;
  }

  lemma {:induction false} ProbeJudged(cfg: Settings, s: Model, id: nat, outcome: Outcome, now: int, sample: Sample)
    requires ValidSettings(cfg) && Inv(cfg, s) && s.state.HalfOpen? && InForce(s, id, now) && ClassifiedOutcome(outcome)
    ensures var t := CompleteProbe(cfg, SetStatus(s, id, Completed(outcome)), outcome, now, sample);
            var trial := s.trial + [outcome];
            && t.permits == Ending(s, id, Completed(outcome)) && t.rejected == s.rejected
            && match Decision(cfg.halfOpen, trial)
               case Undecided => t == s.(permits := t.permits, revision := s.revision + 1, trial := trial)
               case Recovers => MovedOn(s, t, trial, |Probes(s)| - 1, HalfOpenRecovered, now) && Recovered(cfg, s, t)
                                && Showed(t, HealthAt(s.window, now))
               case Fails => MovedOn(s, t, trial, |Probes(s)| - 1, HalfOpenFailed, now) && Opened(cfg, s, t, now, sample)
                             && WindowRead(s, t, now) && Showed(t, HealthAt(s.window, now))
  {
    hide Health, HealthAt, Judge, Decision, OpenFrom, RecoverFrom, MovedOn, Opened, Recovered, OpenInterval, PermitOk, ObserveWindow, Probes;
    var trial := s.trial + [outcome];
    var counted := SetStatus(s, id, Completed(outcome));
    StatusKeeps(cfg, s, id, Completed(outcome));
    InForceLive(cfg, s, id, now);
    ProbesAfterStatus(s, id, Completed(outcome));
    assert trial[..|trial| - 1] == s.trial;
    JudgeDecides(cfg.halfOpen, trial);
    ObservedHealth(cfg, s, now);
    var judged := counted.(revision := s.revision + 1, trial := trial);
    SameEpoch(counted, judged);
    match Decision(cfg.halfOpen, trial)
    case Undecided =>
    case Recovers =>
      RecoverMoves(cfg, judged, now);
      var r := RecoverFrom(cfg, judged, now);
      MovedFrom(s, judged, r, trial, |Probes(s)| - 1, HalfOpenRecovered, now);
      RecoveredFrom(cfg, s, judged, r);
    case Fails =>
      OpenMoves(cfg, judged, HalfOpenFailed, now, sample);
      var o := OpenFrom(cfg, judged, HalfOpenFailed, now, sample);
      MovedFrom(s, judged, o, trial, |Probes(s)| - 1, HalfOpenFailed, now);
      OpenedFrom(cfg, s, judged, o, now, sample);
  }

  lemma RecoveredFrom(cfg: Settings, s: Model, o: Model, t: Model)
    requires Recovered(cfg, o, t) && o.mode == s.mode
    ensures Recovered(cfg, s, t)
  {
  }

  // ---------- completions that do not count, and cancellations ----------

  /** The answer to a completion, by the status it finds. */
  function CompletionAnswer(s: Model, id: nat, outcome: Outcome, now: int): Reply {
    if outcome.Unknown? then InvalidOutcome
    else if id >= |s.permits| then NoSuchPermit
    else match s.permits[id].status
         case Completed(_) => PermitCompleted
         case Canceled => PermitCanceled
         case Expired => if s.permits[id].execution then Accepted else PermitExpired
         case Active => if s.permits[id].execution || now < s.permits[id].deadline then Accepted else PermitExpired
  }

  /** Any other completion touches no evidence: only the permit it names may change, as the terminal matrix
      says, and a probe found past its deadline hands back its slot with a signal. */
  lemma {:induction false} OtherCompletion(cfg: Settings, s: Model, id: nat, outcome: Outcome, slow: bool, now: int, sample: Sample)
    requires ValidSettings(cfg) && Inv(cfg, s) && (outcome.Unknown? || !InForce(s, id, now))
    ensures var a := DoComplete(id, outcome, slow, now, sample);
            var (t, reply) := Step(cfg, s, a);
            && reply == CompletionAnswer(s, id, outcome, now)
            && t.permits == (if id < |s.permits| then Ending(s, id, Terminal(s.permits[id], a)) else s.permits)
            && t == s.(permits := t.permits,
                       revision := if id in Probes(s) && reply == PermitExpired then s.revision + 1 else s.revision)
  {
    hide CompleteProbe, RecordHealth, Inv, Health;
    ActionMatrix(cfg, s, DoComplete(id, outcome, slow, now, sample));
  }

  /** For every completion, counted or not, the answer is that of the table. */
  lemma {:induction false} CompletionReplies(cfg: Settings, s: Model, id: nat, outcome: Outcome, slow: bool, now: int, sample: Sample)
    requires ValidSettings(cfg)
    ensures Step(cfg, s, DoComplete(id, outcome, slow, now, sample)).1 == CompletionAnswer(s, id, outcome, now)
  {
    hide CompleteProbe, RecordHealth, Release, ValidSettings;
  }

  /** Cancel ends an active permit, by expiry at or past its deadline, hands back a held probe slot with a
      signal, and otherwise answers with the status it finds. */
  lemma {:induction false} Cancellation(cfg: Settings, s: Model, id: nat, now: int)
    requires ValidSettings(cfg) && Inv(cfg, s)
    ensures var a := DoCancel(id, now);
            var (t, reply) := Step(cfg, s, a);
            && reply == (if id >= |s.permits| then NoSuchPermit
                         else match s.permits[id].status
                              case Completed(_) => PermitCompleted
                              case Canceled => PermitCanceled
                              case Expired => PermitExpired
                              case Active => if now < s.permits[id].deadline then Accepted else PermitExpired)
            && t.permits == (if id < |s.permits| then Ending(s, id, Terminal(s.permits[id], a)) else s.permits)
            && t == s.(permits := t.permits, revision := if id in Probes(s) then s.revision + 1 else s.revision)
  {
    hide Inv, Health;
    ActionMatrix(cfg, s, DoCancel(id, now));
  }

  // ---------- waiters, snapshots and admissions ----------

  /** A waiter past its deadline is refused with the timeout, and nothing else happens. */
  lemma WaiterRejected(cfg: Settings, s: Model)
    requires ValidSettings(cfg)
    ensures Step(cfg, s, DoRejectWaiter) ==
            (s.(rejected := s.rejected + 1),
             Rejected(Rejection(s.state, s.mode, s.generation, s.nextProbeAt, ErrHalfOpenWaitTimeout)))
  {
  }

  /** Expiring overdue probes changes their statuses and signals once for each. */
  lemma ExpiryParts(s: Model, now: int)
    ensures |ExpireProbes(s, now).permits| == |s.permits|
    ensures ExpireProbes(s, now) == s.(permits := ExpireProbes(s, now).permits, revision := s.revision + |Overdue(s, now)|)
    ensures s.state != HalfOpen ==> Overdue(s, now) == {} && ExpireProbes(s, now).permits == s.permits
  {
  }

  /** A snapshot expires overdue probes and observes the window, and changes nothing else; what it reports is
      the state, the recount of the records in the horizon, and the counts of permits and of the sample. */
  lemma {:induction false} SnapshotReports(cfg: Settings, s: Model, now: int)
    requires ValidSettings(cfg) && Inv(cfg, s)
    ensures var (t, reply) := Step(cfg, s, DoSnapshot(now));
            && t == s.(permits := t.permits, window := t.window, revision := s.revision + |Overdue(s, now)|)
            && WindowRead(s, t, now)
            && reply.Viewed?
            && var v := reply.view;
               && Left(s, v, s.trial, |Probes(s) - Overdue(s, now)|)
               && v.health == HealthAt(s.window, now)
  {
    hide Health, HealthAt, IsProbe, Inv, Successes, WindowRead, ObserveWindow;
    WindowInv(cfg, s);
    ReadOnce(cfg, s, Observed(s, now), now);
    ReadOnce(cfg, s, Step(cfg, s, DoSnapshot(now)).0, now);
    ExpiryParts(s, now);
    ProbesAfterExpiry(s, now);
    SuccessesOfBag(s.trial);
    var e := if s.state.HalfOpen? then ExpireProbes(s, now) else s;
    SameEpochProbes(e, Observed(e, now));
    OutsideHalfOpen(s, now);
    ObservedHealth(cfg, s, now);
  }

  /** What a window read at `now` reports. */
  ghost function HealthAt(w: WindowModel, now: int): Snapshot {
    match w
    case CountModel(size, records) => CountRing.View(records, size)
    case TimeModel(duration, count, entries, progress) =>
      if duration <= 0 then EMPTY
      else TimeRing.View(entries, if progress.Seen? && now / duration < progress.bucket then progress.bucket else now / duration, count)
  }

  lemma ObservedHealth(cfg: Settings, s: Model, now: int)
    requires ValidSettings(cfg) && Inv(cfg, s)
    ensures Health(ObserveWindow(s.window, now)) == HealthAt(s.window, now)
  {
    hide CountRing.View, TimeRing.View;
    assert WindowOk(cfg, s.window);
  }

  lemma OutsideHalfOpen(s: Model, now: int)
    ensures !s.state.HalfOpen? ==> Probes(s) == {} && Overdue(s, now) == {}
  {
  }

  /** What an admission attempt does besides its answer: from an elapsed open interval it moves on to
      half-open; otherwise it only expires overdue probes and counts a refusal. An admitted caller's permit is
      the one new permit. */
  lemma {:induction false} AdmissionEffect(cfg: Settings, s: Model, now: int, execution: bool)
    requires ValidSettings(cfg) && Inv(cfg, s)
    ensures var (t, reply) := Step(cfg, s, DoTryAcquire(now, execution));
            && |t.permits| == |s.permits| + (if reply.Admitted? then 1 else 0)
            && (if s.mode.Normal? && s.state.Open? && s.nextProbeAt <= now then
                  && reply.Admitted? && t.state.HalfOpen? && t.mode.Normal?
                  && MovedOn(s, t.(permits := s.permits), [], 0, OpenIntervalElapsed, now)
                  && WindowRead(s, t, now) && SameSchedule(s, t) && t.rejected == s.rejected
                  && Showed(t, HealthAt(s.window, now))
                else
                  t == s.(permits := t.permits,
                          revision := if s.mode.Normal? then s.revision + |Overdue(s, now)| else s.revision,
                          rejected := if reply.Rejected? then s.rejected + 1 else s.rejected))
  {
    hide Inv, MovedOn, TryAcquire, IsProbe, Probes, Look, Overdue, Health, WindowRead, Showed, HealthAt, SameSchedule;
    if s.mode.Normal? && s.state.Open? && s.nextProbeAt <= now {
      ElapsedAdmission(cfg, s, now, execution);
    } else {
      OtherAdmission(cfg, s, now, execution);
    }
  }

  lemma {:induction false} OtherAdmission(cfg: Settings, s: Model, now: int, execution: bool)
    requires ValidSettings(cfg) && Inv(cfg, s) && !(s.mode.Normal? && s.state.Open? && s.nextProbeAt <= now)
    ensures var (t, reply) := TryAcquire(cfg, s, now, execution);
            && |t.permits| == |s.permits| + (if reply.Admitted? then 1 else 0)
            && t == s.(permits := t.permits,
                       revision := if s.mode.Normal? then s.revision + |Overdue(s, now)| else s.revision,
                       rejected := if reply.Rejected? then s.rejected + 1 else s.rejected)
  {
    hide Inv, Settled, ExpireProbes, Probes, Overdue, Health;
    ExpiryParts(s, now);
    if !s.state.Open? {
      SettledStays(cfg, s, now);
    }
    KnownMode(cfg, s);
  }

  lemma {:induction false} ElapsedAdmission(cfg: Settings, s: Model, now: int, execution: bool)
    requires ValidSettings(cfg) && Inv(cfg, s) && s.mode.Normal? && s.state.Open? && s.nextProbeAt <= now
    ensures var (t, reply) := TryAcquire(cfg, s, now, execution);
            && reply.Admitted? && |t.permits| == |s.permits| + 1
            && t.state.HalfOpen? && t.mode.Normal?
            && MovedOn(s, t.(permits := s.permits), [], 0, OpenIntervalElapsed, now)
            && WindowRead(s, t, now) && SameSchedule(s, t) && t.rejected == s.rejected
            && Showed(t, HealthAt(s.window, now))
  {
    hide Inv, MovedOn, Settled, Probes, Health, WindowRead, Showed, HealthAt;
    var h := Settled(cfg, s, now);
    ElapsedMoves(cfg, s, now);
    AdmissionExact(cfg, s, now, execution);
    assert h.(permits := s.permits) == h;
    SameReading(s, h, TryAcquire(cfg, s, now, execution).0, now, HealthAt(s.window, now));
  }

  lemma SettledStays(cfg: Settings, s: Model, now: int)
    requires !s.state.Open?
    ensures Settled(cfg, s, now) == if s.state.HalfOpen? then ExpireProbes(s, now) else s
  {
  }

  lemma ElapsedMoves(cfg: Settings, s: Model, now: int)
    requires ValidSettings(cfg) && Inv(cfg, s) && s.mode.Normal? && s.state.Open? && s.nextProbeAt <= now
    ensures var h := Settled(cfg, s, now);
            && h.state.HalfOpen? && h.mode.Normal? && h.permits == s.permits && h.rejected == s.rejected
            && MovedOn(s, h, [], 0, OpenIntervalElapsed, now) && WindowRead(s, h, now) && SameSchedule(s, h)
            && Showed(h, HealthAt(s.window, now))
  {
    hide Commit, Inv, MovedOn, IsProbe, HealthAt, Health, ExpireProbes;
    ObservedParts(cfg, s, now);
    var o, h := Observed(s, now), HalfOpenFrom(cfg, s, now);
    NothingSampled(cfg, s);
    SameEpochProbes(s, o);
    CommitMoves(cfg, o, o.(state := HalfOpen), OpenIntervalElapsed, now);
    MovedFrom(s, o, h, [], 0, OpenIntervalElapsed, now);
    FreshHalfOpen(cfg, s, now);
    NothingOverdue(h, now);
  }

  lemma NothingOverdue(s: Model, now: int)
    requires Probes(s) == {}
    ensures ExpireProbes(s, now) == s
  {
    hide Probes;
    assert Overdue(s, now) == {};
    assert ExpireProbes(s, now).permits == s.permits;
  }

  lemma WindowInv(cfg: Settings, s: Model)
    requires ValidSettings(cfg) && Inv(cfg, s)
    ensures WindowOk(cfg, s.window)
  {
  }

  lemma NothingSampled(cfg: Settings, s: Model)
    requires ValidSettings(cfg) && Inv(cfg, s) && !s.state.HalfOpen?
    ensures s.trial == [] && Probes(s) == {}
  {
  }
}
