/** What configuring an observer changes about policy when the window is a time window, exactly.

    Building the event of a transition reads the window. After a recovery or a reset that window is fresh,
    and the reading fixes its progress to the transition's bucket, where without an observer the first later
    reading would. A first record in an earlier bucket is then clamped, and only then do runs differ. */
module ObserverClamping {
  import opened Arithmetic
  import opened Window
  import opened Config
  import opened Policy
  import opened BreakerModel
  import opened BreakerPruning
  import ObserverEffect
  import TimeRing = TimeWindow

  const ONE_SUCCESS := Record(Success, false)

  predicate Empties(reason: Reason) {
    reason.HalfOpenRecovered? || reason.WasReset?
  }

  /** The bucket of the transition that last emptied the window. */
  function Mark(duration: int, log: seq<Transition>): TimeRing.Progress
    requires duration > 0
  {
    if log == [] then TimeRing.Unseen
    else
      var e := log[|log| - 1].event;
      if Empties(e.reason) then TimeRing.Seen(e.at / duration) else Mark(duration, log[..|log| - 1])
  }

  function Later(p: TimeRing.Progress, q: TimeRing.Progress): TimeRing.Progress {
    if q.Unseen? then p else if p.Unseen? || p.bucket < q.bucket then q else p
  }

  predicate Timed(cfg: Settings, w: WindowModel) {
    cfg.window.ByTime? && cfg.window.bucketDuration > 0
    && w.TimeModel? && w.duration == cfg.window.bucketDuration && w.count == cfg.window.bucketCount
  }

  /** The first record in the window is not older than the transition that emptied it. */
  predicate Unclamped(cfg: Settings, s: Model)
    requires Timed(cfg, s.window)
  {
    var mark := Mark(s.window.duration, s.log);
    s.window.entries != [] && mark.Seen? ==> mark.bucket <= s.window.entries[0].bucket
  }

  /** `s` without an observer and `t` with one: equal but for the progress of a window without records,
      which for `t` includes the bucket of the transition that emptied it. */
  predicate Paired(cfg: Settings, s: Model, t: Model) {
    && Timed(cfg, s.window) && Timed(cfg, t.window)
    && t == s.(window := s.window.(progress := t.window.progress))
    && t.window.progress ==
       if s.window.entries == [] then Later(s.window.progress, Mark(s.window.duration, s.log)) else s.window.progress
  }

  lemma EmptyHealth(w: WindowModel)
    requires w.TimeModel? && w.entries == []
    ensures Health(w) == EMPTY
  {
  }

  lemma PairedLook(cfg: Settings, s: Model, t: Model)
    requires Paired(cfg, s, t)
    ensures Probes(t) == Probes(s) && Look(t) == Look(s) && Health(t.window) == Health(s.window)
    ensures Records(t.window) == Records(s.window)
  {
    hide Health;
    assert Probes(t) == Probes(s);
    if s.window.entries == [] {
      EmptyHealth(s.window);
      EmptyHealth(t.window);
    }
  }

  lemma PairedObserved(cfg: Settings, s: Model, t: Model, now: int)
    requires Paired(cfg, s, t)
    ensures Paired(cfg, Observed(s, now), Observed(t, now))
    ensures Observed(Observed(s, now), now) == Observed(s, now) && Observed(Observed(t, now), now) == Observed(t, now)
    ensures Unclamped(cfg, s) ==> Unclamped(cfg, Observed(s, now))
  {
  }

  lemma MarkAppended(duration: int, log: seq<Transition>, entry: Transition)
    requires duration > 0
    ensures Mark(duration, log + [entry]) ==
            if Empties(entry.event.reason) then TimeRing.Seen(entry.event.at / duration) else Mark(duration, log)
  {
    assert (log + [entry])[..|log|] == log;
  }

  /** Whether a rewrite retains the window or, for an emptying reason, replaces it. */
  ghost predicate Rewrites(cfg: Settings, s: Model, next: Model, reason: Reason) {
    && next.log == s.log && next.permits == s.permits && next.generation == s.generation
    && next.window == if Empties(reason) then FreshWindow(cfg.window) else s.window
  }

  lemma PairedCommit(cfg: Settings, delivery: Delivery, s: Model, t: Model, next: Model, next': Model, reason: Reason, now: int)
    requires cfg.delivery.NoObserver? && !delivery.NoObserver?
    requires Paired(cfg, s, t) && Observed(s, now) == s && Observed(t, now) == t
    requires Rewrites(cfg, s, next, reason) && Rewrites(cfg, t, next', reason)
    requires next' == next.(window := next'.window)
    ensures Paired(cfg, Commit(cfg, s, next, reason, now), Commit(cfg.(delivery := delivery), t, next', reason, now))
    ensures Unclamped(cfg, s) ==> Unclamped(cfg, Commit(cfg, s, next, reason, now))
  {
    hide Health, Probes, Mark;
    PairedLook(cfg, s, t);
    var moved := next.(generation := next.generation + 1, lastTransition := now, trial := [], revision := next.revision + 1);
    var moved' := next'.(generation := next'.generation + 1, lastTransition := now, trial := [], revision := next'.revision + 1);
    LookEqual(moved, moved', now);
    var c, c' := Commit(cfg, s, next, reason, now), Commit(cfg.(delivery := delivery), t, next', reason, now);
    MarkAppended(s.window.duration, s.log, c.log[|s.log|]);
    assert c.log == s.log + [c.log[|s.log|]];
    assert c'.log == c.log;
  }

  lemma LookEqual(s: Model, t: Model, now: int)
    requires s.window.TimeModel? && t == s.(window := t.window)
    requires t.window == s.window || (t.window.TimeModel? && s.window.entries == [] == t.window.entries)
    ensures Look(Observed(s, now)) == Look(Observed(t, now))
  {
    hide Health;
    assert Probes(Observed(s, now)) == Probes(Observed(t, now));
    if s.window.entries == [] && t.window.TimeModel? && t.window.entries == [] {
      EmptyHealth(Observed(s, now).window);
      EmptyHealth(Observed(t, now).window);
    }
  }

  lemma PairedOpen(cfg: Settings, delivery: Delivery, s: Model, t: Model, reason: Reason, now: int, sample: real)
    requires ValidSettings(cfg) && ValidSettings(cfg.(delivery := delivery)) && 0.0 <= sample < 1.0
    requires cfg.delivery.NoObserver? && !delivery.NoObserver? && Paired(cfg, s, t) && !Empties(reason)
    ensures Paired(cfg, OpenFrom(cfg, s, reason, now, sample), OpenFrom(cfg.(delivery := delivery), t, reason, now, sample))
    ensures Unclamped(cfg, s) ==> Unclamped(cfg, OpenFrom(cfg, s, reason, now, sample))
  {
    hide Commit, Health, OpenInterval, Paired, Unclamped, ValidSettings, Observed;
    PairedParts(cfg, s, t);
    PairedObserved(cfg, s, t, now);
    var o, o' := Observed(s, now), Observed(t, now);
    PairedParts(cfg, o, o');
    ObserverEffect.SameInterval(cfg, delivery, o.openings + 1, sample);
    var duration := OpenInterval(cfg, o.openings + 1, sample);
    PairedCommit(cfg, delivery, o, o',
                 o.(state := Open, openings := o.openings + 1, openDuration := duration, nextProbeAt := now + duration),
                 o'.(state := Open, openings := o.openings + 1, openDuration := duration, nextProbeAt := now + duration),
                 reason, now);
  }

  lemma PairedParts(cfg: Settings, s: Model, t: Model)
    requires Paired(cfg, s, t)
    ensures t == s.(window := t.window) && Timed(cfg, s.window) && Timed(cfg, t.window)
  {
  }

  lemma PairedTransitions(cfg: Settings, delivery: Delivery, s: Model, t: Model, mode: Mode, now: int)
    requires cfg.delivery.NoObserver? && !delivery.NoObserver? && Paired(cfg, s, t)
    ensures var other := cfg.(delivery := delivery);
            && Paired(cfg, HalfOpenFrom(cfg, s, now), HalfOpenFrom(other, t, now))
            && Paired(cfg, RecoverFrom(cfg, s, now), RecoverFrom(other, t, now))
            && Paired(cfg, ResetFrom(cfg, s, now), ResetFrom(other, t, now))
            && Paired(cfg, ModeFrom(cfg, s, mode, now), ModeFrom(other, t, mode, now))
            && (Unclamped(cfg, s) ==>
                  && Unclamped(cfg, HalfOpenFrom(cfg, s, now)) && Unclamped(cfg, RecoverFrom(cfg, s, now))
                  && Unclamped(cfg, ResetFrom(cfg, s, now)) && Unclamped(cfg, ModeFrom(cfg, s, mode, now)))
  {
    hide Commit, Health, Paired, Unclamped, Observed;
    PairedParts(cfg, s, t);
    PairedObserved(cfg, s, t, now);
    var o, o' := Observed(s, now), Observed(t, now);
    PairedParts(cfg, o, o');
    PairedCommit(cfg, delivery, o, o', o.(state := HalfOpen), o'.(state := HalfOpen), OpenIntervalElapsed, now);
    PairedCommit(cfg, delivery, o, o', Cleared(cfg, o), Cleared(cfg, o'), HalfOpenRecovered, now);
    PairedCommit(cfg, delivery, o, o', Cleared(cfg, o).(mode := Normal), Cleared(cfg, o').(mode := Normal), WasReset, now);
    PairedCommit(cfg, delivery, o, o', o.(mode := mode), o'.(mode := mode), ModeSet(mode), now);
  }

  /** A rewrite of everything but window and log keeps states paired. */
  lemma PairedFrame(cfg: Settings, s: Model, t: Model, s': Model, t': Model)
    requires Paired(cfg, s, t) && s'.window == s.window && t'.window == t.window && s'.log == s.log
    requires t' == s'.(window := t'.window)
    ensures Paired(cfg, s', t') && (Unclamped(cfg, s) ==> Unclamped(cfg, s'))
  {
  }

  lemma PairedExpire(cfg: Settings, s: Model, t: Model, now: int)
    requires Paired(cfg, s, t)
    ensures Paired(cfg, ExpireProbes(s, now), ExpireProbes(t, now))
    ensures Unclamped(cfg, s) ==> Unclamped(cfg, ExpireProbes(s, now))
  {
    hide Health;
    assert Probes(t) == Probes(s);
    assert Overdue(t, now) == Overdue(s, now);
    PairedFrame(cfg, s, t, ExpireProbes(s, now), ExpireProbes(t, now));
  }

  // ---------- records ----------

  /** Two windows set apart by a clamped record: each holds only that one, in its own bucket. */
  predicate Parted(cfg: Settings, w: WindowModel, w': WindowModel) {
    && Timed(cfg, w) && Timed(cfg, w')
    && |w.entries| == |w'.entries| == 1
    && ValidRecord(w.entries[0].record) && w'.entries[0].record == w.entries[0].record
    && w.progress == TimeRing.Seen(w.entries[0].bucket) && w'.progress == TimeRing.Seen(w'.entries[0].bucket)
    && w.entries[0].bucket < w'.entries[0].bucket
  }

  /** A record lands in the same bucket for both exactly when it is not clamped; then nothing differs. */
  lemma PairedAppend(cfg: Settings, s: Model, t: Model, now: int, record: Record)
    requires Paired(cfg, s, t) && Unclamped(cfg, s) && ValidRecord(record)
    ensures var r, r' := s.(window := AppendWindow(s.window, now, record)), t.(window := AppendWindow(t.window, now, record));
            && Timed(cfg, r.window) && Timed(cfg, r'.window)
            && Observed(r, now) == r && Observed(r', now) == r'
            && if Unclamped(cfg, r) then Paired(cfg, r, r') && r' == r else Parted(cfg, r.window, r'.window)
  {
    hide Mark;
  }

  lemma CommitRetains(cfg: Settings, s: Model, next: Model, reason: Reason, now: int)
    requires Timed(cfg, s.window) && Rewrites(cfg, s, next, reason) && !Empties(reason)
    ensures var c := Commit(cfg, s, next, reason, now);
            && Timed(cfg, c.window) && c.window.entries == s.window.entries
            && (Observed(s, now) == s ==> c.window == s.window)
            && Mark(s.window.duration, c.log) == Mark(s.window.duration, s.log)
  {
    hide Look, Mark;
    var c := Commit(cfg, s, next, reason, now);
    MarkAppended(s.window.duration, s.log, c.log[|s.log|]);
  }

  /** Opening retains every record. */
  lemma OpenRetains(cfg: Settings, s: Model, reason: Reason, now: int, sample: real)
    requires ValidSettings(cfg) && 0.0 <= sample < 1.0 && Timed(cfg, s.window) && !Empties(reason)
    ensures var o := OpenFrom(cfg, s, reason, now, sample);
            && Timed(cfg, o.window) && o.window.entries == s.window.entries
            && (Observed(s, now) == s ==> o.window == s.window)
            && Mark(s.window.duration, o.log) == Mark(s.window.duration, s.log)
  {
    hide Commit, Mark, OpenInterval, ValidSettings;
    var o := Observed(s, now);
    var duration := OpenInterval(cfg, o.openings + 1, sample);
    CommitRetains(cfg, o, o.(state := Open, openings := o.openings + 1, openDuration := duration, nextProbeAt := now + duration),
                  reason, now);
  }

  /** What one step leaves of a pair. */
  ghost predicate StepPaired(cfg: Settings, s: Model, t: Model) {
    && Timed(cfg, s.window) && Timed(cfg, t.window)
    && if Unclamped(cfg, s) then Paired(cfg, s, t) else Parted(cfg, s.window, t.window)
  }

  lemma PairedHealth(cfg: Settings, delivery: Delivery, s: Model, t: Model, outcome: Outcome, slow: bool, now: int, sample: real)
    requires ValidSettings(cfg) && ValidSettings(cfg.(delivery := delivery)) && 0.0 <= sample < 1.0
    requires cfg.delivery.NoObserver? && !delivery.NoObserver? && Paired(cfg, s, t) && Unclamped(cfg, s) && !outcome.Unknown?
    ensures StepPaired(cfg, RecordHealth(cfg, s, outcome, slow, now, sample),
                       RecordHealth(cfg.(delivery := delivery), t, outcome, slow, now, sample))
  {
    hide OpenFrom, Health, Opens, Mark, AppendWindow, ValidSettings;
    var other := cfg.(delivery := delivery);
    var record := Record(outcome, slow && !outcome.Ignored?);
    var r, r' := s.(window := AppendWindow(s.window, now, record)), t.(window := AppendWindow(t.window, now, record));
    PairedAppend(cfg, s, t, now, record);
    OpenRetains(cfg, r, PolicyOpened, now, sample);
    OpenRetains(other, r', PolicyOpened, now, sample);
    if Unclamped(cfg, r) {
      PairedOpen(cfg, delivery, r, r', PolicyOpened, now, sample);
    }
  }

  lemma PairedRecover(cfg: Settings, delivery: Delivery, s: Model, t: Model, now: int)
    requires cfg.delivery.NoObserver? && !delivery.NoObserver? && Paired(cfg, s, t) && Unclamped(cfg, s)
    ensures var r, r' := RecoverFrom(cfg, s, now), RecoverFrom(cfg.(delivery := delivery), t, now);
            Paired(cfg, r, r') && Unclamped(cfg, r)
  {
    hide RecoverFrom, Paired, Unclamped;
    PairedTransitions(cfg, delivery, s, t, s.mode, now);
  }

  lemma PairedProbe(cfg: Settings, delivery: Delivery, s: Model, t: Model, outcome: Outcome, now: int, sample: real)
    requires ValidSettings(cfg) && ValidSettings(cfg.(delivery := delivery)) && 0.0 <= sample < 1.0
    requires cfg.delivery.NoObserver? && !delivery.NoObserver? && Paired(cfg, s, t) && Unclamped(cfg, s)
    ensures var r, r' := CompleteProbe(cfg, s, outcome, now, sample), CompleteProbe(cfg.(delivery := delivery), t, outcome, now, sample);
            Paired(cfg, r, r') && Unclamped(cfg, r)
  {
    hide OpenFrom, RecoverFrom, Health, Paired, Unclamped, Judge, ValidSettings, Timed;
    PairedParts(cfg, s, t);
    var g, g' := s.(revision := s.revision + 1), t.(revision := t.revision + 1);
    PairedFrame(cfg, s, t, g, g');
    var j, j' := g.(trial := s.trial + [outcome]), g'.(trial := t.trial + [outcome]);
    PairedFrame(cfg, s, t, j, j');
    PairedOpen(cfg, delivery, j, j', HalfOpenFailed, now, sample);
    PairedRecover(cfg, delivery, j, j', now);
  }

  lemma PairedComplete(cfg: Settings, delivery: Delivery, s: Model, t: Model, id: nat, outcome: Outcome, slow: bool, now: int, sample: real)
    requires ValidSettings(cfg) && ValidSettings(cfg.(delivery := delivery)) && 0.0 <= sample < 1.0
    requires cfg.delivery.NoObserver? && !delivery.NoObserver? && Paired(cfg, s, t) && Unclamped(cfg, s)
    ensures var (r, reply) := Complete(cfg, s, id, outcome, slow, now, sample);
            var (r', reply') := Complete(cfg.(delivery := delivery), t, id, outcome, slow, now, sample);
            reply' == reply && StepPaired(cfg, r, r')
  {
    hide RecordHealth, CompleteProbe, Paired, Unclamped, ValidSettings, Probes;
    PairedParts(cfg, s, t);
    if id < |s.permits| {
      var c, c' := SetStatus(s, id, Completed(outcome)), SetStatus(t, id, Completed(outcome));
      var e, e' := Release(s, id, Expired), Release(t, id, Expired);
      PairedFrame(cfg, s, t, c, c');
      PairedFrame(cfg, s, t, e, e');
      if !outcome.Unknown? {
        PairedHealth(cfg, delivery, c, c', outcome, slow, now, sample);
      }
      PairedProbe(cfg, delivery, c, c', outcome, now, sample);
      PairedParts(cfg, CompleteProbe(cfg, c, outcome, now, sample), CompleteProbe(cfg.(delivery := delivery), c', outcome, now, sample));
    }
  }

  lemma PairedAcquire(cfg: Settings, delivery: Delivery, s: Model, t: Model, now: int, execution: bool)
    requires cfg.delivery.NoObserver? && !delivery.NoObserver? && Paired(cfg, s, t) && Unclamped(cfg, s)
    ensures var (r, reply) := TryAcquire(cfg, s, now, execution);
            var (r', reply') := TryAcquire(cfg.(delivery := delivery), t, now, execution);
            reply' == reply && Paired(cfg, r, r') && Unclamped(cfg, r)
  {
    hide Settled, Paired, Unclamped, Probes;
    PairedSettled(cfg, delivery, s, t, now);
    var ready, ready' := Settled(cfg, s, now), Settled(cfg.(delivery := delivery), t, now);
    PairedParts(cfg, s, t);
    PairedParts(cfg, ready, ready');
    PairedLook(cfg, ready, ready');
    PairedFrame(cfg, s, t, s.(rejected := s.rejected + 1), t.(rejected := t.rejected + 1));
    PairedFrame(cfg, ready, ready', ready.(rejected := ready.rejected + 1), ready'.(rejected := ready'.rejected + 1));
    PairedFrame(cfg, s, t, Issue(cfg, s, now, false, execution), Issue(cfg, t, now, false, execution));
    PairedFrame(cfg, ready, ready', Issue(cfg, ready, now, true, execution), Issue(cfg, ready', now, true, execution));
  }

  lemma PairedSettled(cfg: Settings, delivery: Delivery, s: Model, t: Model, now: int)
    requires cfg.delivery.NoObserver? && !delivery.NoObserver? && Paired(cfg, s, t) && Unclamped(cfg, s)
    ensures Paired(cfg, Settled(cfg, s, now), Settled(cfg.(delivery := delivery), t, now)) && Unclamped(cfg, Settled(cfg, s, now))
  {
    hide HalfOpenFrom, Paired, Unclamped, ExpireProbes;
    PairedParts(cfg, s, t);
    PairedTransitions(cfg, delivery, s, t, s.mode, now);
    if s.state.Open? {
      PairedParts(cfg, HalfOpenFrom(cfg, s, now), HalfOpenFrom(cfg.(delivery := delivery), t, now));
      PairedExpire(cfg, HalfOpenFrom(cfg, s, now), HalfOpenFrom(cfg.(delivery := delivery), t, now), now);
    } else {
      PairedExpire(cfg, s, t, now);
    }
  }

  lemma PairedSnapshot(cfg: Settings, s: Model, t: Model, now: int)
    requires Paired(cfg, s, t) && Unclamped(cfg, s)
    ensures var e, e' := if s.state.HalfOpen? then ExpireProbes(s, now) else s, if t.state.HalfOpen? then ExpireProbes(t, now) else t;
            && Paired(cfg, Observed(e, now), Observed(e', now)) && Unclamped(cfg, Observed(e, now))
            && Look(Observed(e, now)) == Look(Observed(e', now))
  {
    hide Health, ExpireProbes;
    PairedExpire(cfg, s, t, now);
    var e, e' := if s.state.HalfOpen? then ExpireProbes(s, now) else s, if t.state.HalfOpen? then ExpireProbes(t, now) else t;
    PairedObserved(cfg, e, e', now);
    PairedLook(cfg, Observed(e, now), Observed(e', now));
  }

  /** One step of a pair: the first clamped record sets them apart, and nothing else ever does. */
  lemma PairStep(cfg: Settings, delivery: Delivery, s: Model, t: Model, a: Action)
    requires ValidSettings(cfg) && ValidSettings(cfg.(delivery := delivery))
    requires cfg.delivery.NoObserver? && !delivery.NoObserver? && Paired(cfg, s, t) && Unclamped(cfg, s)
    ensures StepPaired(cfg, Step(cfg, s, a).0, Step(cfg.(delivery := delivery), t, a).0)
    ensures Step(cfg, s, a).1 == Step(cfg.(delivery := delivery), t, a).1
  {
    hide TryAcquire, Complete, Paired, Unclamped, ResetFrom, ModeFrom, ExpireProbes, Observed, Look, ValidSettings, Probes;
    PairedParts(cfg, s, t);
    match a
    case DoTryAcquire(now, execution) =>
      PairedAcquire(cfg, delivery, s, t, now, execution);
      PairedParts(cfg, Step(cfg, s, a).0, Step(cfg.(delivery := delivery), t, a).0);
    case DoRejectWaiter =>
      PairedFrame(cfg, s, t, s.(rejected := s.rejected + 1), t.(rejected := t.rejected + 1));
    case DoComplete(id, outcome, slow, now, sample) =>
      PairedComplete(cfg, delivery, s, t, id, outcome, slow, now, sample);
    case DoCancel(id, now) =>
      if id < |s.permits| {
        assert IsProbe(s, s.permits[id]) == IsProbe(t, t.permits[id]);
        PairedFrame(cfg, s, t, Release(s, id, Canceled), Release(t, id, Canceled));
        PairedFrame(cfg, s, t, Release(s, id, Expired), Release(t, id, Expired));
      }
    case DoSetMode(mode, now) =>
      PairedTransitions(cfg, delivery, s, t, mode, now);
      PairedParts(cfg, Step(cfg, s, a).0, Step(cfg.(delivery := delivery), t, a).0);
    case DoReset(now) =>
      PairedTransitions(cfg, delivery, s, t, s.mode, now);
      PairedParts(cfg, Step(cfg, s, a).0, Step(cfg.(delivery := delivery), t, a).0);
    case DoSnapshot(now) =>
      PairedSnapshot(cfg, s, t, now);
      PairedParts(cfg, Step(cfg, s, a).0, Step(cfg.(delivery := delivery), t, a).0);
  }

  // ---------- over whole runs ----------

  /** At every step of the run, no first record has been clamped. */
  ghost predicate AllUnclamped(cfg: Settings, s: Model, actions: seq<Action>)
    requires ValidSettings(cfg)
    decreases |actions|
  {
    && Timed(cfg, s.window) && Unclamped(cfg, s)
    && (actions != [] ==> AllUnclamped(cfg, Step(cfg, s, actions[0]).0, actions[1..]))
  }

  /** Any call made now would be answered the same. */
  ghost predicate AnswersAlike(cfg: Settings, other: Settings, s: Model, t: Model)
    requires ValidSettings(cfg) && ValidSettings(other)
  {
    forall a :: Step(cfg, s, a).1 == Step(other, t, a).1
  }

  /** At every step of both runs, any call would be answered the same. */
  ghost predicate AllAnswersAlike(cfg: Settings, other: Settings, s: Model, t: Model, actions: seq<Action>)
    requires ValidSettings(cfg) && ValidSettings(other)
    decreases |actions|
  {
    && AnswersAlike(cfg, other, s, t)
    && (actions != [] ==> AllAnswersAlike(cfg, other, Step(cfg, s, actions[0]).0, Step(other, t, actions[0]).0, actions[1..]))
  }

  lemma PairedAnswers(cfg: Settings, delivery: Delivery, s: Model, t: Model)
    requires ValidSettings(cfg) && ValidSettings(cfg.(delivery := delivery))
    requires cfg.delivery.NoObserver? && !delivery.NoObserver? && Paired(cfg, s, t) && Unclamped(cfg, s)
    ensures AnswersAlike(cfg, cfg.(delivery := delivery), s, t)
  {
    hide Step, Paired, Unclamped, ValidSettings;
    forall a
      ensures Step(cfg, s, a).1 == Step(cfg.(delivery := delivery), t, a).1
    {
      PairStep(cfg, delivery, s, t, a);
    }
  }

  /** A single record is reported while its bucket lies in the horizon. */
  lemma OneEntry(entry: TimeRing.Entry, current: int, count: nat)
    requires ValidRecord(entry.record)
    ensures (TimeRing.View([entry], current, count) == EMPTY) <==> !(current - count < entry.bucket <= current)
    ensures entry.record == ONE_SUCCESS && current - count < entry.bucket <= current ==>
              TimeRing.View([entry], current, count) == Snapshot(1, 1, 0, 0, 0, 0)
  {
    assert [entry][..0] == [];
    assert TimeRing.Selected([entry], TimeRing.Within(current, count)) ==
           if current - count < entry.bucket <= current then multiset{entry.record} else multiset{};
    OneRecord(entry.record);
  }

  lemma OneRecord(record: Record)
    requires ValidRecord(record)
    ensures Recount(multiset{record}) != EMPTY && Recount(multiset{}) == EMPTY
  {
    assert record == Record(record.outcome, true) || record == Record(record.outcome, false);
    assert multiset{record}[record] == 1;
  }

  /** The snapshot that tells parted windows apart: one horizon past the earlier bucket. */
  lemma PartedHealth(cfg: Settings, w: WindowModel, w': WindowModel)
    requires ValidSettings(cfg) && Parted(cfg, w, w')
    ensures var now := (w.entries[0].bucket + w.count) * w.duration;
            Health(ObserveWindow(w, now)) == EMPTY && Health(ObserveWindow(w', now)) != EMPTY
  {
    hide TimeRing.View;
    var b, b' := w.entries[0].bucket, w'.entries[0].bucket;
    Quotient((b + w.count) * w.duration, w.duration, b + w.count, 0);
    OneEntry(w.entries[0], TimeRing.Advance(w.progress, b + w.count), w.count);
    OneEntry(w'.entries[0], TimeRing.Advance(w'.progress, b + w.count), w.count);
    assert w.entries == [w.entries[0]] && w'.entries == [w'.entries[0]];
  }

  lemma PartedAnswers(cfg: Settings, other: Settings, s: Model, t: Model)
    requires ValidSettings(cfg) && ValidSettings(other) && Parted(cfg, s.window, t.window)
    ensures !AnswersAlike(cfg, other, s, t)
  {
    hide Health, Probes, ValidSettings;
    PartedHealth(cfg, s.window, t.window);
    var a := DoSnapshot((s.window.entries[0].bucket + s.window.count) * s.window.duration);
    assert Step(cfg, s, a).1.view.health != Step(other, t, a).1.view.health;
  }

  lemma {:induction false} PairRun(cfg: Settings, delivery: Delivery, s: Model, t: Model, actions: seq<Action>)
    requires ValidSettings(cfg) && ValidSettings(cfg.(delivery := delivery))
    requires cfg.delivery.NoObserver? && !delivery.NoObserver? && Paired(cfg, s, t) && Unclamped(cfg, s)
    ensures var other := cfg.(delivery := delivery);
            && (AllUnclamped(cfg, s, actions) <==> AllAnswersAlike(cfg, other, s, t, actions))
            && (AllUnclamped(cfg, s, actions) ==>
                  && Replies(cfg, s, actions) == Replies(other, t, actions)
                  && Paired(cfg, Run(cfg, s, actions), Run(other, t, actions)))
    decreases |actions|
  {
    hide Step, Unclamped, ValidSettings, AnswersAlike, Parted;
    PairedAnswers(cfg, delivery, s, t);
    if actions != [] {
      var other := cfg.(delivery := delivery);
      var s', t' := Step(cfg, s, actions[0]).0, Step(other, t, actions[0]).0;
      PairStep(cfg, delivery, s, t, actions[0]);
      if Unclamped(cfg, s') {
        PairRun(cfg, delivery, s', t', actions[1..]);
      } else {
        PartedAnswers(cfg, other, s', t');
      }
    }
  }

  /** The exact condition. For a time window, configuring an observer is invisible to every caller, at every
      step of a run, if and only if no first record after a recovery or reset falls in a bucket before that
      transition's. Then the run's own replies are the same too, and the states agree up to the progress of a
      window without records; otherwise, at the first such record, some snapshot would tell. */
  lemma ObserverInvisibleExactly(cfg: Settings, delivery: Delivery, actions: seq<Action>)
    requires ValidSettings(cfg) && ValidSettings(cfg.(delivery := delivery)) && cfg.window.ByTime?
    requires cfg.delivery.NoObserver? && !delivery.NoObserver?
    ensures var other, s := cfg.(delivery := delivery), Initial(cfg);
            && (AllUnclamped(cfg, s, actions) <==> AllAnswersAlike(cfg, other, s, s, actions))
            && (AllUnclamped(cfg, s, actions) ==>
                  && Replies(cfg, s, actions) == Replies(other, s, actions)
                  && Paired(cfg, Run(cfg, s, actions), Run(other, s, actions)))
  {
    PairRun(cfg, delivery, Initial(cfg), Initial(cfg), actions);
  }

  // ---------- clocks that do not go backward ----------

  predicate HasTime(a: Action) {
    !a.DoRejectWaiter?
  }

  /** Observed times never decrease, from `last` on. */
  predicate Forward(actions: seq<Action>, last: int)
    decreases |actions|
  {
    actions != [] ==>
      var a := actions[0];
      (HasTime(a) ==> last <= a.now) && Forward(actions[1..], if HasTime(a) then a.now else last)
  }

  /** How one step moves the records and the mark. */
  ghost predicate WindowMoves(cfg: Settings, s: Model, a: Action, t: Model)
    requires Timed(cfg, s.window)
  {
    && Timed(cfg, t.window)
    && var d := s.window.duration;
       || (&& Mark(d, t.log) == Mark(d, s.log)
           && (t.window.entries == s.window.entries
               || (HasTime(a) && |t.window.entries| == |s.window.entries| + 1
                   && t.window.entries[..|s.window.entries|] == s.window.entries
                   && a.now / d <= t.window.entries[|s.window.entries|].bucket)))
       || (t.window.entries == [] && HasTime(a) && Mark(d, t.log) == TimeRing.Seen(a.now / d))
  }

  lemma TransitionMoves(cfg: Settings, s: Model, mode: Mode, now: int)
    requires Timed(cfg, s.window)
    ensures var d := s.window.duration;
            && (forall r :: r in {HalfOpenFrom(cfg, s, now), ModeFrom(cfg, s, mode, now)} ==>
                  Timed(cfg, r.window) && r.window.entries == s.window.entries && Mark(d, r.log) == Mark(d, s.log))
            && (forall r :: r in {RecoverFrom(cfg, s, now), ResetFrom(cfg, s, now)} ==>
                  Timed(cfg, r.window) && r.window.entries == [] && Mark(d, r.log) == TimeRing.Seen(now / d))
  {
    hide Commit, Mark;
    var o := Observed(s, now);
    CommitRetains(cfg, o, o.(state := HalfOpen), OpenIntervalElapsed, now);
    CommitRetains(cfg, o, o.(mode := mode), ModeSet(mode), now);
    CommitEmpties(cfg, o, Cleared(cfg, o), HalfOpenRecovered, now);
    CommitEmpties(cfg, o, Cleared(cfg, o).(mode := Normal), WasReset, now);
  }

  lemma CommitEmpties(cfg: Settings, s: Model, next: Model, reason: Reason, now: int)
    requires Timed(cfg, s.window) && Rewrites(cfg, s, next, reason) && Empties(reason)
    ensures var c := Commit(cfg, s, next, reason, now);
            && Timed(cfg, c.window) && c.window.entries == []
            && Mark(s.window.duration, c.log) == TimeRing.Seen(now / s.window.duration)
  {
    hide Look, Mark;
    var c := Commit(cfg, s, next, reason, now);
    MarkAppended(s.window.duration, s.log, c.log[|s.log|]);
  }

  lemma ProbeMoves(cfg: Settings, s: Model, outcome: Outcome, now: int, sample: Sample, a: Action)
    requires ValidSettings(cfg) && Timed(cfg, s.window) && HasTime(a) && a.now == now
    ensures WindowMoves(cfg, s, a, CompleteProbe(cfg, s, outcome, now, sample))
  {
    hide OpenFrom, RecoverFrom, Judge, Mark, ValidSettings;
    var j := s.(revision := s.revision + 1, trial := s.trial + [outcome]);
    OpenRetains(cfg, j, HalfOpenFailed, now, sample);
    RecoverEmpties(cfg, j, now);
  }

  lemma RecoverEmpties(cfg: Settings, s: Model, now: int)
    requires Timed(cfg, s.window)
    ensures var r := RecoverFrom(cfg, s, now);
            Timed(cfg, r.window) && r.window.entries == [] && Mark(s.window.duration, r.log) == TimeRing.Seen(now / s.window.duration)
  {
    hide RecoverFrom, Mark;
    TransitionMoves(cfg, s, s.mode, now);
  }

  lemma HealthMoves(cfg: Settings, s: Model, outcome: Outcome, slow: bool, now: int, sample: Sample, a: Action)
    requires ValidSettings(cfg) && Timed(cfg, s.window) && HasTime(a) && a.now == now
    ensures WindowMoves(cfg, s, a, RecordHealth(cfg, s, outcome, slow, now, sample))
  {
    hide OpenFrom, Mark, Tripped, ValidSettings;
    var r := s.(window := AppendWindow(s.window, now, Record(outcome, slow && !outcome.Ignored?)));
    OpenRetains(cfg, r, PolicyOpened, now, sample);
  }

  lemma CompletionMoves(cfg: Settings, s: Model, id: nat, outcome: Outcome, slow: bool, now: int, sample: Sample, a: Action)
    requires ValidSettings(cfg) && Timed(cfg, s.window) && a == DoComplete(id, outcome, slow, now, sample)
    ensures WindowMoves(cfg, s, a, Complete(cfg, s, id, outcome, slow, now, sample).0)
  {
    hide CompleteProbe, RecordHealth, IsProbe, Mark, Timed, ValidSettings;
    if id < |s.permits| {
      var c := SetStatus(s, id, Completed(outcome));
      ProbeMoves(cfg, c, outcome, now, sample, a);
      HealthMoves(cfg, c, outcome, slow, now, sample, a);
    }
  }

  lemma StepMoves(cfg: Settings, s: Model, a: Action)
    requires ValidSettings(cfg) && Timed(cfg, s.window)
    ensures WindowMoves(cfg, s, a, Step(cfg, s, a).0)
  {
    hide HalfOpenFrom, ModeFrom, ResetFrom, Complete, Probes, Look, Mark, ValidSettings;
    match a
    case DoTryAcquire(now, _) => TransitionMoves(cfg, s, s.mode, now);
    case DoRejectWaiter =>
    case DoComplete(id, outcome, slow, now, sample) => CompletionMoves(cfg, s, id, outcome, slow, now, sample, a);
    case DoCancel(_, _) =>
    case DoSetMode(mode, now) => TransitionMoves(cfg, s, mode, now);
    case DoReset(now) => TransitionMoves(cfg, s, s.mode, now);
    case DoSnapshot(now) =>
  }

  lemma {:induction false} ForwardIsUnclamped(cfg: Settings, s: Model, actions: seq<Action>, last: int)
    requires ValidSettings(cfg) && Timed(cfg, s.window) && Unclamped(cfg, s) && Forward(actions, last)
    requires var mark := Mark(s.window.duration, s.log); mark.Seen? ==> mark.bucket <= last / s.window.duration
    ensures AllUnclamped(cfg, s, actions)
    decreases |actions|
  {
    hide Step, Mark, ValidSettings;
    if actions != [] {
      var a := actions[0];
      StepMoves(cfg, s, a);
      if HasTime(a) {
        DivideMonotone(last, a.now, s.window.duration);
      }
      ForwardIsUnclamped(cfg, Step(cfg, s, a).0, actions[1..], if HasTime(a) then a.now else last);
    }
  }

  /** In particular a clock that never goes backward hides the observer: two runs that differ only in event
      delivery give every caller the same replies. */
  lemma ForwardClockHidesObserver(cfg: Settings, delivery: Delivery, actions: seq<Action>, first: int)
    requires ValidSettings(cfg) && ValidSettings(cfg.(delivery := delivery)) && cfg.window.ByTime?
    requires cfg.delivery.NoObserver? && !delivery.NoObserver? && Forward(actions, first)
    ensures var other, s := cfg.(delivery := delivery), Initial(cfg);
            && Replies(cfg, s, actions) == Replies(other, s, actions)
            && Paired(cfg, Run(cfg, s, actions), Run(other, s, actions))
  {
    hide Step, Replies, Run, Paired;
    ForwardIsUnclamped(cfg, Initial(cfg), actions, first);
    ObserverInvisibleExactly(cfg, delivery, actions);
  }

  // ---------- a run that tells them apart ----------

  /** A reset, then an admission and a fast success at an earlier time. */
  function BackwardRun(reset: int, later: int): seq<Action> {
    [DoReset(reset), DoTryAcquire(later, false), DoComplete(0, Success, false, later, 0.0)]
  }

  lemma RunThree(cfg: Settings, s: Model, a: Action, b: Action, c: Action)
    requires ValidSettings(cfg)
    ensures Run(cfg, s, [a, b, c]) == Step(cfg, Step(cfg, Step(cfg, s, a).0, b).0, c).0
  {
    hide Step;
    assert [a, b, c][1..] == [b, c] && [b, c][1..] == [c] && [c][1..] == [];
    var t := Step(cfg, s, a).0;
    var u := Step(cfg, t, b).0;
    assert Run(cfg, s, [a, b, c]) == Run(cfg, t, [b, c]) == Run(cfg, u, [c]) == Run(cfg, Step(cfg, u, c).0, []);
  }

  /** A single fast success satisfies no opening rule. */
  lemma SuccessNeverOpens(rules: Rules, minimum: nat)
    requires ValidRules(rules)
    ensures !Opens(rules, minimum, 0, Snapshot(1, 1, 0, 0, 0, 0))
  {
    forall rule | Enabled(rules, rule)
      ensures !Satisfied(rules, rule, 0, Snapshot(1, 1, 0, 0, 0, 0))
    {
      NoRatio(1);
      hide Ratio;
    }
  }

  lemma NoRatio(n: nat)
    ensures Ratio(0, n) == 0.0
  {
    if n > 0 {
      var x := n as real;
      assert 0.0 / x == 0.0;
    }
  }

  /** Where the success of that run lands. */
  function Landing(cfg: Settings, reset: int, later: int): int
    requires cfg.window.ByTime? && cfg.window.bucketDuration > 0
  {
    var d := cfg.window.bucketDuration;
    if !cfg.delivery.NoObserver? && later / d < reset / d then reset / d else later / d
  }

  lemma BackwardRunRecords(cfg: Settings, reset: int, later: int)
    requires ValidSettings(cfg) && cfg.window.ByTime?
    ensures var s, b := Run(cfg, Initial(cfg), BackwardRun(reset, later)), Landing(cfg, reset, later);
            && s.state.Closed?
            && s.window == TimeModel(cfg.window.bucketDuration, cfg.window.bucketCount,
                                     [TimeRing.Entry(b, ONE_SUCCESS)], TimeRing.Seen(b))
  {
    hide Look, Opens, Health, OpenFrom;
    RunThree(cfg, Initial(cfg), DoReset(reset), DoTryAcquire(later, false), DoComplete(0, Success, false, later, 0.0));
    var b := Landing(cfg, reset, later);
    var s1 := ResetFrom(cfg, Initial(cfg), reset);
    var s2 := Issue(cfg, s1, later, true, false);
    assert Step(cfg, s1, DoTryAcquire(later, false)).0 == s2;
    var w := AppendWindow(s2.window, later, ONE_SUCCESS);
    assert w == TimeModel(cfg.window.bucketDuration, cfg.window.bucketCount, [TimeRing.Entry(b, ONE_SUCCESS)], TimeRing.Seen(b));
    assert Health(w) == Snapshot(1, 1, 0, 0, 0, 0) by { HealthOfOne(w, b); }
    assert Records(w) == [ONE_SUCCESS];
    assert Streak([ONE_SUCCESS], cfg.opening.resetOnIgnored) == 0;
    SuccessNeverOpens(cfg.opening, cfg.minimumThroughput);
  }

  lemma HealthOfOne(w: WindowModel, bucket: int)
    requires w.TimeModel? && w.count > 0 && w.entries == [TimeRing.Entry(bucket, ONE_SUCCESS)] && w.progress == TimeRing.Seen(bucket)
    ensures Health(w) == Snapshot(1, 1, 0, 0, 0, 0)
  {
    OneEntry(w.entries[0], bucket, w.count);
    assert w.entries == [w.entries[0]];
  }

  /** The failing input, for every time-window configuration: after that run, a snapshot taken one horizon
      past the success reports it exactly when there is an observer and the clock went back a bucket. */
  lemma BackwardClockShowsObserver(cfg: Settings, reset: int, later: int)
    requires ValidSettings(cfg) && cfg.window.ByTime?
    ensures var d, count := cfg.window.bucketDuration, cfg.window.bucketCount;
            var s := Run(cfg, Initial(cfg), BackwardRun(reset, later));
            var reply := Step(cfg, s, DoSnapshot((later / d + count) * d)).1;
            reply.Viewed? &&
            reply.view.health ==
            if !cfg.delivery.NoObserver? && later / d < reset / d then Snapshot(1, 1, 0, 0, 0, 0) else EMPTY
  {
    hide Run, ExpireProbes, Health, Landing, BackwardRun;
    var d, count, b := cfg.window.bucketDuration, cfg.window.bucketCount, Landing(cfg, reset, later);
    var s := Run(cfg, Initial(cfg), BackwardRun(reset, later));
    BackwardRunRecords(cfg, reset, later);
    Quotient((later / d + count) * d, d, later / d + count, 0);
    HorizonLater(cfg, s.window, reset, later);
  }

  lemma HorizonLater(cfg: Settings, w: WindowModel, reset: int, later: int)
    requires ValidSettings(cfg) && cfg.window.ByTime?
    requires var b := Landing(cfg, reset, later);
             w == TimeModel(cfg.window.bucketDuration, cfg.window.bucketCount, [TimeRing.Entry(b, ONE_SUCCESS)], TimeRing.Seen(b))
    requires ((later / cfg.window.bucketDuration + cfg.window.bucketCount) * cfg.window.bucketDuration) / cfg.window.bucketDuration
             == later / cfg.window.bucketDuration + cfg.window.bucketCount
    ensures var d, count := cfg.window.bucketDuration, cfg.window.bucketCount;
            Health(ObserveWindow(w, (later / d + count) * d)) ==
            if !cfg.delivery.NoObserver? && later / d < reset / d then Snapshot(1, 1, 0, 0, 0, 0) else EMPTY
  {
    hide TimeRing.View;
    var d, count, b := cfg.window.bucketDuration, cfg.window.bucketCount, Landing(cfg, reset, later);
    var current := TimeRing.Advance(TimeRing.Seen(b), later / d + count);
    OneEntry(TimeRing.Entry(b, ONE_SUCCESS), current, count);
  }
}
