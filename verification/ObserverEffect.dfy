/** What configuring an observer changes about policy. */
module ObserverEffect {
  import opened Window
  import opened Config
  import opened Policy
  import opened BreakerModel
  import TimeRing = TimeWindow

  /** Event delivery reads no window that could tell: a count window, or observers on both sides or neither. */
  predicate Indifferent(cfg: Settings, delivery: Delivery, w: WindowModel) {
    (cfg.window.ByCount? && w.CountModel?) || (cfg.delivery.NoObserver? <==> delivery.NoObserver?)
  }

  /** Then the runs of two configurations that differ only in event delivery are equal, state by state. */
  lemma {:induction false} DeliveryUnaffected(cfg: Settings, delivery: Delivery, s: Model, actions: seq<Action>)
    requires ValidSettings(cfg) && ValidDelivery(delivery) && Indifferent(cfg, delivery, s.window)
    ensures var other := cfg.(delivery := delivery);
            ValidSettings(other) && Run(cfg, s, actions) == Run(other, s, actions)
    decreases |actions|
  {
    hide Step, Indifferent;
    var other := cfg.(delivery := delivery);
    SettingsStayValid(cfg, delivery);
    if actions != [] {
      StepUnaffected(cfg, delivery, s, actions[0]);
      DeliveryUnaffected(cfg, delivery, Step(cfg, s, actions[0]).0, actions[1..]);
    }
  }

  /** With a count window event delivery changes nothing at all. */
  lemma CountWindowUnaffected(cfg: Settings, delivery: Delivery, s: Model, actions: seq<Action>)
    requires ValidSettings(cfg) && ValidDelivery(delivery) && cfg.window.ByCount? && s.window.CountModel?
    ensures var other := cfg.(delivery := delivery);
            ValidSettings(other) && Run(cfg, s, actions) == Run(other, s, actions)
  {
    DeliveryUnaffected(cfg, delivery, s, actions);
  }

  lemma SettingsStayValid(cfg: Settings, delivery: Delivery)
    requires ValidSettings(cfg) && ValidDelivery(delivery)
    ensures ValidSettings(cfg.(delivery := delivery))
  {
  }

  lemma CommitUnaffected(cfg: Settings, delivery: Delivery, s: Model, next: Model, reason: Reason, now: int)
    requires Indifferent(cfg, delivery, next.window)
    ensures Commit(cfg, s, next, reason, now) == Commit(cfg.(delivery := delivery), s, next, reason, now)
    ensures Indifferent(cfg, delivery, Commit(cfg, s, next, reason, now).window)
  {
    hide Look;
    var moved := next.(generation := next.generation + 1, lastTransition := now, trial := [], revision := next.revision + 1);
    assert next.window.CountModel? ==> Observed(moved, now) == moved;
  }

  lemma TransitionsUnaffected(cfg: Settings, delivery: Delivery, s: Model, reason: Reason, mode: Mode, now: int, sample: Sample)
    requires ValidSettings(cfg) && ValidDelivery(delivery) && Indifferent(cfg, delivery, s.window)
    ensures var other := cfg.(delivery := delivery);
            && ValidSettings(other)
            && OpenFrom(cfg, s, reason, now, sample) == OpenFrom(other, s, reason, now, sample)
            && HalfOpenFrom(cfg, s, now) == HalfOpenFrom(other, s, now)
            && RecoverFrom(cfg, s, now) == RecoverFrom(other, s, now)
            && ResetFrom(cfg, s, now) == ResetFrom(other, s, now)
            && ModeFrom(cfg, s, mode, now) == ModeFrom(other, s, mode, now)
            && Indifferent(cfg, delivery, OpenFrom(cfg, s, reason, now, sample).window)
            && Indifferent(cfg, delivery, HalfOpenFrom(cfg, s, now).window)
            && Indifferent(cfg, delivery, RecoverFrom(cfg, s, now).window) && Indifferent(cfg, delivery, ResetFrom(cfg, s, now).window)
            && Indifferent(cfg, delivery, ModeFrom(cfg, s, mode, now).window)
  {
    hide Commit, OpenInterval;
    var other := cfg.(delivery := delivery);
    SettingsStayValid(cfg, delivery);
    SameInterval(cfg, delivery, s.openings + 1, sample);
    var duration := OpenInterval(cfg, s.openings + 1, sample);
    var o := Observed(s, now);
    CommitUnaffected(cfg, delivery, o, o.(state := State.Open, openings := o.openings + 1, openDuration := duration,
                                          nextProbeAt := now + duration), reason, now);
    CommitUnaffected(cfg, delivery, o, o.(state := HalfOpen), OpenIntervalElapsed, now);
    CommitUnaffected(cfg, delivery, o, Cleared(cfg, o), HalfOpenRecovered, now);
    CommitUnaffected(cfg, delivery, o, Cleared(cfg, o).(mode := Normal), WasReset, now);
    CommitUnaffected(cfg, delivery, o, o.(mode := mode), ModeSet(mode), now);
  }

  lemma SameInterval(cfg: Settings, delivery: Delivery, openings: nat, sample: Sample)
    requires ValidSettings(cfg) && ValidSettings(cfg.(delivery := delivery)) && openings > 0
    ensures OpenInterval(cfg, openings, sample) == OpenInterval(cfg.(delivery := delivery), openings, sample)
  {
  }

  lemma StepUnaffected(cfg: Settings, delivery: Delivery, s: Model, a: Action)
    requires ValidSettings(cfg) && ValidDelivery(delivery) && Indifferent(cfg, delivery, s.window)
    ensures var other := cfg.(delivery := delivery);
            && ValidSettings(other)
            && Step(cfg, s, a) == Step(other, s, a) && Indifferent(cfg, delivery, Step(cfg, s, a).0.window)
  {
    hide OpenFrom, HalfOpenFrom, RecoverFrom, ResetFrom, ModeFrom, Look, Probes, Health;
    SettingsStayValid(cfg, delivery);
    match a
    case DoTryAcquire(now, _) => TransitionsUnaffected(cfg, delivery, s, WasReset, s.mode, now, 0.0);
    case DoRejectWaiter =>
    case DoComplete(id, outcome, slow, now, sample) =>
      if id < |s.permits| {
        CompletionUnaffected(cfg, delivery, SetStatus(s, id, Completed(outcome)), outcome, slow, now, sample);
      }
    case DoCancel(_, _) =>
    case DoSetMode(mode, now) => TransitionsUnaffected(cfg, delivery, s, WasReset, mode, now, 0.0);
    case DoReset(now) => TransitionsUnaffected(cfg, delivery, s, WasReset, s.mode, now, 0.0);
    case DoSnapshot(now) =>
  }

  lemma AppendStaysIndifferent(cfg: Settings, delivery: Delivery, w: WindowModel, now: int, record: Record)
    requires Indifferent(cfg, delivery, w)
    ensures Indifferent(cfg, delivery, AppendWindow(w, now, record))
  {
  }

  lemma CompletionUnaffected(cfg: Settings, delivery: Delivery, s: Model, outcome: Outcome, slow: bool, now: int, sample: Sample)
    requires ValidSettings(cfg) && ValidDelivery(delivery) && Indifferent(cfg, delivery, s.window)
    ensures var other := cfg.(delivery := delivery);
            && ValidSettings(other)
            && CompleteProbe(cfg, s, outcome, now, sample) == CompleteProbe(other, s, outcome, now, sample)
            && RecordHealth(cfg, s, outcome, slow, now, sample) == RecordHealth(other, s, outcome, slow, now, sample)
            && Indifferent(cfg, delivery, CompleteProbe(cfg, s, outcome, now, sample).window)
            && Indifferent(cfg, delivery, RecordHealth(cfg, s, outcome, slow, now, sample).window)
  {
    hide CompleteProbe, RecordHealth;
    SettingsStayValid(cfg, delivery);
    ProbeUnaffected(cfg, delivery, s, outcome, now, sample);
    HealthUnaffected(cfg, delivery, s, outcome, slow, now, sample);
  }

  lemma ProbeUnaffected(cfg: Settings, delivery: Delivery, s: Model, outcome: Outcome, now: int, sample: Sample)
    requires ValidSettings(cfg) && ValidSettings(cfg.(delivery := delivery)) && ValidDelivery(delivery)
    requires Indifferent(cfg, delivery, s.window)
    ensures CompleteProbe(cfg, s, outcome, now, sample) == CompleteProbe(cfg.(delivery := delivery), s, outcome, now, sample)
    ensures Indifferent(cfg, delivery, CompleteProbe(cfg, s, outcome, now, sample).window)
  {
    hide OpenFrom, RecoverFrom, Judge, Indifferent, ValidSettings;
    var judged := s.(revision := s.revision + 1, trial := s.trial + [outcome]);
    TransitionsUnaffected(cfg, delivery, judged, HalfOpenFailed, s.mode, now, sample);
  }

  lemma HealthUnaffected(cfg: Settings, delivery: Delivery, s: Model, outcome: Outcome, slow: bool, now: int, sample: Sample)
    requires ValidSettings(cfg) && ValidSettings(cfg.(delivery := delivery)) && ValidDelivery(delivery)
    requires Indifferent(cfg, delivery, s.window)
    ensures RecordHealth(cfg, s, outcome, slow, now, sample) ==
            RecordHealth(cfg.(delivery := delivery), s, outcome, slow, now, sample)
    ensures Indifferent(cfg, delivery, RecordHealth(cfg, s, outcome, slow, now, sample).window)
  {
    hide OpenFrom, Health, Opens, AppendWindow;
    var record := Record(outcome, slow && !outcome.Ignored?);
    var recorded := s.(window := AppendWindow(s.window, now, record));
    AppendStaysIndifferent(cfg, delivery, s.window, now, record);
    TransitionsUnaffected(cfg, delivery, recorded, PolicyOpened, s.mode, now, sample);
  }

  /** Whether a record lands in the same bucket of both windows. */
  predicate LandsAlike(w: WindowModel, w': WindowModel, now: int, record: Record) {
    AppendWindow(w, now, record) == AppendWindow(w', now, record)
  }

  /** With a time window one record tells: the first one after a reset or recovery lands in the same bucket
      with and without an observer exactly when its own bucket is not before the transition's. */
  lemma TimeWindowClampsForObserver(cfg: Settings, delivery: Delivery, s: Model, at: int, later: int, record: Record)
    requires ValidSettings(cfg) && cfg.window.ByTime? && cfg.delivery.NoObserver? && !delivery.NoObserver?
    ensures var other, d := cfg.(delivery := delivery), cfg.window.bucketDuration;
            && (LandsAlike(ResetFrom(cfg, s, at).window, ResetFrom(other, s, at).window, later, record)
                <==> at / d <= later / d)
            && (LandsAlike(RecoverFrom(cfg, s, at).window, RecoverFrom(other, s, at).window, later, record)
                <==> at / d <= later / d)
  {
    hide Look;
    var d := cfg.window.bucketDuration;
    var unread, read := FreshWindow(cfg.window), ObserveWindow(FreshWindow(cfg.window), at);
    assert AppendWindow(unread, later, record).entries == [TimeRing.Entry(later / d, record)];
    assert AppendWindow(read, later, record).entries ==
           [TimeRing.Entry(if at / d <= later / d then later / d else at / d, record)];
  }
}
