/** Every accepted configuration can trip. */
module BreakerTrip {
  import opened Arithmetic
  import opened Window
  import opened Config
  import opened Policy
  import opened BreakerModel
  import opened BreakerInvariants
  import CountRing = CountWindow
  import TimeRing = TimeWindow

  function Repeat<T>(x: T, k: nat): (s: seq<T>)
    ensures |s| == k
    ensures forall i :: 0 <= i < k ==> s[i] == x
  {
    if k == 0 then [] else Repeat(x, k - 1) + [x]
  }

  /** A failure that every configured rule set can count: a slow one, or any when the rules count failures. */
  predicate Weighs(rules: Rules, record: Record) {
    record.outcome.Failure? && (record.slow || CountsFailures(rules))
  }

  ghost predicate Serving(s: Model) {
    s.state.Closed? && s.mode.Normal?
  }

  // ---------- runs that bring in nothing but failures ----------

  /** Whether completing this permit now counts for health, whoever holds it and for how long. */
  predicate Counts(s: Model, id: nat, now: int) {
    && id < |s.permits|
    && s.permits[id].status.Active?
    && Live(s, s.permits[id])
    && (s.permits[id].execution || now < s.permits[id].deadline)
  }

  /** A failure goes on record. */
  predicate Hit(rules: Rules, s: Model, a: Action) {
    a.DoComplete? && Weighs(rules, Record(a.outcome, a.slow)) && Counts(s, a.id, a.now)
  }

  /** A step that neither changes the mode, nor resets, nor records anything but such a failure. */
  predicate Adverse(rules: Rules, s: Model, a: Action) {
    match a
    case DoComplete(id, outcome, slow, now, _) => Hit(rules, s, a) || outcome.Unknown? || !Counts(s, id, now)
    case DoSetMode(mode, _) => mode == s.mode || mode.UnknownMode?
    case DoReset(_) => false
    case _ => true
  }

  ghost predicate AllAdverse(cfg: Settings, s: Model, actions: seq<Action>)
    requires ValidSettings(cfg)
    decreases |actions|
  {
    actions != [] ==> Adverse(cfg.opening, s, actions[0]) && AllAdverse(cfg, Step(cfg, s, actions[0]).0, actions[1..])
  }

  ghost function Hits(cfg: Settings, s: Model, actions: seq<Action>): nat
    requires ValidSettings(cfg)
    decreases |actions|
  {
    if actions == [] then 0
    else (if Hit(cfg.opening, s, actions[0]) then 1 else 0) + Hits(cfg, Step(cfg, s, actions[0]).0, actions[1..])
  }

  ghost predicate OpensOnTheWay(cfg: Settings, s: Model, actions: seq<Action>)
    requires ValidSettings(cfg)
  {
    exists k :: 0 < k <= |actions| && Run(cfg, s, actions[..k]).state.Open?
  }

  lemma OpensLater(cfg: Settings, s: Model, actions: seq<Action>)
    requires ValidSettings(cfg) && actions != []
    requires Step(cfg, s, actions[0]).0.state.Open? || OpensOnTheWay(cfg, Step(cfg, s, actions[0]).0, actions[1..])
    ensures OpensOnTheWay(cfg, s, actions)
  {
    hide Step;
    var t := Step(cfg, s, actions[0]).0;
    if t.state.Open? {
      assert actions[..1][1..] == [];
      assert Run(cfg, s, actions[..1]) == Run(cfg, t, []);
    } else {
      var k :| 0 < k <= |actions[1..]| && Run(cfg, t, actions[1..][..k]).state.Open?;
      assert actions[..k + 1][1..] == actions[1..][..k];
      assert Run(cfg, s, actions[..k + 1]) == Run(cfg, t, actions[1..][..k]);
    }
  }

  // ---------- the evidence they leave ----------

  /** The number of such failures after which every rule that can be configured is satisfied. */
  function Enough(cfg: Settings): nat {
    if cfg.window.ByCount? then Max(cfg.window.size, cfg.opening.consecutiveFailures)
    else Max(Max(cfg.minimumThroughput, cfg.opening.consecutiveFailures), Max(cfg.opening.failureCount, cfg.opening.slowCount))
  }

  function Max(a: nat, b: nat): nat {
    if a < b then b else a
  }

  /** A time window holds no record of the horizons that start in the `count` buckets from `from`, and has
      observed nothing past the first of them. A count window needs no such thing. */
  ghost predicate ClearFrom(w: WindowModel, from: int) {
    w.TimeModel? ==>
      && (forall e :: e in w.entries ==> e.bucket + w.count <= from)
      && (w.progress.Seen? ==> w.progress.bucket < from + w.count)
  }

  /** The timestamp lies in the horizon of `count` buckets from `from`. */
  predicate InHorizon(w: WindowShape, from: int, now: int) {
    w.ByTime? && w.bucketDuration > 0 ==> from <= now / w.bucketDuration < from + w.bucketCount
  }

  /** Whatever reads the window does so within that horizon. */
  predicate Reads(w: WindowShape, from: int, a: Action) {
    a.DoComplete? || a.DoSnapshot? ==> InHorizon(w, from, a.now)
  }

  /** The window `w` is `start` with n more failures on record. */
  ghost predicate Extended(rules: Rules, start: WindowModel, w: WindowModel, n: nat, from: int) {
    match start
    case CountModel(size, records) =>
      && w.CountModel? && w.size == size
      && |w.records| == |records| + n && w.records[..|records|] == records
      && (forall i :: |records| <= i < |w.records| ==> Weighs(rules, w.records[i]))
    case TimeModel(duration, count, entries, _) =>
      && w.TimeModel? && w.duration == duration && w.count == count
      && |w.entries| == |entries| + n && w.entries[..|entries|] == entries
      && (forall e :: e in entries ==> e.bucket + count <= from)
      && (forall i :: |entries| <= i < |w.entries| ==> Weighs(rules, w.entries[i].record) && from <= w.entries[i].bucket)
      && (w.progress.Seen? ==> w.progress.bucket < from + count)
  }

  /** The latest observation lies in the horizon. */
  predicate Current(w: WindowModel, from: int) {
    w.TimeModel? ==> w.progress.Seen? && from <= w.progress.bucket
  }

  lemma {:induction false} HitStep(cfg: Settings, s: Model, a: Action, start: WindowModel, n: nat, from: int)
    requires ValidSettings(cfg) && Inv(cfg, s) && Serving(s) && Hit(cfg.opening, s, a)
    requires Extended(cfg.opening, start, s.window, n, from) && Reads(cfg.window, from, a)
    ensures var t := Step(cfg, s, a).0;
            && t.mode.Normal?
            && (t.state.Open? || (Serving(t) && !Tripped(cfg, t) && Extended(cfg.opening, start, t.window, n + 1, from) && Current(t.window, from)))
  {
    hide OpenInterval, Health, Opens, Extended, AppendWindow;
    assert WindowOk(cfg, s.window);
    ExtendWindow(cfg, start, s.window, n, from, a.now, Record(a.outcome, a.slow));
  }

  lemma ExtendWindow(cfg: Settings, start: WindowModel, w: WindowModel, n: nat, from: int, now: int, record: Record)
    requires ValidSettings(cfg) && WindowOk(cfg, w) && Extended(cfg.opening, start, w, n, from) && InHorizon(cfg.window, from, now)
    ensures Weighs(cfg.opening, record) ==>
              var t := AppendWindow(w, now, record); Extended(cfg.opening, start, t, n + 1, from) && Current(t, from)
    ensures Extended(cfg.opening, start, ObserveWindow(w, now), n, from)
  {
    hide Weighs;
    if start.TimeModel? {
      assert AppendWindow(w, now, record).entries[..|start.entries|] == w.entries[..|start.entries|];
    } else {
      assert AppendWindow(w, now, record).records[..|start.records|] == w.records[..|start.records|];
    }
  }

  lemma {:induction false} MissStep(cfg: Settings, s: Model, a: Action, start: WindowModel, n: nat, from: int)
    requires ValidSettings(cfg) && Inv(cfg, s) && Serving(s) && Adverse(cfg.opening, s, a) && !Hit(cfg.opening, s, a)
    requires Extended(cfg.opening, start, s.window, n, from) && Reads(cfg.window, from, a)
    ensures var t := Step(cfg, s, a).0; Serving(t) && Extended(cfg.opening, start, t.window, n, from)
  {
    hide Health, Extended, CompleteProbe, RecordHealth, Probes, Look, ObserveWindow;
    assert WindowOk(cfg, s.window);
    if a.DoSnapshot? {
      ExtendWindow(cfg, start, s.window, n, from, a.now, Record(Failure, true));
    }
  }

  // ---------- the evidence is enough ----------

  lemma {:induction false} StreakOfFailures(held: seq<Record>, tail: seq<Record>, resetOnIgnored: bool)
    requires forall r :: r in tail ==> r.outcome.Failure?
    ensures Streak(held + tail, resetOnIgnored) >= |tail|
  {
    if tail != [] {
      StreakOfFailures(held, tail[..|tail| - 1], resetOnIgnored);
      var all := held + tail;
      assert all[..|all| - 1] == held + tail[..|tail| - 1];
      assert tail[|tail| - 1] in tail;
    }
  }

  lemma {:induction false} ClassifiedTail(held: seq<Record>, tail: seq<Record>)
    requires forall r :: r in tail ==> r.outcome.Failure?
    ensures CountRing.Classified(held + tail) == CountRing.Classified(held) + tail
  {
    hide CountRing.Classified;
    if tail == [] {
      assert held + tail == held;
    } else {
      var init, last := tail[..|tail| - 1], tail[|tail| - 1];
      ClassifiedTail(held, init);
      CountRing.ClassifiedAppend(held + init, last);
      assert last in tail;
      assert tail == init + [last];
      assert held + tail == held + init + [last];
    }
  }

  /** Failures and nothing else, recounted. */
  lemma {:induction false} RecountFailures(tail: seq<Record>)
    requires forall r :: r in tail ==> r.outcome.Failure?
    ensures var v := Recount(multiset(tail));
            && v.classified == v.failures == |tail| && v.slowSuccess == 0
            && ((forall r :: r in tail ==> r.slow) ==> v.slowFailure == |tail|)
  {
    if tail != [] {
      var init, last := tail[..|tail| - 1], tail[|tail| - 1];
      RecountFailures(init);
      assert last in tail;
      assert tail == init + [last];
      AddRecounts(multiset(init), last);
      assert multiset(tail) == multiset(init) + multiset{last};
    }
  }

  /** Once the ring is full of failures its aggregate shows nothing else. */
  lemma FullCountView(held: seq<Record>, tail: seq<Record>, size: nat)
    requires 0 < size <= |tail| && forall r :: r in tail ==> r.outcome.Failure?
    ensures var v := CountRing.View(held + tail, size);
            && v.classified == v.failures == size && v.slowSuccess == 0
            && ((forall r :: r in tail ==> r.slow) ==> v.slowFailure == size)
  {
    hide CountRing.Classified, Recount;
    ClassifiedTail(held, tail);
    var last := tail[|tail| - size..];
    assert CountRing.LastN(CountRing.Classified(held) + tail, size) == last;
    RecountFailures(last);
  }

  /** A horizon that holds exactly the entries from place `aged` on. */
  lemma {:induction false} FullTimeView(entries: seq<TimeRing.Entry>, aged: nat, pick: int -> bool)
    requires aged <= |entries|
    requires forall i :: 0 <= i < aged ==> !pick(entries[i].bucket)
    requires forall i :: aged <= i < |entries| ==> pick(entries[i].bucket)
    ensures TimeRing.Selected(entries, pick) == multiset(RecordsOf(entries[aged..]))
  {
    if aged == |entries| {
      TimeRing.SelectedNone(entries, pick);
      assert RecordsOf(entries[aged..]) == [];
    } else {
      var init := entries[..|entries| - 1];
      FullTimeView(init, aged, pick);
      assert RecordsOf(entries[aged..]) == RecordsOf(init[aged..]) + [entries[|entries| - 1].record];
    }
  }

  lemma EnoughForCount(cfg: Settings, start: WindowModel, w: WindowModel, n: nat, from: int)
    requires ValidSettings(cfg) && WindowOk(cfg, w) && Extended(cfg.opening, start, w, n, from) && w.CountModel? && n >= Enough(cfg)
    ensures Opens(cfg.opening, cfg.minimumThroughput, Streak(Records(w), cfg.opening.resetOnIgnored), Health(w))
  {
    hide Streak, CountRing.View, Opens, CountsFailures;
    var tail := w.records[|start.records|..];
    assert w.records == start.records + tail;
    assert forall r :: r in tail ==> Weighs(cfg.opening, r);
    FullCountView(start.records, tail, cfg.window.size);
    StreakOfFailures(start.records, tail, cfg.opening.resetOnIgnored);
    FailuresOpen(cfg.opening, cfg.minimumThroughput, Streak(Records(w), cfg.opening.resetOnIgnored),
                 Health(w), cfg.window.size);
  }

  lemma EnoughForTime(cfg: Settings, start: WindowModel, w: WindowModel, n: nat, from: int)
    requires ValidSettings(cfg) && WindowOk(cfg, w) && Extended(cfg.opening, start, w, n, from) && w.TimeModel? && n >= Enough(cfg)
    requires Current(w, from)
    ensures Opens(cfg.opening, cfg.minimumThroughput, Streak(Records(w), cfg.opening.resetOnIgnored), Health(w))
  {
    hide Streak, Opens, CountsFailures, TimeRing.Selected, Recount;
    var aged, pick := |start.entries|, TimeRing.Within(w.progress.bucket, w.count);
    forall i | 0 <= i < |w.entries|
      ensures if i < aged then !pick(w.entries[i].bucket) else pick(w.entries[i].bucket)
    {
      assert w.entries[i] in w.entries;
      assert i < aged ==> w.entries[i] == w.entries[..aged][i] == start.entries[i];
    }
    FullTimeView(w.entries, aged, pick);
    var tail := RecordsOf(w.entries[aged..]);
    assert forall r :: r in tail ==> Weighs(cfg.opening, r);
    RecountFailures(tail);
    assert Records(w) == RecordsOf(w.entries[..aged]) + tail;
    StreakOfFailures(RecordsOf(w.entries[..aged]), tail, cfg.opening.resetOnIgnored);
    FailuresOpen(cfg.opening, cfg.minimumThroughput, Streak(Records(w), cfg.opening.resetOnIgnored), Health(w), n);
  }

  // ---------- the theorems ----------

  lemma {:induction false} AdverseRunOpens(cfg: Settings, s: Model, actions: seq<Action>, start: WindowModel, n: nat, from: int)
    requires ValidSettings(cfg) && Inv(cfg, s) && Serving(s) && AllAdverse(cfg, s, actions)
    requires Extended(cfg.opening, start, s.window, n, from) && forall a :: a in actions ==> Reads(cfg.window, from, a)
    requires n < Enough(cfg) <= n + Hits(cfg, s, actions)
    ensures OpensOnTheWay(cfg, s, actions)
    decreases |actions|
  {
    hide Step, Inv, Extended, Hit, Adverse, Tripped, Enough, Reads, OpensOnTheWay;
    assert actions != [];
    var a, rest := actions[0], actions[1..];
    var t := Step(cfg, s, a).0;
    StepKeeps(cfg, s, a);
    if Hit(cfg.opening, s, a) {
      HitStep(cfg, s, a, start, n, from);
      if !t.state.Open? {
        if n + 1 < Enough(cfg) {
          AdverseRunOpens(cfg, t, rest, start, n + 1, from);
        } else {
          EnoughTrips(cfg, t, start, n + 1, from);
        }
      }
    } else {
      MissStep(cfg, s, a, start, n, from);
      AdverseRunOpens(cfg, t, rest, start, n, from);
    }
    OpensLater(cfg, s, actions);
  }

  lemma EnoughTrips(cfg: Settings, s: Model, start: WindowModel, n: nat, from: int)
    requires ValidSettings(cfg) && Inv(cfg, s) && Extended(cfg.opening, start, s.window, n, from) && Current(s.window, from) && n >= Enough(cfg)
    ensures Tripped(cfg, s)
  {
    hide Opens, Streak, Health, Extended, Enough, Current;
    if s.window.CountModel? {
      EnoughForCount(cfg, start, s.window, n, from);
    } else {
      EnoughForTime(cfg, start, s.window, n, from);
    }
  }

  lemma StartsExtended(cfg: Settings, s: Model, from: int)
    requires ValidSettings(cfg) && Inv(cfg, s) && ClearFrom(s.window, from)
    ensures Extended(cfg.opening, s.window, s.window, 0, from) && Enough(cfg) > 0
  {
  }

  /** From any reachable serving state of any accepted count-window configuration, max(Size,
      ConsecutiveFailures) failing completions of current permits open the breaker on the way - slow ones
      whatever the rules, fast ones too when the rules count failures: permits of any kind, issued before or
      during the run, held for however long, at any observed times, with admissions, cancellations, expiries,
      snapshots and completions of dead permits in between. */
  lemma {:induction false} CountWindowTrips(cfg: Settings, s: Model, actions: seq<Action>)
    requires ValidSettings(cfg) && cfg.window.ByCount? && Inv(cfg, s) && Serving(s)
    requires AllAdverse(cfg, s, actions)
    requires Hits(cfg, s, actions) >= Max(cfg.window.size, cfg.opening.consecutiveFailures)
    ensures OpensOnTheWay(cfg, s, actions)
  {
    hide AllAdverse, Hits, OpensOnTheWay;
    assert s.window.CountModel?;
    StartsExtended(cfg, s, 0);
    AdverseRunOpens(cfg, s, actions, s.window, 0, 0);
  }

  /** The same for time windows with the largest configured count of failures, when the run reads the
      window within one horizon that no older record reaches into. */
  lemma {:induction false} TimeWindowTrips(cfg: Settings, s: Model, actions: seq<Action>, from: int)
    requires ValidSettings(cfg) && cfg.window.ByTime? && Inv(cfg, s) && Serving(s)
    requires AllAdverse(cfg, s, actions)
    requires ClearFrom(s.window, from) && forall a :: a in actions ==> Reads(cfg.window, from, a)
    requires Hits(cfg, s, actions) >=
             Max(Max(cfg.minimumThroughput, cfg.opening.consecutiveFailures), Max(cfg.opening.failureCount, cfg.opening.slowCount))
    ensures OpensOnTheWay(cfg, s, actions)
  {
    hide AllAdverse, Hits, OpensOnTheWay, ClearFrom;
    StartsExtended(cfg, s, from);
    AdverseRunOpens(cfg, s, actions, s.window, 0, from);
  }

  // ---------- calls ----------

  /** A call: admitted at one time, completed at another. */
  datatype Call = Call(at: int, execution: bool, done: int, outcome: Outcome, slow: bool, sample: Sample)

  /** An Execute permit, or one completed within its time to live. */
  predicate InTime(cfg: Settings, c: Call) {
    c.execution || c.done < c.at + cfg.permitTTL
  }

  function Begin(c: Call): Action {
    DoTryAcquire(c.at, c.execution)
  }

  function End(s: Model, c: Call): Action {
    DoComplete(|s.permits|, c.outcome, c.slow, c.done, c.sample)
  }

  function Attempt(s: Model, c: Call): seq<Action> {
    [Begin(c), End(s, c)]
  }

  /** A call whose failure the rules can count. */
  predicate Fails(rules: Rules, c: Call) {
    Weighs(rules, Record(c.outcome, c.slow))
  }

  /** Calls one after the other. */
  ghost function Attempts(cfg: Settings, s: Model, calls: seq<Call>): seq<Action>
    requires ValidSettings(cfg)
    decreases |calls|
  {
    if calls == [] then []
    else
      var first := Attempt(s, calls[0]);
      first + Attempts(cfg, Run(cfg, s, first), calls[1..])
  }

  /** A serving breaker admits a call and records its failure. */
  lemma {:induction false} OneCall(cfg: Settings, s: Model, c: Call)
    requires ValidSettings(cfg) && Inv(cfg, s) && Serving(s) && InTime(cfg, c) && Fails(cfg.opening, c)
    ensures var t := Step(cfg, s, Begin(c)).0;
            && Step(cfg, s, Begin(c)).1 == Admitted(|s.permits|) && Serving(t) && Hit(cfg.opening, t, End(s, c))
            && var u := Step(cfg, t, End(s, c)).0;
               u == Run(cfg, s, Attempt(s, c)) && Inv(cfg, u) && u.mode.Normal? && (u.state.Open? || u.state.Closed?)
  {
    hide Inv, Health, OpenInterval, Tripped, Run, AppendWindow;
    var t := Step(cfg, s, Begin(c)).0;
    assert t == Issue(cfg, s, c.at, true, c.execution);
    StepKeeps(cfg, s, Begin(c));
    StepKeeps(cfg, t, End(s, c));
    RunTwo(cfg, s, Begin(c), End(s, c));
  }

  lemma RunTwo(cfg: Settings, s: Model, a: Action, b: Action)
    requires ValidSettings(cfg)
    ensures Run(cfg, s, [a, b]) == Step(cfg, Step(cfg, s, a).0, b).0
  {
    hide Step;
    assert [a, b][1..] == [b];
    assert [b][1..] == [];
    assert Run(cfg, s, [a, b]) == Run(cfg, Step(cfg, s, a).0, [b]);
    assert Run(cfg, Step(cfg, s, a).0, [b]) == Run(cfg, Step(cfg, Step(cfg, s, a).0, b).0, []);
  }

  /** The actions of a call, at its two times. */
  lemma {:induction false} AttemptsAre(cfg: Settings, s: Model, calls: seq<Call>)
    requires ValidSettings(cfg)
    ensures forall a :: a in Attempts(cfg, s, calls) ==>
              a.DoTryAcquire? || (a.DoComplete? && exists c :: c in calls && a.now == c.done)
    decreases |calls|
  {
    hide Step, Run;
    if calls != [] {
      AttemptsAre(cfg, Run(cfg, s, Attempt(s, calls[0])), calls[1..]);
      assert calls[0] in calls && forall c :: c in calls[1..] ==> c in calls;
    }
  }

  /** Unless the breaker opens, every call is a hit. */
  lemma {:induction false} CallsHit(cfg: Settings, s: Model, calls: seq<Call>)
    requires ValidSettings(cfg) && Inv(cfg, s) && Serving(s) && forall c :: c in calls ==> InTime(cfg, c) && Fails(cfg.opening, c)
    ensures var actions := Attempts(cfg, s, calls);
            || OpensOnTheWay(cfg, s, actions)
            || (AllAdverse(cfg, s, actions) && Hits(cfg, s, actions) == |calls|)
    decreases |calls|
  {
    hide Step, Inv, Hit, OpensOnTheWay;
    if calls != [] {
      var actions := Attempts(cfg, s, calls);
      var a, b := Begin(calls[0]), End(s, calls[0]);
      OneCall(cfg, s, calls[0]);
      var t := Step(cfg, s, a).0;
      var u := Step(cfg, t, b).0;
      var rest := Attempts(cfg, u, calls[1..]);
      assert actions == [a, b] + rest;
      assert actions[0] == a && actions[1..] == [b] + rest && actions[1..][0] == b && actions[1..][1..] == rest;
      if !u.state.Open? {
        CallsHit(cfg, u, calls[1..]);
      }
      if u.state.Open? || OpensOnTheWay(cfg, u, rest) {
        OpensLater(cfg, t, actions[1..]);
        OpensLater(cfg, s, actions);
      } else {
        NotAHit(cfg, s, a);
      }
    }
  }

  lemma NotAHit(cfg: Settings, s: Model, a: Action)
    requires a.DoTryAcquire?
    ensures !Hit(cfg.opening, s, a) && Adverse(cfg.opening, s, a)
  {
  }

  /** So every accepted configuration can trip by calls alone: enough failures the rules count in a row, each admitted
      and completed at any times (within one fresh horizon, for a time window), open the breaker. */
  lemma {:induction false} CallsTrip(cfg: Settings, s: Model, calls: seq<Call>, from: int)
    requires ValidSettings(cfg) && Inv(cfg, s) && Serving(s) && |calls| == Enough(cfg)
    requires forall c :: c in calls ==> InTime(cfg, c) && Fails(cfg.opening, c) && InHorizon(cfg.window, from, c.done)
    requires ClearFrom(s.window, from)
    ensures OpensOnTheWay(cfg, s, Attempts(cfg, s, calls))
  {
    hide AllAdverse, Hits, OpensOnTheWay, ClearFrom, Attempts, Inv, InHorizon;
    var actions := Attempts(cfg, s, calls);
    CallsHit(cfg, s, calls);
    AttemptsAre(cfg, s, calls);
    if !OpensOnTheWay(cfg, s, actions) {
      forall a | a in actions
        ensures Reads(cfg.window, from, a)
      {
      }
      StartsExtended(cfg, s, from);
      AdverseRunOpens(cfg, s, actions, s.window, 0, from);
    }
  }

  /** A fresh horizon always comes: one full ring past everything observed, and every later one. */
  lemma FreshHorizon(cfg: Settings, s: Model, from: int)
    requires ValidSettings(cfg) && Inv(cfg, s)
    requires s.window.TimeModel? && s.window.progress.Seen? ==> s.window.progress.bucket + s.window.count <= from
    ensures ClearFrom(s.window, from)
  {
    assert WindowOk(cfg, s.window);
  }

  /** When to call, for a time window: at the start of a bucket a full ring past everything observed. */
  function FreshTime(cfg: Settings, w: WindowModel): int {
    if w.CountModel? || w.progress.Unseen? then 0 else (w.progress.bucket + w.count) * w.duration
  }

  /** Every accepted configuration can trip: from every reachable closed state in normal mode, whatever its
      window holds, there are calls that open the breaker. */
  lemma {:induction false} CanTrip(cfg: Settings, actions: seq<Action>) returns (calls: seq<Call>)
    requires ValidSettings(cfg)
    requires Run(cfg, Initial(cfg), actions).state.Closed? && Run(cfg, Initial(cfg), actions).mode.Normal?
    ensures var s := Run(cfg, Initial(cfg), actions); OpensOnTheWay(cfg, s, Attempts(cfg, s, calls))
  {
    hide Run, OpensOnTheWay, Attempts, Enough;
    Reachable(cfg, actions);
    var s := Run(cfg, Initial(cfg), actions);
    var now := FreshTime(cfg, s.window);
    var from := if cfg.window.ByTime? then now / cfg.window.bucketDuration else 0;
    calls := Repeat(Call(now, false, now, Failure, true, 0.0), Enough(cfg));
    FreshTimeReads(cfg, s, now, from);
    CallsTrip(cfg, s, calls, from);
  }

  lemma FreshTimeReads(cfg: Settings, s: Model, now: int, from: int)
    requires ValidSettings(cfg) && Inv(cfg, s) && now == FreshTime(cfg, s.window)
    requires from == if cfg.window.ByTime? then now / cfg.window.bucketDuration else 0
    ensures ClearFrom(s.window, from) && InHorizon(cfg.window, from, now)
  {
    assert WindowOk(cfg, s.window);
    if s.window.TimeModel? && s.window.progress.Seen? {
      Quotient(now, s.window.duration, s.window.progress.bucket + s.window.count, 0);
    }
    FreshHorizon(cfg, s, from);
  }
}
