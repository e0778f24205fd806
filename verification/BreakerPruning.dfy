/** Terminal actions on stale or non-recording permits never influence health. */
module BreakerPruning {
  import opened Window
  import opened Config
  import opened BreakerModel
  import opened BreakerInvariants

  /** A terminal action on a permit of an earlier epoch or of disabled mode. */
  ghost predicate Inert(s: Model, a: Action) {
    match a
    case DoComplete(id, _, _, _, _) => id < |s.permits| && !Live(s, s.permits[id])
    case DoCancel(id, _) => id < |s.permits| && !Live(s, s.permits[id])
    case _ => false
  }

  /** The run without its inert actions; which actions are inert is read off the full run. */
  ghost function Pruned(cfg: Settings, s: Model, actions: seq<Action>): seq<Action>
    requires ValidSettings(cfg)
    decreases |actions|
  {
    if actions == [] then []
    else (if Inert(s, actions[0]) then [] else [actions[0]]) + Pruned(cfg, Step(cfg, s, actions[0]).0, actions[1..])
  }

  /** The replies the callers of the remaining actions see, in a run. */
  ghost function Replies(cfg: Settings, s: Model, actions: seq<Action>): seq<Reply>
    requires ValidSettings(cfg)
    decreases |actions|
  {
    if actions == [] then []
    else [Step(cfg, s, actions[0]).1] + Replies(cfg, Step(cfg, s, actions[0]).0, actions[1..])
  }

  ghost function KeptReplies(cfg: Settings, s: Model, actions: seq<Action>): seq<Reply>
    requires ValidSettings(cfg)
    decreases |actions|
  {
    if actions == [] then []
    else (if Inert(s, actions[0]) then [] else [Step(cfg, s, actions[0]).1])
         + KeptReplies(cfg, Step(cfg, s, actions[0]).0, actions[1..])
  }

  ghost predicate SamePermit(s: Model, p: PermitRecord, q: PermitRecord) {
    q == p.(status := q.status) && (Live(s, p) ==> q.status == p.status)
  }

  ghost predicate SamePermits(s: Model, t: Model) {
    |t.permits| == |s.permits| && forall i :: 0 <= i < |s.permits| ==> SamePermit(s, s.permits[i], t.permits[i])
  }

  /** Everything equal - state, mode, generation, window, streak, sample, schedule, log, admission and
      rejection counts - except the statuses of permits that are not live. */
  ghost predicate Alike(s: Model, t: Model) {
    t == s.(permits := t.permits) && SamePermits(s, t)
  }

  lemma AlikeProbes(s: Model, t: Model)
    requires Alike(s, t)
    ensures Probes(t) == Probes(s) && Look(t) == Look(s)
    ensures forall now :: Overdue(t, now) == Overdue(s, now)
  {
    assert forall i :: 0 <= i < |s.permits| ==> SamePermit(s, s.permits[i], t.permits[i]);
    assert Probes(t) == Probes(s);
    forall now
      ensures Overdue(t, now) == Overdue(s, now)
    {
      assert forall i :: i in Probes(s) ==> t.permits[i].deadline == s.permits[i].deadline;
    }
  }

  /** Likeness survives any change of epoch that moves the generation forward. */
  lemma AlikeAfter(s: Model, t: Model, s': Model, t': Model)
    requires Alike(s, t) && PermitsOk(s)
    requires s'.permits == s.permits && t'.permits == t.permits && t' == s'.(permits := t.permits)
    requires s'.generation == s.generation ==> s'.state == s.state
    requires s.generation <= s'.generation
    ensures Alike(s', t')
  {
    forall i | 0 <= i < |s'.permits|
      ensures SamePermit(s', s'.permits[i], t'.permits[i])
    {
      assert SamePermit(s, s.permits[i], t.permits[i]);
      assert PermitOk(s, s.permits[i]);
    }
  }

  lemma AlikeObserved(s: Model, t: Model, now: int)
    requires Alike(s, t) && PermitsOk(s)
    ensures Alike(Observed(s, now), Observed(t, now)) && PermitsOk(Observed(s, now))
  {
    AlikeAfter(s, t, Observed(s, now), Observed(t, now));
    SameEpoch(s, Observed(s, now));
  }

  lemma AlikeCommit(cfg: Settings, s: Model, t: Model, next: Model, next': Model, reason: Reason, now: int)
    requires Alike(s, t) && PermitsOk(s)
    requires next.permits == s.permits && next.generation == s.generation && next.log == s.log
    requires next' == next.(permits := t.permits)
    ensures Alike(Commit(cfg, s, next, reason, now), Commit(cfg, t, next', reason, now))
  {
    hide Health;
    AlikeProbes(s, t);
    var moved := next.(generation := next.generation + 1, lastTransition := now, trial := [], revision := next.revision + 1);
    var moved' := next'.(generation := next.generation + 1, lastTransition := now, trial := [], revision := next.revision + 1);
    AlikeAfter(s, t, moved, moved');
    AlikeAfter(s, t, Observed(moved, now), Observed(moved', now));
    AlikeProbes(Observed(moved, now), Observed(moved', now));
    var c, c' := Commit(cfg, s, next, reason, now), Commit(cfg, t, next', reason, now);
    assert c'.log == c.log;
    AlikeAfter(s, t, c, c');
  }

  lemma AlikeOpen(cfg: Settings, s: Model, t: Model, reason: Reason, now: int, sample: real)
    requires ValidSettings(cfg) && 0.0 <= sample < 1.0 && Alike(s, t) && PermitsOk(s)
    ensures Alike(OpenFrom(cfg, s, reason, now, sample), OpenFrom(cfg, t, reason, now, sample))
  {
    hide OpenInterval, Health, Commit;
    AlikeObserved(s, t, now);
    var o, o' := Observed(s, now), Observed(t, now);
    var duration := OpenInterval(cfg, o.openings + 1, sample);
    AlikeCommit(cfg, o, o',
                o.(state := Open, openings := o.openings + 1, openDuration := duration, nextProbeAt := now + duration),
                o'.(state := Open, openings := o.openings + 1, openDuration := duration, nextProbeAt := now + duration),
                reason, now);
  }

  lemma AlikeTransitions(cfg: Settings, s: Model, t: Model, mode: Mode, now: int)
    requires Alike(s, t) && PermitsOk(s)
    ensures Alike(HalfOpenFrom(cfg, s, now), HalfOpenFrom(cfg, t, now))
    ensures Alike(RecoverFrom(cfg, s, now), RecoverFrom(cfg, t, now))
    ensures Alike(ResetFrom(cfg, s, now), ResetFrom(cfg, t, now))
    ensures Alike(ModeFrom(cfg, s, mode, now), ModeFrom(cfg, t, mode, now))
  {
    hide Health, Commit;
    AlikeObserved(s, t, now);
    var o, o' := Observed(s, now), Observed(t, now);
    AlikeCommit(cfg, o, o', o.(state := HalfOpen), o'.(state := HalfOpen), OpenIntervalElapsed, now);
    AlikeCommit(cfg, o, o', Cleared(cfg, o), Cleared(cfg, o'), HalfOpenRecovered, now);
    AlikeCommit(cfg, o, o', Cleared(cfg, o).(mode := Normal), Cleared(cfg, o').(mode := Normal), WasReset, now);
    AlikeCommit(cfg, o, o', o.(mode := mode), o'.(mode := mode), ModeSet(mode), now);
  }

  lemma AlikeExpire(s: Model, t: Model, now: int)
    requires Alike(s, t)
    ensures Alike(ExpireProbes(s, now), ExpireProbes(t, now))
  {
    AlikeProbes(s, t);
    var e, e' := ExpireProbes(s, now), ExpireProbes(t, now);
    forall i | 0 <= i < |e.permits|
      ensures SamePermit(e, e.permits[i], e'.permits[i])
    {
      assert SamePermit(s, s.permits[i], t.permits[i]);
    }
  }

  lemma AlikeIssue(cfg: Settings, s: Model, t: Model, now: int, recording: bool, execution: bool)
    requires Alike(s, t)
    ensures Alike(Issue(cfg, s, now, recording, execution), Issue(cfg, t, now, recording, execution))
  {
    var e, e' := Issue(cfg, s, now, recording, execution), Issue(cfg, t, now, recording, execution);
    forall i | 0 <= i < |e.permits|
      ensures SamePermit(e, e.permits[i], e'.permits[i])
    {
      if i < |s.permits| {
        assert SamePermit(s, s.permits[i], t.permits[i]);
      }
    }
  }

  lemma AlikeStatus(s: Model, t: Model, id: nat, status: Status)
    requires Alike(s, t) && id < |s.permits|
    ensures Alike(SetStatus(s, id, status), SetStatus(t, id, status))
    ensures Live(s, s.permits[id]) ==> Alike(Release(s, id, status), Release(t, id, status))
    ensures !Live(s, s.permits[id]) ==> Alike(SetStatus(s, id, status), t) && Alike(Release(s, id, status), t)
  {
    assert forall i :: 0 <= i < |s.permits| ==> SamePermit(s, s.permits[i], t.permits[i]);
    var e, e' := SetStatus(s, id, status), SetStatus(t, id, status);
    assert SamePermits(e, e') && (!Live(s, s.permits[id]) ==> SamePermits(e, t));
    assert SamePermits(Release(s, id, status), Release(t, id, status));
    assert !Live(s, s.permits[id]) ==> SamePermits(Release(s, id, status), t);
  }

  lemma AlikeAcquire(cfg: Settings, s: Model, t: Model, now: int, execution: bool)
    requires ValidSettings(cfg) && Alike(s, t) && PermitsOk(s)
    ensures Alike(TryAcquire(cfg, s, now, execution).0, TryAcquire(cfg, t, now, execution).0)
    ensures TryAcquire(cfg, s, now, execution).1 == TryAcquire(cfg, t, now, execution).1
  {
    hide Health, Settled, Probes;
    AlikeSettled(cfg, s, t, now);
    var ready, ready' := Settled(cfg, s, now), Settled(cfg, t, now);
    AlikeProbes(ready, ready');
    AlikeIssue(cfg, s, t, now, false, execution);
    AlikeIssue(cfg, ready, ready', now, true, execution);
    AlikeReject(s, t);
    AlikeReject(ready, ready');
  }

  lemma AlikeReject(s: Model, t: Model)
    requires Alike(s, t)
    ensures Alike(s.(rejected := s.rejected + 1), t.(rejected := t.rejected + 1))
  {
    var s', t' := s.(rejected := s.rejected + 1), t.(rejected := t.rejected + 1);
    assert forall i :: 0 <= i < |s.permits| ==> SamePermit(s, s.permits[i], t.permits[i]);
    assert SamePermits(s', t');
  }

  lemma AlikeSettled(cfg: Settings, s: Model, t: Model, now: int)
    requires Alike(s, t) && PermitsOk(s)
    ensures Alike(Settled(cfg, s, now), Settled(cfg, t, now))
  {
    hide HalfOpenFrom;
    AlikeTransitions(cfg, s, t, s.mode, now);
    if s.state.Open? {
      AlikeExpire(HalfOpenFrom(cfg, s, now), HalfOpenFrom(cfg, t, now), now);
    } else {
      AlikeExpire(s, t, now);
    }
  }

  /** Completing a live permit acts alike on alike states. */
  lemma AlikeHealth(cfg: Settings, s: Model, t: Model, outcome: Outcome, slow: bool, now: int, sample: real)
    requires ValidSettings(cfg) && 0.0 <= sample < 1.0 && Alike(s, t) && PermitsOk(s)
    ensures Alike(RecordHealth(cfg, s, outcome, slow, now, sample), RecordHealth(cfg, t, outcome, slow, now, sample))
  {
    hide OpenFrom, Health;
    var record := Record(outcome, slow && !outcome.Ignored?);
    var r, r' := s.(window := AppendWindow(s.window, now, record)), t.(window := AppendWindow(t.window, now, record));
    AlikeAfter(s, t, r, r');
    SameEpoch(s, r);
    AlikeOpen(cfg, r, r', PolicyOpened, now, sample);
  }

  lemma AlikeProbe(cfg: Settings, s: Model, t: Model, outcome: Outcome, now: int, sample: real)
    requires ValidSettings(cfg) && 0.0 <= sample < 1.0 && Alike(s, t) && PermitsOk(s)
    ensures Alike(CompleteProbe(cfg, s, outcome, now, sample), CompleteProbe(cfg, t, outcome, now, sample))
  {
    hide OpenFrom, RecoverFrom, Judge, Alike, PermitsOk;
    AlikeParts(s, t);
    var r, r' := s.(revision := s.revision + 1), t.(revision := t.revision + 1);
    AlikeAfter(s, t, r, r');
    var j, j' := r.(trial := s.trial + [outcome]), r'.(trial := t.trial + [outcome]);
    AlikeAfter(s, t, j, j');
    SameEpoch(s, j);
    AlikeOpen(cfg, j, j', HalfOpenFailed, now, sample);
    AlikeRecover(cfg, j, j', now);
  }

  lemma AlikeParts(s: Model, t: Model)
    requires Alike(s, t)
    ensures t == s.(permits := t.permits)
  {
  }

  lemma AlikeRecover(cfg: Settings, s: Model, t: Model, now: int)
    requires Alike(s, t) && PermitsOk(s)
    ensures Alike(RecoverFrom(cfg, s, now), RecoverFrom(cfg, t, now))
  {
    hide RecoverFrom;
    AlikeTransitions(cfg, s, t, s.mode, now);
  }

  lemma AlikeComplete(cfg: Settings, s: Model, t: Model, id: nat, outcome: Outcome, slow: bool, now: int, sample: real)
    requires ValidSettings(cfg) && 0.0 <= sample < 1.0 && Alike(s, t) && PermitsOk(s)
    requires id < |s.permits| ==> Live(s, s.permits[id])
    ensures Alike(Complete(cfg, s, id, outcome, slow, now, sample).0, Complete(cfg, t, id, outcome, slow, now, sample).0)
    ensures Complete(cfg, s, id, outcome, slow, now, sample).1 == Complete(cfg, t, id, outcome, slow, now, sample).1
  {
    hide RecordHealth, CompleteProbe;
    if id < |s.permits| {
      assert SamePermit(s, s.permits[id], t.permits[id]);
      AlikeStatus(s, t, id, Completed(outcome));
      AlikeStatus(s, t, id, Expired);
      var c, c' := SetStatus(s, id, Completed(outcome)), SetStatus(t, id, Completed(outcome));
      StatusPermitsOk(s, id, Completed(outcome));
      AlikeHealth(cfg, c, c', outcome, slow, now, sample);
      AlikeProbe(cfg, c, c', outcome, now, sample);
    }
  }

  lemma StatusPermitsOk(s: Model, id: nat, status: Status)
    requires PermitsOk(s) && id < |s.permits|
    ensures PermitsOk(SetStatus(s, id, status))
  {
    assert forall i :: 0 <= i < |s.permits| ==> PermitOk(s, s.permits[i]);
    var e := SetStatus(s, id, status);
    assert forall i :: 0 <= i < |e.permits| ==> PermitOk(e, e.permits[i]);
  }

  /** A step on alike states: an inert one may be left out, any other acts and replies alike. */
  lemma AlikeStep(cfg: Settings, s: Model, t: Model, a: Action)
    requires ValidSettings(cfg) && Alike(s, t) && PermitsOk(s)
    ensures if Inert(s, a) then Alike(Step(cfg, s, a).0, t)
            else Alike(Step(cfg, s, a).0, Step(cfg, t, a).0) && Step(cfg, s, a).1 == Step(cfg, t, a).1
  {
    hide Health, TryAcquire, RecordHealth, CompleteProbe, ResetFrom, ModeFrom, HalfOpenFrom, Probes;
    match a
    case DoTryAcquire(now, execution) => AlikeAcquire(cfg, s, t, now, execution);
    case DoRejectWaiter => AlikeReject(s, t);
    case DoComplete(id, outcome, slow, now, sample) =>
      if Inert(s, a) {
        AlikeStatus(s, t, id, Completed(outcome));
        AlikeStatus(s, t, id, Expired);
      } else {
        AlikeComplete(cfg, s, t, id, outcome, slow, now, sample);
      }
    case DoCancel(id, now) =>
      if id < |s.permits| {
        assert SamePermit(s, s.permits[id], t.permits[id]);
        AlikeStatus(s, t, id, Canceled);
        AlikeStatus(s, t, id, Expired);
      }
    case DoSetMode(mode, now) => AlikeTransitions(cfg, s, t, mode, now);
    case DoReset(now) => AlikeTransitions(cfg, s, t, s.mode, now);
    case DoSnapshot(now) => AlikeSnapshot(s, t, now);
  }

  lemma AlikeSnapshot(s: Model, t: Model, now: int)
    requires Alike(s, t) && PermitsOk(s)
    ensures var e := if s.state.HalfOpen? then ExpireProbes(s, now) else s;
            var e' := if t.state.HalfOpen? then ExpireProbes(t, now) else t;
            Alike(Observed(e, now), Observed(e', now)) && Look(Observed(e, now)) == Look(Observed(e', now))
  {
    AlikeExpire(s, t, now);
    var e := if s.state.HalfOpen? then ExpireProbes(s, now) else s;
    var e' := if t.state.HalfOpen? then ExpireProbes(t, now) else t;
    ExpirePermitsOk(s, now);
    AlikeObserved(e, e', now);
    AlikeProbes(Observed(e, now), Observed(e', now));
  }

  lemma ExpirePermitsOk(s: Model, now: int)
    requires PermitsOk(s)
    ensures PermitsOk(ExpireProbes(s, now))
  {
    assert forall i :: 0 <= i < |s.permits| ==> PermitOk(s, s.permits[i]);
    var e := ExpireProbes(s, now);
    assert forall i :: 0 <= i < |e.permits| ==> PermitOk(e, e.permits[i]);
  }

  /** Deleting every terminal action on stale or disabled-mode permits from any run leaves everything but
      those permits' statuses identical, at the end of every prefix, and every other caller sees the same
      replies. */
  lemma {:induction false} PruningChangesNothing(cfg: Settings, s: Model, t: Model, actions: seq<Action>)
    requires ValidSettings(cfg) && Inv(cfg, s) && Alike(s, t)
    ensures Alike(Run(cfg, s, actions), Run(cfg, t, Pruned(cfg, s, actions)))
    ensures KeptReplies(cfg, s, actions) == Replies(cfg, t, Pruned(cfg, s, actions))
    decreases |actions|
  {
    hide Step, Inv, Alike;
    if actions != [] {
      var a, rest := actions[0], actions[1..];
      var s' := Step(cfg, s, a).0;
      StepKeeps(cfg, s, a);
      assert PermitsOk(s) by { InvPermits(cfg, s); }
      AlikeStep(cfg, s, t, a);
      if Inert(s, a) {
        assert Pruned(cfg, s, actions) == Pruned(cfg, s', rest);
        PruningChangesNothing(cfg, s', t, rest);
      } else {
        var kept := Pruned(cfg, s, actions);
        assert kept[0] == a && kept[1..] == Pruned(cfg, s', rest);
        PruningChangesNothing(cfg, s', Step(cfg, t, a).0, rest);
      }
    }
  }

  lemma InvPermits(cfg: Settings, s: Model)
    requires ValidSettings(cfg) && Inv(cfg, s)
    ensures PermitsOk(s)
  {
  }

  /** The theorem from the initial state. */
  lemma StaleActionsAreInvisible(cfg: Settings, actions: seq<Action>)
    requires ValidSettings(cfg)
    ensures var pruned := Pruned(cfg, Initial(cfg), actions);
            Alike(Run(cfg, Initial(cfg), actions), Run(cfg, Initial(cfg), pruned))
            && KeptReplies(cfg, Initial(cfg), actions) == Replies(cfg, Initial(cfg), pruned)
  {
    InitialOk(cfg);
    PruningChangesNothing(cfg, Initial(cfg), Initial(cfg), actions);
  }

  /** Pruning commutes with taking prefixes, so the likeness holds at every remaining step. */
  lemma {:induction false} PrunedPrefix(cfg: Settings, s: Model, first: seq<Action>, second: seq<Action>)
    requires ValidSettings(cfg)
    ensures Pruned(cfg, s, first + second) == Pruned(cfg, s, first) + Pruned(cfg, Run(cfg, s, first), second)
    decreases |first|
  {
    hide Step, Inert;
    if first == [] {
      assert first + second == second;
    } else {
      assert (first + second)[1..] == first[1..] + second;
      PrunedPrefix(cfg, Step(cfg, s, first[0]).0, first[1..], second);
    }
  }
}
