/** Permit lifetimes and exact lifetime accounting. */
module BreakerLifetime {
  import opened Window
  import opened Config
  import opened BreakerModel
  import opened BreakerInvariants

  // ---------- how one permit may change ----------

  /** Only an active permit moves, except that an expired Execute permit may still complete, once. */
  predicate Moves(p: PermitRecord, q: PermitRecord) {
    && q == p.(status := q.status)
    && (q.status != p.status ==>
          || p.status.Active?
          || (p.status.Expired? && p.execution && q.status.Completed?))
  }

  ghost predicate PermitsMove(s: Model, t: Model) {
    |s.permits| <= |t.permits| && forall i :: 0 <= i < |s.permits| ==> Moves(s.permits[i], t.permits[i])
  }

  /** Recorded outcomes are valid ones. */
  ghost predicate OutcomesKnown(s: Model) {
    forall i :: 0 <= i < |s.permits| ==>
      s.permits[i].status.Completed? ==> !s.permits[i].status.outcome.Unknown?
  }

  lemma TransitionsKeepPermits(cfg: Settings, s: Model, mode: Mode, now: int)
    ensures HalfOpenFrom(cfg, s, now).permits == s.permits
    ensures RecoverFrom(cfg, s, now).permits == s.permits
    ensures ResetFrom(cfg, s, now).permits == s.permits
    ensures ModeFrom(cfg, s, mode, now).permits == s.permits
  {
    hide Health, Probes;
  }

  lemma CompletionKeepsPermits(cfg: Settings, s: Model, outcome: Outcome, slow: bool, now: int, sample: real)
    requires ValidSettings(cfg) && 0.0 <= sample < 1.0
    ensures CompleteProbe(cfg, s, outcome, now, sample).permits == s.permits
    ensures RecordHealth(cfg, s, outcome, slow, now, sample).permits == s.permits
  {
    hide Health, Probes, OpenInterval;
  }

  lemma ExpiryMoves(s: Model, now: int)
    ensures PermitsMove(s, ExpireProbes(s, now))
    ensures OutcomesKnown(s) ==> OutcomesKnown(ExpireProbes(s, now))
    ensures TotalsOf(ExpireProbes(s, now)) == TotalsOf(s)
    ensures forall i :: 0 <= i < |s.permits| && !(s.permits[i].recording && s.permits[i].status.Active?) ==>
              ExpireProbes(s, now).permits[i] == s.permits[i]
  {
    var e := ExpireProbes(s, now);
    CompletedUnmoved(s.permits, e.permits, Success);
    CompletedUnmoved(s.permits, e.permits, Failure);
    CompletedUnmoved(s.permits, e.permits, Ignored);
  }

  lemma {:induction false} CompletedUnmoved(a: seq<PermitRecord>, b: seq<PermitRecord>, outcome: Outcome)
    requires |a| == |b|
    requires forall i :: 0 <= i < |a| ==> (a[i].status == Completed(outcome) <==> b[i].status == Completed(outcome))
    ensures CompletedAs(a, outcome) == CompletedAs(b, outcome)
  {
    if a != [] {
      CompletedUnmoved(a[..|a| - 1], b[..|b| - 1], outcome);
    }
  }

  lemma {:induction false} CompletedOneMoved(a: seq<PermitRecord>, id: nat, q: PermitRecord, outcome: Outcome)
    requires id < |a| && a[id].status != Completed(outcome)
    ensures CompletedAs(a[id := q], outcome) ==
            CompletedAs(a, outcome) + if q.status == Completed(outcome) then 1 else 0
  {
    var b, n := a[id := q], |a| - 1;
    if id == n {
      assert b[..n] == a[..n];
    } else {
      assert b[..n] == a[..n][id := q];
      CompletedOneMoved(a[..n], id, q, outcome);
    }
  }

  lemma CompletedAppended(a: seq<PermitRecord>, q: PermitRecord, outcome: Outcome)
    requires q.status.Active?
    ensures CompletedAs(a + [q], outcome) == CompletedAs(a, outcome)
  {
    assert (a + [q])[..|a|] == a;
  }

  /** Adding one outcome to the totals. */
  function Counting(t: Totals, outcome: Outcome): Totals {
    match outcome
    case Success => t.(completed := t.completed + 1, successes := t.successes + 1)
    case Failure => t.(completed := t.completed + 1, failures := t.failures + 1)
    case Ignored => t.(completed := t.completed + 1, ignored := t.ignored + 1)
    case Unknown(_) => t
  }

  lemma StatusTotals(s: Model, id: nat, status: Status)
    requires id < |s.permits| && !s.permits[id].status.Completed? && status != Active
    ensures TotalsOf(SetStatus(s, id, status)) ==
            if status.Completed? then Counting(TotalsOf(s), status.outcome) else TotalsOf(s)
    ensures TotalsOf(Release(s, id, status)) == TotalsOf(SetStatus(s, id, status))
  {
    var q := s.permits[id].(status := status);
    CompletedOneMoved(s.permits, id, q, Success);
    CompletedOneMoved(s.permits, id, q, Failure);
    CompletedOneMoved(s.permits, id, q, Ignored);
  }

  lemma IssueTotals(cfg: Settings, s: Model, now: int, recording: bool, execution: bool)
    ensures var t := Issue(cfg, s, now, recording, execution);
            TotalsOf(t) == TotalsOf(s) && PermitsMove(s, t) && (OutcomesKnown(s) ==> OutcomesKnown(t))
  {
    var q := Issue(cfg, s, now, recording, execution).permits[|s.permits|];
    CompletedAppended(s.permits, q, Success);
    CompletedAppended(s.permits, q, Failure);
    CompletedAppended(s.permits, q, Ignored);
  }

  /** What one critical section does to permits and lifetime totals. */
  ghost predicate LifetimeStep(s: Model, a: Action, t: Model, reply: Reply) {
    && PermitsMove(s, t)
    && (OutcomesKnown(s) ==> OutcomesKnown(t))
    && TotalsOf(t) == (if a.DoComplete? && reply.Accepted? then Counting(TotalsOf(s), a.outcome) else TotalsOf(s))
    && (reply.Admitted? ==> |t.permits| == |s.permits| + 1)
    && (!reply.Admitted? ==> |t.permits| == |s.permits|)
  }

  lemma AcquireLifetime(cfg: Settings, s: Model, now: int, execution: bool)
    requires ValidSettings(cfg)
    ensures var (t, reply) := TryAcquire(cfg, s, now, execution);
            LifetimeStep(s, DoTryAcquire(now, execution), t, reply)
  {
    hide Settled, TotalsOf, PermitsMove, OutcomesKnown;
    var ready := Settled(cfg, s, now);
    SettledLifetime(cfg, s, now);
    IssueTotals(cfg, s, now, false, execution);
    IssueTotals(cfg, ready, now, true, execution);
    MoveTwice(s, ready, Issue(cfg, ready, now, true, execution));
    SamePermitsSameTotals(s, s.(rejected := s.rejected + 1));
    SamePermitsSameTotals(ready, ready.(rejected := ready.rejected + 1));
    MoveTwice(s, ready, ready.(rejected := ready.rejected + 1));
  }

  lemma SettledLifetime(cfg: Settings, s: Model, now: int)
    ensures var ready := Settled(cfg, s, now);
            && PermitsMove(s, ready) && TotalsOf(ready) == TotalsOf(s) && |ready.permits| == |s.permits|
            && (OutcomesKnown(s) ==> OutcomesKnown(ready))
  {
    hide Health, Probes, HalfOpenFrom, TotalsOf;
    var h := HalfOpenFrom(cfg, s, now);
    TransitionsKeepPermits(cfg, s, s.mode, now);
    SamePermitsSameTotals(s, s);
    SamePermitsSameTotals(s, h);
    ExpiryMoves(s, now);
    ExpiryMoves(h, now);
  }

  lemma MoveTwice(s: Model, t: Model, u: Model)
    requires PermitsMove(s, t) && PermitsMove(t, u)
    ensures PermitsMove(s, u)
  {
    forall i | 0 <= i < |s.permits|
      ensures Moves(s.permits[i], u.permits[i])
    {
      assert Moves(s.permits[i], t.permits[i]) && Moves(t.permits[i], u.permits[i]);
    }
  }

  lemma StatusMoves(s: Model, id: nat, status: Status)
    requires id < |s.permits| && status != Active
    requires s.permits[id].status.Active? || (s.permits[id].status.Expired? && s.permits[id].execution && status.Completed?)
    ensures PermitsMove(s, SetStatus(s, id, status)) && PermitsMove(s, Release(s, id, status))
    ensures OutcomesKnown(s) && !(status.Completed? && status.outcome.Unknown?) ==>
              OutcomesKnown(SetStatus(s, id, status)) && OutcomesKnown(Release(s, id, status))
  {
  }

  lemma CompleteLifetime(cfg: Settings, s: Model, id: nat, outcome: Outcome, slow: bool, now: int, sample: Sample)
    requires ValidSettings(cfg)
    ensures var (t, reply) := Complete(cfg, s, id, outcome, slow, now, sample);
            LifetimeStep(s, DoComplete(id, outcome, slow, now, sample), t, reply)
  {
    hide RecordHealth, CompleteProbe, Probes, TotalsOf, PermitsMove, OutcomesKnown;
    var t := Complete(cfg, s, id, outcome, slow, now, sample).0;
    SamePermitsSameTotals(s, s);
    if id < |s.permits| && !outcome.Unknown? {
      var p, counted, released := s.permits[id], SetStatus(s, id, Completed(outcome)), Release(s, id, Expired);
      if p.status.Active? || (p.status.Expired? && p.execution) {
        StatusTotals(s, id, Completed(outcome));
        StatusMoves(s, id, Completed(outcome));
        CompletionKeepsPermits(cfg, counted, outcome, slow, now, sample);
      }
      if p.status.Active? {
        StatusTotals(s, id, Expired);
        StatusMoves(s, id, Expired);
      }
      if t.permits == counted.permits {
        SamePermitsSameTotals(counted, t);
        if p.status.Active? || (p.status.Expired? && p.execution) {
          MoveTwice(s, counted, t);
        }
      }
    }
  }

  lemma CancelLifetime(cfg: Settings, s: Model, id: nat, now: int)
    ensures var (t, reply) := Cancel(s, id, now);
            LifetimeStep(s, DoCancel(id, now), t, reply)
  {
    hide Probes, IsProbe, TotalsOf, PermitsMove, OutcomesKnown;
    SamePermitsSameTotals(s, s);
    if id < |s.permits| && s.permits[id].status.Active? {
      StatusTotals(s, id, Expired);
      StatusTotals(s, id, Canceled);
      StatusMoves(s, id, Expired);
      StatusMoves(s, id, Canceled);
    }
  }

  lemma SnapshotLifetime(cfg: Settings, s: Model, now: int)
    requires ValidSettings(cfg)
    ensures LifetimeStep(s, DoSnapshot(now), Step(cfg, s, DoSnapshot(now)).0, Step(cfg, s, DoSnapshot(now)).1)
  {
    hide Look, Probes, TotalsOf, PermitsMove, OutcomesKnown, ValidSettings;
    SamePermitsSameTotals(s, s);
    ExpiryMoves(s, now);
    var e := if s.state.HalfOpen? then ExpireProbes(s, now) else s;
    SamePermitsSameTotals(e, Observed(e, now));
    MoveTwice(s, e, Observed(e, now));
  }

  lemma StepLifetime(cfg: Settings, s: Model, a: Action)
    requires ValidSettings(cfg)
    ensures LifetimeStep(s, a, Step(cfg, s, a).0, Step(cfg, s, a).1)
  {
    hide TryAcquire, Complete, Cancel, ResetFrom, ModeFrom, Look, ExpireProbes, TotalsOf, PermitsMove, OutcomesKnown, ValidSettings;
    match a
    case DoTryAcquire(now, execution) => AcquireLifetime(cfg, s, now, execution);
    case DoRejectWaiter => SamePermitsSameTotals(s, Reject(s, ErrHalfOpenWaitTimeout).0);
    case DoComplete(id, outcome, slow, now, sample) => CompleteLifetime(cfg, s, id, outcome, slow, now, sample);
    case DoCancel(id, now) => CancelLifetime(cfg, s, id, now);
    case DoSetMode(mode, now) =>
      TransitionsKeepPermits(cfg, s, mode, now);
      SamePermitsSameTotals(s, s);
      SamePermitsSameTotals(s, ModeFrom(cfg, s, mode, now));
    case DoReset(now) =>
      TransitionsKeepPermits(cfg, s, s.mode, now);
      SamePermitsSameTotals(s, ResetFrom(cfg, s, now));
    case DoSnapshot(now) => SnapshotLifetime(cfg, s, now);
  }

  lemma SamePermitsSameTotals(s: Model, t: Model)
    requires t.permits == s.permits
    ensures TotalsOf(t) == TotalsOf(s) && PermitsMove(s, t) && (OutcomesKnown(s) ==> OutcomesKnown(t))
  {
  }

  // ---------- the terminal matrix ----------

  /** What a terminal action makes of the status of the permit it names (docs/design.md:59-70). */
  function Terminal(p: PermitRecord, a: Action): Status {
    match p.status
    case Active =>
      if a.DoCancel? then (if a.now < p.deadline then Canceled else Expired)
      else if !a.DoComplete? || a.outcome.Unknown? then Active
      else if p.execution || a.now < p.deadline then Completed(a.outcome)
      else Expired
    case Expired => if p.execution && a.DoComplete? && !a.outcome.Unknown? then Completed(a.outcome) else Expired
    case _ => p.status
  }

  /** Admissions in normal mode and snapshots expire overdue probes. */
  predicate Expires(s: Model, a: Action) {
    (a.DoTryAcquire? && s.mode.Normal?) || a.DoSnapshot?
  }

  ghost function StatusAfter(s: Model, a: Action, id: nat): Status
    requires id < |s.permits|
  {
    if (a.DoComplete? || a.DoCancel?) && a.id == id then Terminal(s.permits[id], a)
    else if Expires(s, a) && id in Overdue(s, a.now) then Expired
    else s.permits[id].status
  }

  /** Which permit moves, and to which status, exactly: a terminal action moves only the permit it names, as
      the matrix says; lazy expiry ends exactly the overdue probes; nothing else moves a permit. */
  lemma {:induction false} TerminalMatrix(cfg: Settings, s: Model, a: Action)
    requires ValidSettings(cfg) && Inv(cfg, s)
    ensures var t := Step(cfg, s, a).0;
            && |s.permits| <= |t.permits|
            && forall i :: 0 <= i < |s.permits| ==> t.permits[i] == s.permits[i].(status := StatusAfter(s, a, i))
  {
    hide Look, ResetFrom, ModeFrom, Complete, Cancel, Terminal, Inv, ValidSettings, Settled;
    match a
    case DoTryAcquire(now, execution) => AcquireExpires(cfg, s, now);
    case DoRejectWaiter =>
    case DoComplete(_, _, _, _, _) => ActionMatrix(cfg, s, a);
    case DoCancel(_, _) => ActionMatrix(cfg, s, a);
    case DoSetMode(mode, now) => TransitionsKeepPermits(cfg, s, mode, now);
    case DoReset(now) => TransitionsKeepPermits(cfg, s, s.mode, now);
    case DoSnapshot(now) =>
  }

  lemma ActionMatrix(cfg: Settings, s: Model, a: Action)
    requires ValidSettings(cfg) && (a.DoComplete? || a.DoCancel?)
    ensures Step(cfg, s, a).0.permits ==
            if a.id < |s.permits| then s.permits[a.id := s.permits[a.id].(status := Terminal(s.permits[a.id], a))] else s.permits
  {
    hide CompleteProbe, RecordHealth, ValidSettings, IsProbe;
    if a.DoComplete? && a.id < |s.permits| {
      CompletionKeepsPermits(cfg, SetStatus(s, a.id, Completed(a.outcome)), a.outcome, a.slow, a.now, a.sample);
    }
  }

  lemma AcquireExpires(cfg: Settings, s: Model, now: int)
    requires ValidSettings(cfg) && Inv(cfg, s)
    ensures var ready := Settled(cfg, s, now);
            && |ready.permits| == |s.permits|
            && forall i :: 0 <= i < |s.permits| ==>
                 ready.permits[i] == if i in Overdue(s, now) then s.permits[i].(status := Expired) else s.permits[i]
    ensures s.mode.Normal? || Overdue(s, now) == {}
  {
    hide Health, Look;
    TransitionsKeepPermits(cfg, s, s.mode, now);
    if s.state.Open? {
      ObserveKeeps(cfg, s, now);
      var o := Observed(s, now);
      ProbesAfterCommit(cfg, o, o.(state := HalfOpen), OpenIntervalElapsed, now);
    }
    forall i | i in Probes(s)
      ensures s.mode.Normal?
    {
      assert PermitOk(s, s.permits[i]);
    }
  }

  // ---------- over whole runs ----------

  /** Terminal is terminal: over any run a permit leaves its terminal status only as an Execute permit
      going from expired to completed, and nothing else about a permit ever changes. */
  lemma {:induction false} TerminalIsFinal(cfg: Settings, s: Model, actions: seq<Action>)
    requires ValidSettings(cfg)
    ensures PermitsMove(s, Run(cfg, s, actions))
    decreases |actions|
  {
    hide Step;
    if actions != [] {
      var t := Step(cfg, s, actions[0]).0;
      StepLifetime(cfg, s, actions[0]);
      TerminalIsFinal(cfg, t, actions[1..]);
      var u := Run(cfg, t, actions[1..]);
      forall i | 0 <= i < |s.permits|
        ensures Moves(s.permits[i], u.permits[i])
      {
        assert Moves(s.permits[i], t.permits[i]) && Moves(t.permits[i], u.permits[i]);
      }
    }
  }

  lemma {:induction false} OutcomesStayKnown(cfg: Settings, s: Model, actions: seq<Action>)
    requires ValidSettings(cfg) && OutcomesKnown(s)
    ensures OutcomesKnown(Run(cfg, s, actions))
    decreases |actions|
  {
    hide Step;
    if actions != [] {
      StepLifetime(cfg, s, actions[0]);
      OutcomesStayKnown(cfg, Step(cfg, s, actions[0]).0, actions[1..]);
    }
  }

  function CountActive(permits: seq<PermitRecord>): nat {
    if permits == [] then 0
    else CountActive(permits[..|permits| - 1]) + if permits[|permits| - 1].status.Active? then 1 else 0
  }

  function CountCompleted(permits: seq<PermitRecord>): nat {
    if permits == [] then 0
    else CountCompleted(permits[..|permits| - 1]) + if permits[|permits| - 1].status.Completed? then 1 else 0
  }

  function CountAbandoned(permits: seq<PermitRecord>): nat {
    if permits == [] then 0
    else CountAbandoned(permits[..|permits| - 1])
         + if permits[|permits| - 1].status.Canceled? || permits[|permits| - 1].status.Expired? then 1 else 0
  }

  lemma {:induction false} Partition(permits: seq<PermitRecord>)
    requires forall i :: 0 <= i < |permits| ==> permits[i].status.Completed? ==> !permits[i].status.outcome.Unknown?
    ensures |permits| == CountActive(permits) + CountCompleted(permits) + CountAbandoned(permits)
    ensures CountCompleted(permits) ==
            CompletedAs(permits, Success) + CompletedAs(permits, Failure) + CompletedAs(permits, Ignored)
  {
    if permits != [] {
      Partition(permits[..|permits| - 1]);
    }
  }

  function Count(p: bool): nat {
    if p then 1 else 0
  }

  /** How many admissions and how many accepted completions of one outcome a run's callers saw. */
  ghost function Admissions(cfg: Settings, s: Model, actions: seq<Action>): nat
    requires ValidSettings(cfg)
    decreases |actions|
  {
    if actions == [] then 0
    else Count(Step(cfg, s, actions[0]).1.Admitted?) + Admissions(cfg, Step(cfg, s, actions[0]).0, actions[1..])
  }

  ghost function Completions(cfg: Settings, s: Model, actions: seq<Action>, outcome: Outcome): nat
    requires ValidSettings(cfg)
    decreases |actions|
  {
    if actions == [] then 0
    else
      var (t, reply) := Step(cfg, s, actions[0]);
      Count(actions[0].DoComplete? && reply.Accepted? && actions[0].outcome == outcome)
      + Completions(cfg, t, actions[1..], outcome)
  }

  lemma {:induction false} RunCounts(cfg: Settings, s: Model, actions: seq<Action>)
    requires ValidSettings(cfg)
    ensures var t := Run(cfg, s, actions);
            && |t.permits| == |s.permits| + Admissions(cfg, s, actions)
            && TotalsOf(t).successes == TotalsOf(s).successes + Completions(cfg, s, actions, Success)
            && TotalsOf(t).failures == TotalsOf(s).failures + Completions(cfg, s, actions, Failure)
            && TotalsOf(t).ignored == TotalsOf(s).ignored + Completions(cfg, s, actions, Ignored)
    decreases |actions|
  {
    hide Step, CompletedAs;
    if actions != [] {
      StepLifetime(cfg, s, actions[0]);
      RunCounts(cfg, Step(cfg, s, actions[0]).0, actions[1..]);
    }
  }

  /** Lifetime accounting is exact in every run: admitted counts the permits issued, which are active,
      completed, canceled or expired; completed counts the completed ones and equals the sum of the three
      outcome totals, each of which equals the accepted completions its callers saw. */
  lemma AccountingIsExact(cfg: Settings, actions: seq<Action>)
    requires ValidSettings(cfg)
    ensures var s := Run(cfg, Initial(cfg), actions);
            && |s.permits| == Admissions(cfg, Initial(cfg), actions)
            && |s.permits| == CountActive(s.permits) + CountCompleted(s.permits) + CountAbandoned(s.permits)
            && TotalsOf(s).completed == CountCompleted(s.permits) <= |s.permits|
            && TotalsOf(s).completed == TotalsOf(s).successes + TotalsOf(s).failures + TotalsOf(s).ignored
            && TotalsOf(s).successes == Completions(cfg, Initial(cfg), actions, Success)
            && TotalsOf(s).failures == Completions(cfg, Initial(cfg), actions, Failure)
            && TotalsOf(s).ignored == Completions(cfg, Initial(cfg), actions, Ignored)
  {
    hide Step;
    var s := Run(cfg, Initial(cfg), actions);
    RunCounts(cfg, Initial(cfg), actions);
    OutcomesStayKnown(cfg, Initial(cfg), actions);
    Partition(s.permits);
  }
}
