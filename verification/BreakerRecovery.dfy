/** Every half-open generation can be ended, and every accepted configuration can recover. */
module BreakerRecovery {
  import opened Window
  import opened Config
  import opened Policy
  import opened BreakerModel
  import opened BreakerInvariants
  import opened ProbeVerdict
  import opened BreakerSafety
  import opened BreakerTrip

  /** The breaker can take a probe at `now`: its open interval has elapsed, or it is half-open and no probe
      outlives `now`. */
  ghost predicate Eligible(s: Model, now: int) {
    && s.mode.Normal? && !s.state.Closed?
    && (s.state.Open? ==> s.nextProbeAt <= now)
    && (s.state.HalfOpen? ==> forall i :: i in Probes(s) ==> s.permits[i].deadline <= now)
  }

  /** The sample the next probe adds to. */
  function SampleOf(s: Model): seq<Outcome> {
    if s.state.HalfOpen? then s.trial else []
  }

  /** The admission of a call finds room and leaves one probe out. */
  lemma {:induction false} ProbeAdmitted(cfg: Settings, s: Model, c: Call)
    requires ValidSettings(cfg) && Inv(cfg, s) && Eligible(s, c.at)
    ensures var (t, reply) := TryAcquire(cfg, s, c.at, c.execution);
            && reply == Admitted(|s.permits|) && Inv(cfg, t) && t.state.HalfOpen? && t.mode.Normal?
            && t.trial == SampleOf(s) && Probes(t) == {|s.permits|}
            && t.permits[|s.permits|] == PermitRecord(t.generation, t.state, c.at + cfg.permitTTL, true, c.execution, Active)
  {
    hide Settled, Health, Inv, TryAcquire, IsProbe;
    SampleShort(cfg, s);
    SettledShape(cfg, s, c.at);
    AdmissionExact(cfg, s, c.at, c.execution);
    TryAcquireKeeps(cfg, s, c.at, c.execution);
    var ready := Settled(cfg, s, c.at);
    assert s.state.HalfOpen? ==> Unexpired(s, c.at) == {};
    AdmitsReady(cfg, s, c.at, c.execution);
    ProbesAfterIssue(cfg, ready, c.at, true, c.execution);
  }

  lemma AdmitsReady(cfg: Settings, s: Model, now: int, execution: bool)
    requires s.mode.Normal? && TryAcquire(cfg, s, now, execution).1.Admitted?
    ensures TryAcquire(cfg, s, now, execution).0 == Issue(cfg, Settled(cfg, s, now), now, true, execution)
  {
    hide Settled;
  }

  lemma CompletesProbe(cfg: Settings, s: Model, id: nat, outcome: Outcome, slow: bool, now: int, sample: Sample)
    requires ValidSettings(cfg) && id in Probes(s) && (s.permits[id].execution || now < s.permits[id].deadline) && !outcome.Unknown?
    ensures Complete(cfg, s, id, outcome, slow, now, sample).0 ==
            CompleteProbe(cfg, SetStatus(s, id, Completed(outcome)), outcome, now, sample)
  {
    hide CompleteProbe, RecordHealth, ValidSettings;
  }

  /** What a sample does to the generation it was taken in. */
  ghost predicate Judged(policy: Recovery, trial: seq<Outcome>, t: Model) {
    && t.mode.Normal?
    && match Judge(policy, trial)
       case Undecided => t.state.HalfOpen? && Probes(t) == {} && t.trial == trial
       case Recovers => t.state.Closed? && t.log != [] && t.log[|t.log| - 1].trial == trial
       case Fails => t.state.Open? && t.log != [] && t.log[|t.log| - 1].trial == trial
  }

  /** The completion of the only probe judges the sample with its outcome. */
  lemma {:induction false} ProbeEnds(cfg: Settings, s: Model, id: nat, outcome: Outcome, slow: bool, now: int, sample: Sample)
    requires ValidSettings(cfg) && Inv(cfg, s) && s.state.HalfOpen? && s.mode.Normal? && Probes(s) == {id}
    requires (s.permits[id].execution || now < s.permits[id].deadline) && ClassifiedOutcome(outcome)
    ensures Judged(cfg.halfOpen, s.trial + [outcome], Complete(cfg, s, id, outcome, slow, now, sample).0)
  {
    hide Look, Inv, OpenInterval, Complete, Judge, IsProbe;
    assert id in Probes(s);
    CompletesProbe(cfg, s, id, outcome, slow, now, sample);
    ProbesAfterStatus(s, id, Completed(outcome));
    var counted := SetStatus(s, id, Completed(outcome));
    SameProbes(counted, counted.(revision := counted.revision + 1, trial := s.trial + [outcome]));
  }

  lemma SameProbes(s: Model, t: Model)
    requires t.permits == s.permits && t.generation == s.generation && t.state == s.state
    ensures Probes(t) == Probes(s)
  {
  }

  /** A call with a classified outcome adds it to the sample, and ends the generation when that decides. */
  lemma OneProbe(cfg: Settings, s: Model, c: Call)
    requires ValidSettings(cfg) && Inv(cfg, s) && Eligible(s, c.at) && InTime(cfg, c) && ClassifiedOutcome(c.outcome)
    ensures var t := Run(cfg, s, Attempt(s, c));
            Inv(cfg, t) && Judged(cfg.halfOpen, SampleOf(s) + [c.outcome], t)
  {
    hide TryAcquire, Complete, Inv, Eligible, Judged, Run, IsProbe;
    ProbeAdmitted(cfg, s, c);
    var t := Step(cfg, s, Begin(c)).0;
    ProbeEnds(cfg, t, |s.permits|, c.outcome, c.slow, c.done, c.sample);
    StepKeeps(cfg, t, End(s, c));
    RunTwo(cfg, s, Begin(c), End(s, c));
  }

  lemma Reeligible(cfg: Settings, trial: seq<Outcome>, t: Model, now: int)
    requires Judged(cfg.halfOpen, trial, t) && t.state.HalfOpen?
    ensures Eligible(t, now) && SampleOf(t) == trial
  {
    hide Judge;
  }

  // ---------- every generation can be ended ----------

  function Outcomes(calls: seq<Call>): seq<Outcome> {
    seq(|calls|, i requires 0 <= i < |calls| => calls[i].outcome)
  }

  ghost function After(cfg: Settings, s: Model, calls: seq<Call>): Model
    requires ValidSettings(cfg)
  {
    Run(cfg, s, Attempts(cfg, s, calls))
  }

  lemma AfterOne(cfg: Settings, s: Model, calls: seq<Call>)
    requires ValidSettings(cfg) && calls != []
    ensures After(cfg, s, calls) == After(cfg, Run(cfg, s, Attempt(s, calls[0])), calls[1..])
  {
    hide Step;
    var first := Attempt(s, calls[0]);
    RunConcat(cfg, s, first, Attempts(cfg, Run(cfg, s, first), calls[1..]));
  }

  lemma AfterNone(cfg: Settings, s: Model)
    requires ValidSettings(cfg)
    ensures After(cfg, s, []) == s
  {
  }

  /** The generation has ended with the sample these calls completed, by its verdict. */
  ghost predicate Ends(cfg: Settings, s: Model, calls: seq<Call>)
    requires ValidSettings(cfg)
  {
    var t, trial := After(cfg, s, calls), SampleOf(s) + Outcomes(calls);
    Inv(cfg, t) && !t.state.HalfOpen? && Judged(cfg.halfOpen, trial, t) && Judge(cfg.halfOpen, trial) != Undecided
  }

  /** From any reachable state that can take a probe, as many calls with classified outcomes as the quota
      still has room for end the half-open generation, at the latest, by the verdict of its sample. */
  lemma {:induction false} ProbesDecide(cfg: Settings, s: Model, calls: seq<Call>) returns (k: nat)
    requires ValidSettings(cfg) && Inv(cfg, s) && calls != [] && Eligible(s, calls[0].at)
    requires |SampleOf(s)| + |calls| == cfg.halfOpen.maxProbes
    requires forall c :: c in calls ==> InTime(cfg, c) && ClassifiedOutcome(c.outcome)
    ensures 0 < k <= |calls| && Ends(cfg, s, calls[..k])
    decreases |calls|
  {
    hide Inv, Eligible, Run, Judge, Attempts;
    var t := Run(cfg, s, Attempt(s, calls[0]));
    OneProbe(cfg, s, calls[0]);
    var trial := SampleOf(s) + [calls[0].outcome];
    if t.state.HalfOpen? {
      Reeligible(cfg, trial, t, if |calls| > 1 then calls[1].at else 0);
      SampleShort(cfg, t);
      k := ProbesDecide(cfg, t, calls[1..]);
      assert calls[..k + 1][0] == calls[0] && calls[..k + 1][1..] == calls[1..][..k];
      AfterOne(cfg, s, calls[..k + 1]);
      assert SampleOf(s) + Outcomes(calls[..k + 1]) == trial + Outcomes(calls[1..][..k]);
      k := k + 1;
    } else {
      k := 1;
      AfterOne(cfg, s, calls[..1]);
      AfterNone(cfg, t);
      assert calls[..1][1..] == [];
      assert SampleOf(s) + Outcomes(calls[..1]) == trial;
    }
  }

  /** No half-open generation is stuck: from every reachable half-open state in normal mode, past the live
      probe deadlines, at most MaxProbes less the sample's size further classified probes end it. */
  lemma {:induction false} HalfOpenEnds(cfg: Settings, actions: seq<Action>, calls: seq<Call>) returns (k: nat)
    requires ValidSettings(cfg)
    requires Run(cfg, Initial(cfg), actions).state.HalfOpen? && Run(cfg, Initial(cfg), actions).mode.Normal?
    requires calls != [] && forall i :: i in Probes(Run(cfg, Initial(cfg), actions)) ==>
               Run(cfg, Initial(cfg), actions).permits[i].deadline <= calls[0].at
    requires |calls| == cfg.halfOpen.maxProbes - |Run(cfg, Initial(cfg), actions).trial|
    requires forall c :: c in calls ==> InTime(cfg, c) && ClassifiedOutcome(c.outcome)
    ensures 0 < k <= |calls| && Ends(cfg, Run(cfg, Initial(cfg), actions), calls[..k])
  {
    hide Run, Inv, Ends;
    Reachable(cfg, actions);
    k := ProbesDecide(cfg, Run(cfg, Initial(cfg), actions), calls);
  }

  // ---------- every configuration can recover ----------

  /** One more success decides exactly when it is the last one needed. */
  lemma SuccessDecides(policy: Recovery, trial: seq<Outcome>, n: nat)
    requires ValidRecovery(policy) && |trial| == Successes(trial) == n < Needed(policy)
    ensures Successes(trial + [Success]) == n + 1
    ensures Judge(policy, trial + [Success]) == if n + 1 == Needed(policy) then Recovers else Undecided
  {
    FullRatio(n + 1);
    hide Ratio;
    assert (trial + [Success])[..n] == trial;
  }

  /** From any reachable state that can take a probe and whose sample holds n successes only, as many
      successful calls as the recovery policy still needs, admitted and completed at any times, close it. */
  lemma {:induction false} ProbesRecover(cfg: Settings, s: Model, n: nat, calls: seq<Call>)
    requires ValidSettings(cfg) && Inv(cfg, s) && calls != [] && Eligible(s, calls[0].at)
    requires |SampleOf(s)| == Successes(SampleOf(s)) == n && n + |calls| == Needed(cfg.halfOpen)
    requires forall c :: c in calls ==> InTime(cfg, c) && c.outcome.Success?
    ensures var t := After(cfg, s, calls); Inv(cfg, t) && t.state.Closed? && t.mode.Normal?
    decreases |calls|
  {
    hide Inv, Eligible, Needed, Run, Judge, Attempts, After;
    var t := Run(cfg, s, Attempt(s, calls[0]));
    OneProbe(cfg, s, calls[0]);
    AfterOne(cfg, s, calls);
    SuccessDecides(cfg.halfOpen, SampleOf(s), n);
    if |calls| == 1 {
      assert calls[1..] == [];
      AfterNone(cfg, t);
    } else {
      Reeligible(cfg, SampleOf(s) + [Success], t, calls[1].at);
      ProbesRecover(cfg, t, n + 1, calls[1..]);
    }
  }

  /** No permanent opening: from every reachable open state in normal mode, the needed number of successful
      calls, the first admitted at or past the probe time, reach the closed state. */
  lemma {:induction false} CanRecover(cfg: Settings, actions: seq<Action>, calls: seq<Call>)
    requires ValidSettings(cfg)
    requires Run(cfg, Initial(cfg), actions).state.Open? && Run(cfg, Initial(cfg), actions).mode.Normal?
    requires calls != [] && Run(cfg, Initial(cfg), actions).nextProbeAt <= calls[0].at
    requires |calls| == Needed(cfg.halfOpen) && forall c :: c in calls ==> InTime(cfg, c) && c.outcome.Success?
    ensures After(cfg, Run(cfg, Initial(cfg), actions), calls).state.Closed?
  {
    hide Run, Inv, After;
    Reachable(cfg, actions);
    ProbesRecover(cfg, Run(cfg, Initial(cfg), actions), 0, calls);
  }

  /** A time at or past every permit's deadline. */
  function Late(permits: seq<PermitRecord>): (t: int)
    ensures forall i :: 0 <= i < |permits| ==> permits[i].deadline <= t
  {
    if permits == [] then 0
    else
      var before, last := Late(permits[..|permits| - 1]), permits[|permits| - 1].deadline;
      if before < last then last else before
  }

  lemma {:induction false} AfterConcat(cfg: Settings, s: Model, first: seq<Call>, second: seq<Call>)
    requires ValidSettings(cfg)
    ensures After(cfg, s, first + second) == After(cfg, After(cfg, s, first), second)
    decreases |first|
  {
    hide Run, Attempts, After;
    if first == [] {
      AfterNone(cfg, s);
      assert first + second == second;
    } else {
      AfterOne(cfg, s, first);
      AfterOne(cfg, s, first + second);
      assert (first + second)[1..] == first[1..] + second;
      AfterConcat(cfg, Run(cfg, s, Attempt(s, first[0])), first[1..], second);
    }
  }

  function Succeeding(cfg: Settings, at: int, k: nat): seq<Call> {
    Repeat(Call(at, true, at, Success, false, 0.0), k)
  }

  lemma {:induction false} OpenRecovers(cfg: Settings, s: Model) returns (calls: seq<Call>)
    requires ValidSettings(cfg) && Inv(cfg, s) && s.mode.Normal? && s.state.Open?
    ensures var t := After(cfg, s, calls); t.state.Closed? && t.mode.Normal?
  {
    hide Inv, After;
    calls := Succeeding(cfg, s.nextProbeAt, Needed(cfg.halfOpen));
    ProbesRecover(cfg, s, 0, calls);
  }

  /** Recovery is always possible: from every reachable state in normal mode there are calls that reach the
      closed state. */
  lemma {:induction false} AlwaysRecoverable(cfg: Settings, actions: seq<Action>) returns (calls: seq<Call>)
    requires ValidSettings(cfg) && Run(cfg, Initial(cfg), actions).mode.Normal?
    ensures After(cfg, Run(cfg, Initial(cfg), actions), calls).state.Closed?
  {
    hide Run, Inv, After, Judge;
    Reachable(cfg, actions);
    var s := Run(cfg, Initial(cfg), actions);
    match s.state
    case Closed =>
      calls := [];
      AfterNone(cfg, s);
    case Open => calls := OpenRecovers(cfg, s);
    case HalfOpen =>
      SampleShort(cfg, s);
      var probes := Succeeding(cfg, Late(s.permits), cfg.halfOpen.maxProbes - |s.trial|);
      var k := ProbesDecide(cfg, s, probes);
      var t := After(cfg, s, probes[..k]);
      if t.state.Closed? {
        calls := probes[..k];
      } else {
        var more := OpenRecovers(cfg, t);
        AfterConcat(cfg, s, probes[..k], more);
        calls := probes[..k] + more;
      }
  }
}
