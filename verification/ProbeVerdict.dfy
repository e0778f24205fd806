/** The half-open verdict as a function of classified outcomes in completion order (breaker.go:454-486). */
module ProbeVerdict {
  import opened Window
  import opened Config
  import opened Policy
  import opened BreakerModel
  import opened BreakerInvariants

  /** Feeds outcomes one by one until one decides: the verdict and how many were needed. */
  function Feed(policy: Recovery, outcomes: seq<Outcome>, k: nat): (Verdict, nat)
    requires k <= |outcomes|
    decreases |outcomes| - k
  {
    var verdict := Judge(policy, outcomes[..k]);
    if verdict != Undecided || k == |outcomes| then (verdict, k) else Feed(policy, outcomes, k + 1)
  }

  ghost predicate AllClassified(outcomes: seq<Outcome>) {
    forall o :: o in outcomes ==> ClassifiedOutcome(o)
  }

  /** Whether a success count meets the configured threshold over a full sample. */
  predicate Meets(policy: Recovery, successes: nat) {
    if policy.requiredSuccesses > 0 then successes >= policy.requiredSuccesses
    else Ratio(successes, policy.maxProbes) >= policy.successRatio
  }

  lemma {:induction false} SuccessesMonotone(outcomes: seq<Outcome>, j: nat, k: nat)
    requires j <= k <= |outcomes|
    ensures Successes(outcomes[..j]) <= Successes(outcomes[..k]) <= Successes(outcomes[..j]) + (k - j)
    decreases k - j
  {
    if j < k {
      SuccessesMonotone(outcomes, j, k - 1);
      assert outcomes[..k][..k - 1] == outcomes[..k - 1];
    } else {
    }
  }

  /** The success count depends on the bag of outcomes only. */
  lemma {:induction false} SuccessesOfBag(trial: seq<Outcome>)
    ensures Successes(trial) == multiset(trial)[Success]
  {
    if trial != [] {
      SuccessesOfBag(trial[..|trial| - 1]);
      assert trial == trial[..|trial| - 1] + [trial[|trial| - 1]];
    }
  }

  lemma {:induction false} AllSuccesses(trial: seq<Outcome>)
    ensures Successes(trial) <= |trial|
    ensures Successes(trial) == |trial| <==> forall o :: o in trial ==> o.Success?
  {
    if trial != [] {
      var before := trial[..|trial| - 1];
      AllSuccesses(before);
      assert trial == before + [trial[|trial| - 1]];
    }
  }

  /** What feeding returns: the first decisive prefix, or everything. */
  lemma {:induction false} FeedFirst(policy: Recovery, outcomes: seq<Outcome>, k: nat)
    requires k <= |outcomes|
    ensures var (verdict, n) := Feed(policy, outcomes, k);
            && k <= n <= |outcomes|
            && verdict == Judge(policy, outcomes[..n])
            && (verdict == Undecided ==> n == |outcomes|)
            && forall i :: k <= i < n ==> Judge(policy, outcomes[..i]) == Undecided
    decreases |outcomes| - k
  {
    if Judge(policy, outcomes[..k]) == Undecided && k < |outcomes| {
      FeedFirst(policy, outcomes, k + 1);
    }
  }

  lemma {:induction false} PrefixesUndecided(policy: Recovery, outcomes: seq<Outcome>, n: nat)
    requires n <= |outcomes| && AllClassified(outcomes)
    ensures UndecidedTrial(policy, outcomes[..n]) <==>
            forall i :: 0 <= i <= n ==> Judge(policy, outcomes[..i]) == Undecided
  {
    if n > 0 {
      PrefixesUndecided(policy, outcomes, n - 1);
      assert outcomes[..n][..n - 1] == outcomes[..n - 1];
      assert outcomes[n - 1] in outcomes;
    }
  }

  /** The samples that end a generation in the log are exactly the ones feeding stops at: each recorded
      verdict is a function of the classified outcomes in completion order. */
  lemma DecidedIsFed(policy: Recovery, trial: seq<Outcome>, verdict: Verdict)
    requires verdict != Undecided && AllClassified(trial)
    ensures DecidedTrial(policy, trial, verdict) <==> trial != [] && Feed(policy, trial, 0) == (verdict, |trial|)
  {
    FeedFirst(policy, trial, 0);
    if trial != [] {
      PrefixesUndecided(policy, trial, |trial| - 1);
      assert trial[..|trial|] == trial;
      assert trial[|trial| - 1] in trial;
    }
  }

  /** No sample outlasts the quota. */
  lemma DecidedWithinQuota(policy: Recovery, outcomes: seq<Outcome>)
    requires ValidRecovery(policy) && AllClassified(outcomes) && |outcomes| >= policy.maxProbes
    ensures var (verdict, n) := Feed(policy, outcomes, 0);
            verdict != Undecided && 1 <= n <= policy.maxProbes
  {
    FeedFirst(policy, outcomes, 0);
    var (verdict, n) := Feed(policy, outcomes, 0);
    if n > policy.maxProbes || verdict == Undecided {
      var m := if verdict == Undecided then n else n - 1;
      PrefixesUndecided(policy, outcomes, m);
      UndecidedIsShort(policy, outcomes[..m]);
    }
  }

  /** Reopen-after-sample closes exactly when the full sample's success count meets the threshold. */
  lemma AfterSampleByCount(policy: Recovery, outcomes: seq<Outcome>)
    requires ValidRecovery(policy) && !policy.immediate
    requires AllClassified(outcomes) && |outcomes| == policy.maxProbes
    ensures Feed(policy, outcomes, 0).0 == if Meets(policy, Successes(outcomes)) then Recovers else Fails
  {
    FeedFirst(policy, outcomes, 0);
    DecidedWithinQuota(policy, outcomes);
    var (verdict, n) := Feed(policy, outcomes, 0);
    SuccessesMonotone(outcomes, n, |outcomes|);
    assert outcomes[..|outcomes|] == outcomes;
  }

  /** ... and hence does not depend on the order in which the probes completed. */
  lemma AfterSampleOrderIndependent(policy: Recovery, a: seq<Outcome>, b: seq<Outcome>)
    requires ValidRecovery(policy) && !policy.immediate
    requires AllClassified(a) && |a| == policy.maxProbes && multiset(a) == multiset(b)
    ensures Feed(policy, a, 0).0 == Feed(policy, b, 0).0
  {
    SuccessesOfBag(a);
    SuccessesOfBag(b);
    assert |b| == |multiset(b)| == |a|;
    assert forall o :: o in b ==> o in multiset(a);
    AfterSampleByCount(policy, a);
    AfterSampleByCount(policy, b);
  }

  /** How many successes in a row an immediately reopening policy asks for. */
  function Needed(policy: Recovery): nat
    requires ValidRecovery(policy)
  {
    if policy.requiredSuccesses > 0 then policy.requiredSuccesses else policy.maxProbes
  }

  /** Immediate reopening closes exactly when the first `Needed` outcomes are all successes. */
  lemma ImmediateByPrefix(policy: Recovery, outcomes: seq<Outcome>)
    requires ValidRecovery(policy) && policy.immediate
    requires AllClassified(outcomes) && |outcomes| >= policy.maxProbes
    ensures Feed(policy, outcomes, 0).0 ==
            if forall o :: o in outcomes[..Needed(policy)] ==> o.Success? then Recovers else Fails
  {
    FeedFirst(policy, outcomes, 0);
    DecidedWithinQuota(policy, outcomes);
    var (verdict, n) := Feed(policy, outcomes, 0);
    var needed := Needed(policy);
    PrefixesUndecided(policy, outcomes, n - 1);
    ImmediateAllSuccesses(policy, outcomes[..n - 1]);
    AllSuccesses(outcomes[..n - 1]);
    assert outcomes[..n][..n - 1] == outcomes[..n - 1];
    assert outcomes[n - 1] in outcomes;
    if verdict == Recovers {
      AllSuccesses(outcomes[..n]);
      assert n == needed by { RecoversAtNeeded(policy, outcomes, n); }
      assert outcomes[..n] == outcomes[..n - 1] + [outcomes[n - 1]];
    } else {
      assert outcomes[n - 1].Failure? && n <= needed by { FailsBeforeNeeded(policy, outcomes, n); }
      assert outcomes[n - 1] == outcomes[..needed][n - 1];
    }
  }

  lemma RecoversAtNeeded(policy: Recovery, outcomes: seq<Outcome>, n: nat)
    requires ValidRecovery(policy) && policy.immediate && 1 <= n <= |outcomes|
    requires Judge(policy, outcomes[..n]) == Recovers && n <= policy.maxProbes
    requires Successes(outcomes[..n - 1]) == n - 1 && Judge(policy, outcomes[..n - 1]) == Undecided
    requires ClassifiedOutcome(outcomes[n - 1])
    ensures n == Needed(policy)
  {
    assert outcomes[..n][..n - 1] == outcomes[..n - 1];
    assert Successes(outcomes[..n]) == n;
  }

  lemma FailsBeforeNeeded(policy: Recovery, outcomes: seq<Outcome>, n: nat)
    requires ValidRecovery(policy) && policy.immediate && 1 <= n <= |outcomes|
    requires Judge(policy, outcomes[..n]) == Fails && n <= policy.maxProbes
    requires Successes(outcomes[..n - 1]) == n - 1 && Judge(policy, outcomes[..n - 1]) == Undecided
    requires ClassifiedOutcome(outcomes[n - 1])
    ensures outcomes[n - 1].Failure? && n <= Needed(policy)
  {
    assert outcomes[..n][..n - 1] == outcomes[..n - 1];
    FullRatio(n);
    var trial := outcomes[..n];
    assert Successes(trial) == n - 1 + if outcomes[n - 1].Success? then 1 else 0;
  }

  // ---------- where feeding stops ----------

  /** How many of the first n outcomes are successes, counted as a bag. */
  ghost function SuccessesIn(outcomes: seq<Outcome>, n: nat): nat
    requires n <= |outcomes|
  {
    multiset(outcomes[..n])[Success]
  }

  /** Reopen-after-sample with a success count: the generation recovers at the very outcome that completes
      the count, failures before it notwithstanding, and fails when the quota passes without it. */
  lemma AfterSampleStopsAtCount(policy: Recovery, outcomes: seq<Outcome>)
    requires ValidRecovery(policy) && !policy.immediate && policy.requiredSuccesses > 0
    requires AllClassified(outcomes) && |outcomes| >= policy.maxProbes
    ensures var (verdict, n) := Feed(policy, outcomes, 0);
            && n <= policy.maxProbes
            && (forall i :: 0 <= i < n ==> SuccessesIn(outcomes, i) < policy.requiredSuccesses)
            && if verdict == Recovers then SuccessesIn(outcomes, n) == policy.requiredSuccesses
               else verdict == Fails && n == policy.maxProbes && SuccessesIn(outcomes, n) < policy.requiredSuccesses
  {
    FeedFirst(policy, outcomes, 0);
    DecidedWithinQuota(policy, outcomes);
    var (verdict, n) := Feed(policy, outcomes, 0);
    forall i | 0 <= i < n
      ensures SuccessesIn(outcomes, i) < policy.requiredSuccesses
    {
      SuccessesOfBag(outcomes[..i]);
      assert Judge(policy, outcomes[..i]) == Undecided;
    }
    SuccessesOfBag(outcomes[..n]);
    SuccessesOfBag(outcomes[..n - 1]);
    SuccessesMonotone(outcomes, n - 1, n);
  }

  /** Immediate reopening: the first failure ends the generation where it stands, and the needed number of
      successes without one recovers it there. */
  lemma ImmediateStopsAtFailure(policy: Recovery, outcomes: seq<Outcome>)
    requires ValidRecovery(policy) && policy.immediate
    requires AllClassified(outcomes) && |outcomes| >= policy.maxProbes
    ensures var (verdict, n) := Feed(policy, outcomes, 0);
            && 1 <= n <= Needed(policy)
            && (forall i :: 0 <= i < n - 1 ==> outcomes[i].Success?)
            && if verdict == Recovers then n == Needed(policy) && outcomes[n - 1].Success?
               else verdict == Fails && outcomes[n - 1].Failure?
  {
    FeedFirst(policy, outcomes, 0);
    DecidedWithinQuota(policy, outcomes);
    var (verdict, n) := Feed(policy, outcomes, 0);
    var before := outcomes[..n - 1];
    PrefixesUndecided(policy, outcomes, n - 1);
    ImmediateAllSuccesses(policy, before);
    AllSuccesses(before);
    assert forall i :: 0 <= i < n - 1 ==> outcomes[i] == before[i] && before[i] in before;
    assert outcomes[n - 1] in outcomes;
    if verdict == Recovers {
      assert outcomes[..n][..n - 1] == before;
      RecoversAtNeeded(policy, outcomes, n);
    } else {
      FailsBeforeNeeded(policy, outcomes, n);
    }
  }

  /** The successes of a full sample against the ratio of the quota. */
  predicate ReachesRatio(policy: Recovery, successes: nat) {
    successes as real >= policy.successRatio * policy.maxProbes as real
  }

  /** What an outcome decides, in the table's terms, when the sample before it decided nothing: counted over
      the bag of outcomes, with ratios multiplied out. */
  ghost function Decision(policy: Recovery, trial: seq<Outcome>): Verdict
    requires trial != []
  {
    var successes := multiset(trial)[Success];
    if policy.immediate && trial[|trial| - 1].Failure? then Fails
    else if policy.requiredSuccesses > 0 then
      if successes == policy.requiredSuccesses then Recovers
      else if |trial| == policy.maxProbes then Fails
      else Undecided
    else if |trial| < policy.maxProbes then Undecided
    else if ReachesRatio(policy, successes) then Recovers
    else Fails
  }

  lemma JudgeDecides(policy: Recovery, trial: seq<Outcome>)
    requires ValidRecovery(policy) && trial != [] && UndecidedTrial(policy, trial[..|trial| - 1])
    requires ClassifiedOutcome(trial[|trial| - 1])
    ensures Judge(policy, trial) == Decision(policy, trial)
  {
    hide Ratio;
    var before := trial[..|trial| - 1];
    UndecidedIsShort(policy, before);
    SuccessesOfBag(trial);
    RatioReaches(Successes(trial), |trial|, policy.successRatio);
    if policy.immediate && policy.requiredSuccesses <= 0 {
      AllRatio(policy, |trial|);
    }
    if policy.immediate {
      ImmediateAllSuccesses(policy, before);
    }
    BeforeCount(policy, before);
  }

  lemma AllRatio(policy: Recovery, n: nat)
    requires ValidRecovery(policy)
    ensures n as real >= policy.successRatio * n as real
  {
    assert (1.0 - policy.successRatio) * n as real >= 0.0;
  }

  /** An undecided sample is short of its success count. */
  lemma BeforeCount(policy: Recovery, trial: seq<Outcome>)
    requires ValidRecovery(policy) && UndecidedTrial(policy, trial)
    ensures policy.requiredSuccesses > 0 ==> Successes(trial) < policy.requiredSuccesses
  {
  }

  /** Reopen-after-sample with a ratio: nothing is decided before the full sample, and then the successes
      against the ratio of the quota decide. */
  lemma AfterSampleWaitsForRatio(policy: Recovery, outcomes: seq<Outcome>)
    requires ValidRecovery(policy) && !policy.immediate && policy.requiredSuccesses <= 0
    requires AllClassified(outcomes) && |outcomes| >= policy.maxProbes
    ensures Feed(policy, outcomes, 0) ==
            (if ReachesRatio(policy, SuccessesIn(outcomes, policy.maxProbes)) then Recovers else Fails, policy.maxProbes)
  {
    hide Judge, Feed, ReachesRatio;
    FeedFirst(policy, outcomes, 0);
    DecidedWithinQuota(policy, outcomes);
    var (verdict, n) := Feed(policy, outcomes, 0);
    PrefixesUndecided(policy, outcomes, n - 1);
    assert outcomes[..n][..n - 1] == outcomes[..n - 1];
    assert outcomes[n - 1] in outcomes;
    JudgeDecides(policy, outcomes[..n]);
  }
}
