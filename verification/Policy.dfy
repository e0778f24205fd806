/** The opening rules (policy.go). */
module Policy {
  import opened Config
  import opened Window

  function Ratio(numerator: nat, denominator: nat): real {
    if denominator == 0 then 0.0 else numerator as real / denominator as real
  }

  lemma FullRatio(n: nat)
    requires n > 0
    ensures Ratio(n, n) == 1.0
  {
    var x := n as real;
    assert x != 0.0;
    assert x / x == 1.0;
  }

  datatype Rule = ConsecutiveFailures | FailureCount | FailureRatio | SlowCount | SlowRatio

  /** Zero thresholds disable their rule. */
  predicate Enabled(rules: Rules, rule: Rule) {
    match rule
    case ConsecutiveFailures => rules.consecutiveFailures > 0
    case FailureCount => rules.failureCount > 0
    case FailureRatio => rules.failureRatio > 0.0
    case SlowCount => rules.slowCount > 0
    case SlowRatio => rules.slowRatio > 0.0
  }

  predicate Satisfied(rules: Rules, rule: Rule, streak: nat, evidence: Snapshot) {
    match rule
    case ConsecutiveFailures => streak >= rules.consecutiveFailures
    case FailureCount => evidence.failures >= rules.failureCount
    case FailureRatio => Ratio(evidence.failures, evidence.classified) >= rules.failureRatio
    case SlowCount => evidence.Slow() >= rules.slowCount
    case SlowRatio => Ratio(evidence.Slow(), evidence.classified) >= rules.slowRatio
  }

  /** The documented meaning: enough classified evidence, and any (or all, if some) enabled rules hold. */
  ghost predicate Opens(rules: Rules, minimum: nat, streak: nat, evidence: Snapshot) {
    && evidence.classified >= minimum
    && (exists rule :: Enabled(rules, rule) && (!rules.all ==> Satisfied(rules, rule, streak, evidence)))
    && (rules.all ==> forall rule :: Enabled(rules, rule) ==> Satisfied(rules, rule, streak, evidence))
  }

  function Rank(rule: Rule): nat {
    match rule
    case ConsecutiveFailures => 0
    case FailureCount => 1
    case FailureRatio => 2
    case SlowCount => 3
    case SlowRatio => 4
  }

  /** `decisions` holds the decisions of exactly the enabled rules among the first k. */
  ghost predicate Collected(rules: Rules, streak: nat, evidence: Snapshot, decisions: seq<bool>, k: nat) {
    forall d: bool :: d in decisions <==>
      exists rule :: Rank(rule) < k && Enabled(rules, rule) && Satisfied(rules, rule, streak, evidence) == d
  }

  /** Appends the decision of one rule when it is enabled. */
  method Consider(rules: Rules, streak: nat, evidence: Snapshot, decisions: seq<bool>, rule: Rule) returns (more: seq<bool>)
    requires Collected(rules, streak, evidence, decisions, Rank(rule))
    ensures Collected(rules, streak, evidence, more, Rank(rule) + 1)
  {
    assert forall r :: Rank(r) < Rank(rule) + 1 <==> Rank(r) < Rank(rule) || r == rule;
    more := if Enabled(rules, rule) then decisions + [Satisfied(rules, rule, streak, evidence)] else decisions;
  }

  /** The rule list is collected one enabled rule at a time and folded at the end. */
  method OpeningDecision(rules: Rules, minimum: nat, streak: nat, evidence: Snapshot) returns (open: bool)
    ensures open <==> Opens(rules, minimum, streak, evidence)
  {
    if evidence.classified < minimum {
      return false;
    }
    var decisions := Decisions(rules, streak, evidence);
    if rules.all {
      return |decisions| > 0 && false !in decisions;
    }
    return true in decisions;
  }

  /** The collecting half of openingDecision. */
  method Decisions(rules: Rules, streak: nat, evidence: Snapshot) returns (decisions: seq<bool>)
    ensures forall d: bool :: d in decisions <==>
              exists rule :: Enabled(rules, rule) && Satisfied(rules, rule, streak, evidence) == d
    ensures |decisions| > 0 <==> exists rule :: Enabled(rules, rule)
  {
    decisions := [];
    decisions := Consider(rules, streak, evidence, decisions, ConsecutiveFailures);
    decisions := Consider(rules, streak, evidence, decisions, FailureCount);
    decisions := Consider(rules, streak, evidence, decisions, FailureRatio);
    decisions := Consider(rules, streak, evidence, decisions, SlowCount);
    decisions := Consider(rules, streak, evidence, decisions, SlowRatio);
    AllCollected(rules, streak, evidence, decisions);
  }

  lemma AllCollected(rules: Rules, streak: nat, evidence: Snapshot, decisions: seq<bool>)
    requires Collected(rules, streak, evidence, decisions, 5)
    ensures forall d: bool :: d in decisions <==>
              exists rule :: Enabled(rules, rule) && Satisfied(rules, rule, streak, evidence) == d
    ensures |decisions| > 0 <==> exists rule :: Enabled(rules, rule)
  {
    assert forall rule :: Rank(rule) < 5;
    if |decisions| > 0 {
      assert decisions[0] in decisions;
    }
    if rule :| Enabled(rules, rule) {
      assert Satisfied(rules, rule, streak, evidence) in decisions;
    }
  }

  /** Evidence of nothing but slow failures satisfies every rule a threshold can express. */
  lemma SlowFailuresOpen(rules: Rules, minimum: nat, streak: nat, evidence: Snapshot, n: nat)
    requires ValidRules(rules)
    requires n > 0 && evidence.classified == evidence.failures == evidence.slowFailure == n && evidence.slowSuccess == 0
    requires n >= minimum && n >= rules.failureCount && n >= rules.slowCount && streak >= rules.consecutiveFailures
    ensures Opens(rules, minimum, streak, evidence)
  {
    FullRatio(n);
    forall rule | Enabled(rules, rule)
      ensures Satisfied(rules, rule, streak, evidence)
    {
    }
    assert Enabled(rules, ConsecutiveFailures) || Enabled(rules, FailureCount) || Enabled(rules, FailureRatio)
        || Enabled(rules, SlowCount) || Enabled(rules, SlowRatio);
  }

  /** Whether failures alone, fast or slow, can satisfy the rules: some enabled rule is about failures, or
      every one is when all must hold. */
  predicate CountsFailures(rules: Rules) {
    if rules.all then rules.slowCount == 0 && rules.slowRatio == 0.0
    else rules.consecutiveFailures > 0 || rules.failureCount > 0 || rules.failureRatio > 0.0
  }

  /** Evidence of nothing but failures satisfies every rule set that counts failures, and evidence of nothing
      but slow failures satisfies every rule set. */
  lemma FailuresOpen(rules: Rules, minimum: nat, streak: nat, evidence: Snapshot, n: nat)
    requires ValidRules(rules)
    requires n > 0 && evidence.classified == evidence.failures == n && evidence.slowSuccess == 0
    requires CountsFailures(rules) || evidence.slowFailure == n
    requires n >= minimum && n >= rules.failureCount && n >= rules.slowCount && streak >= rules.consecutiveFailures
    ensures Opens(rules, minimum, streak, evidence)
  {
    if evidence.slowFailure == n {
      SlowFailuresOpen(rules, minimum, streak, evidence, n);
    } else {
      FullRatio(n);
      forall rule | Enabled(rules, rule) && (rule.ConsecutiveFailures? || rule.FailureCount? || rule.FailureRatio?)
        ensures Satisfied(rules, rule, streak, evidence)
      {
      }
      assert Enabled(rules, ConsecutiveFailures) || Enabled(rules, FailureCount) || Enabled(rules, FailureRatio);
    }
  }

  lemma RatioReaches(numerator: nat, denominator: nat, threshold: real)
    requires denominator > 0
    ensures Ratio(numerator, denominator) >= threshold <==> numerator as real >= threshold * denominator as real
  {
    var n, d := numerator as real, denominator as real;
    assert n / d * d == n;
    if n / d >= threshold {
      assert (n / d - threshold) * d >= 0.0;
    } else {
      assert (threshold - n / d) * d > 0.0;
    }
  }

  /** The table of opening rules, row by row (docs/policies.md:5-20), with the ratios multiplied out: enough
      throughput, and under "all" no enabled row fails, under "any" some enabled row holds. */
  lemma OpensMeans(rules: Rules, minimum: nat, streak: nat, evidence: Snapshot)
    requires ValidRules(rules) && minimum > 0
    ensures var slow, total := evidence.slowSuccess + evidence.slowFailure, evidence.classified as real;
            Opens(rules, minimum, streak, evidence) <==>
              && evidence.classified >= minimum
              && if rules.all then
                   && (rules.consecutiveFailures > 0 ==> streak >= rules.consecutiveFailures)
                   && (rules.failureCount > 0 ==> evidence.failures >= rules.failureCount)
                   && (rules.failureRatio > 0.0 ==> evidence.failures as real >= rules.failureRatio * total)
                   && (rules.slowCount > 0 ==> slow >= rules.slowCount)
                   && (rules.slowRatio > 0.0 ==> slow as real >= rules.slowRatio * total)
                 else
                   || (rules.consecutiveFailures > 0 && streak >= rules.consecutiveFailures)
                   || (rules.failureCount > 0 && evidence.failures >= rules.failureCount)
                   || (rules.failureRatio > 0.0 && evidence.failures as real >= rules.failureRatio * total)
                   || (rules.slowCount > 0 && slow >= rules.slowCount)
                   || (rules.slowRatio > 0.0 && slow as real >= rules.slowRatio * total)
  {
    hide Ratio;
    if evidence.classified >= minimum {
      RatioReaches(evidence.failures, evidence.classified, rules.failureRatio);
      RatioReaches(evidence.Slow(), evidence.classified, rules.slowRatio);
      RuleRows(rules, streak, evidence);
    }
  }

  /** Some, or every, enabled rule of the five holds. */
  predicate AnyRow(rules: Rules, streak: nat, evidence: Snapshot) {
    || (Enabled(rules, ConsecutiveFailures) && Satisfied(rules, ConsecutiveFailures, streak, evidence))
    || (Enabled(rules, FailureCount) && Satisfied(rules, FailureCount, streak, evidence))
    || (Enabled(rules, FailureRatio) && Satisfied(rules, FailureRatio, streak, evidence))
    || (Enabled(rules, SlowCount) && Satisfied(rules, SlowCount, streak, evidence))
    || (Enabled(rules, SlowRatio) && Satisfied(rules, SlowRatio, streak, evidence))
  }

  predicate EveryRow(rules: Rules, streak: nat, evidence: Snapshot) {
    && (Enabled(rules, ConsecutiveFailures) ==> Satisfied(rules, ConsecutiveFailures, streak, evidence))
    && (Enabled(rules, FailureCount) ==> Satisfied(rules, FailureCount, streak, evidence))
    && (Enabled(rules, FailureRatio) ==> Satisfied(rules, FailureRatio, streak, evidence))
    && (Enabled(rules, SlowCount) ==> Satisfied(rules, SlowCount, streak, evidence))
    && (Enabled(rules, SlowRatio) ==> Satisfied(rules, SlowRatio, streak, evidence))
  }

  /** Quantifying over the rules is going through the five of them. */
  lemma RuleRows(rules: Rules, streak: nat, evidence: Snapshot)
    ensures (exists rule :: Enabled(rules, rule) && Satisfied(rules, rule, streak, evidence)) <==> AnyRow(rules, streak, evidence)
    ensures (forall rule :: Enabled(rules, rule) ==> Satisfied(rules, rule, streak, evidence)) <==> EveryRow(rules, streak, evidence)
    ensures ValidRules(rules) ==> exists rule :: Enabled(rules, rule)
  {
    hide Satisfied;
    if ValidRules(rules) {
      assert Enabled(rules, ConsecutiveFailures) || Enabled(rules, FailureCount) || Enabled(rules, FailureRatio)
          || Enabled(rules, SlowCount) || Enabled(rules, SlowRatio);
    }
    forall rule | Enabled(rules, rule)
      ensures Satisfied(rules, rule, streak, evidence) ==> AnyRow(rules, streak, evidence)
      ensures EveryRow(rules, streak, evidence) ==> Satisfied(rules, rule, streak, evidence)
    {
      RuleRow(rules, rule, streak, evidence);
    }
  }

  lemma RuleRow(rules: Rules, rule: Rule, streak: nat, evidence: Snapshot)
    requires Enabled(rules, rule)
    ensures Satisfied(rules, rule, streak, evidence) ==> AnyRow(rules, streak, evidence)
    ensures EveryRow(rules, streak, evidence) ==> Satisfied(rules, rule, streak, evidence)
  {
    hide Enabled, Satisfied;
    match rule
    case ConsecutiveFailures =>
    case FailureCount =>
    case FailureRatio =>
    case SlowCount =>
    case SlowRatio =>
  }
}
