/** The open-interval schedule and its jitter (breaker.go:625-679). */
module OpenSchedule {
  import opened Config

  /** The k-th growth step of an exponential schedule. The scaling is an arbitrary function: a result
      that does not grow (overflow, for one) selects the cap. */
  function Level(schedule: Schedule, k: nat): int
    requires schedule.Exponential?
  {
    if k == 0 then schedule.initial
    else
      var duration := Level(schedule, k - 1);
      var next := schedule.scale(duration);
      if next <= duration || next > schedule.maximum then schedule.maximum else next
  }

  /** The interval selected for the n-th opening since the last closed state, before jitter. */
  function Selected(schedule: Schedule, openings: nat): int {
    match schedule
    case Fixed(d) => d
    case Exponential(initial, multiplier, _, _) =>
      if multiplier == 1.0 || openings <= 1 then initial else Level(schedule, openings - 1)
  }

  /** Each level is the cap or strictly above the one before: the schedule stays in its bounds, grows
      by at least one per round until the cap, and stays there. */
  lemma {:induction false} LevelGrows(schedule: Schedule, k: nat)
    requires schedule.Exponential? && ValidSchedule(schedule)
    ensures schedule.initial <= Level(schedule, k) <= schedule.maximum
    ensures Level(schedule, k) == schedule.maximum || Level(schedule, k) >= schedule.initial + k
    ensures Level(schedule, k) <= Level(schedule, k + 1) <= schedule.maximum
    ensures Level(schedule, k) == schedule.maximum || Level(schedule, k) < Level(schedule, k + 1)
  {
    if k > 0 {
      LevelGrows(schedule, k - 1);
    }
  }

  lemma {:induction false} LevelMonotone(schedule: Schedule, j: nat, k: nat)
    requires schedule.Exponential? && ValidSchedule(schedule) && j <= k
    ensures Level(schedule, j) <= Level(schedule, k)
    decreases k - j
  {
    if j < k {
      LevelGrows(schedule, j);
      LevelMonotone(schedule, j + 1, k);
    }
  }

  ghost function Least(schedule: Schedule): int {
    if schedule.Fixed? then schedule.duration else schedule.initial
  }

  ghost function Most(schedule: Schedule): int {
    if schedule.Fixed? then schedule.duration else schedule.maximum
  }

  /** For any scaling whatever, the schedule stays within its bounds and never shrinks. */
  lemma SelectedBounds(schedule: Schedule, fewer: nat, more: nat)
    requires ValidSchedule(schedule) && 1 <= fewer <= more
    ensures Least(schedule) <= Selected(schedule, fewer) <= Selected(schedule, more) <= Most(schedule)
    ensures schedule.Exponential? && schedule.multiplier != 1.0 && more > schedule.maximum - schedule.initial
            ==> Selected(schedule, more) == schedule.maximum
  {
    if schedule.Exponential? {
      LevelGrows(schedule, fewer - 1);
      LevelGrows(schedule, more - 1);
      LevelMonotone(schedule, fewer - 1, more - 1);
      LevelGrows(schedule, 0);
    }
  }

  // ---------- the schedule in closed form ----------

  /** The schedule as a recurrence: the first opening waits Initial; every further one the scaling of the
      interval before it, as long as that is longer and within the cap, and the cap from then on. */
  lemma SelectedFollows(schedule: Schedule, openings: nat)
    requires ValidSchedule(schedule) && openings >= 1
    ensures match schedule
            case Fixed(d) => Selected(schedule, openings) == d
            case Exponential(initial, multiplier, maximum, scale) =>
              && Selected(schedule, 1) == initial
              && (multiplier == 1.0 ==> Selected(schedule, openings) == initial)
              && (multiplier != 1.0 ==>
                    var current := Selected(schedule, openings);
                    var next := scale(current);
                    Selected(schedule, openings + 1) == if current < next <= maximum then next else maximum)
  {
  }

  function Power(base: nat, exponent: nat): nat {
    if exponent == 0 then 1 else base * Power(base, exponent - 1)
  }

  /** The scaling multiplies by m wherever the schedule can use it. */
  ghost predicate Multiplies(schedule: Schedule, m: nat) {
    schedule.Exponential? && forall d :: schedule.initial <= d <= schedule.maximum ==> schedule.scale(d) == m * d
  }

  function Capped(exact: int, maximum: int): int {
    if exact < maximum then exact else maximum
  }

  lemma {:induction false} LevelIsPower(schedule: Schedule, m: nat, k: nat)
    requires ValidSchedule(schedule) && Multiplies(schedule, m) && m >= 2
    ensures Level(schedule, k) == Capped(schedule.initial * Power(m, k), schedule.maximum)
  {
    if k > 0 {
      LevelIsPower(schedule, m, k - 1);
      LevelGrows(schedule, k - 1);
      var before, current := schedule.initial * Power(m, k - 1), Level(schedule, k - 1);
      PowerMore(schedule.initial, m, k);
      assert schedule.scale(current) == m * current;
      CapFollows(m, before, current, schedule.maximum);
    }
  }

  lemma PowerMore(initial: int, m: nat, k: nat)
    requires k > 0
    ensures initial * Power(m, k) == m * (initial * Power(m, k - 1))
  {
    var p := Power(m, k - 1);
    assert initial * (m * p) == m * (initial * p);
  }

  lemma CapFollows(m: nat, before: int, current: int, maximum: int)
    requires m >= 2 && current >= 1 && current == Capped(before, maximum)
    ensures m * current > current
    ensures Capped(m * before, maximum) == if m * current > maximum then maximum else m * current
  {
    assert (m - 1) * current >= 1;
    if before >= maximum {
      assert (m - 1) * before >= 1;
    }
  }

  /** For a whole multiplier the n-th interval is Initial times its (n-1)-th power, up to the cap. */
  lemma SelectedIsPower(schedule: Schedule, m: nat, openings: nat)
    requires ValidSchedule(schedule) && Multiplies(schedule, m) && m >= 2 && schedule.multiplier != 1.0 && openings >= 1
    ensures Selected(schedule, openings) == Capped(schedule.initial * Power(m, openings - 1), schedule.maximum)
  {
    LevelIsPower(schedule, m, openings - 1);
    assert Power(m, 0) == 1;
  }

  /** The growth loop; past the first round it runs at most maximum - initial of them,
      however large the opening count. */
  method Select(schedule: Schedule, openings: nat) returns (duration: int, rounds: nat)
    requires ValidSchedule(schedule)
    ensures duration == Selected(schedule, openings)
    ensures rounds <= 1 || rounds <= Most(schedule) - Least(schedule)
  {
    rounds := 0;
    match schedule {
      case Fixed(d) => return d, 0;
      case Exponential(initial, multiplier, maximum, scale) =>
        duration := initial;
        if multiplier == 1.0 {
          return;
        }
        var attempt := 1;
        while attempt < openings
          invariant attempt == 1 || 1 < attempt <= openings
          invariant duration == Level(schedule, attempt - 1) && (attempt == 1 || duration < maximum)
          invariant rounds == attempt - 1
          invariant attempt > 1 ==> rounds < maximum - initial
        {
          LevelGrows(schedule, attempt - 1);
          LevelGrows(schedule, attempt);
          rounds := rounds + 1;
          var next := scale(duration);
          if next <= duration {
            Saturates(schedule, attempt, openings - 1);
            return maximum, rounds;
          }
          duration := if next < maximum then next else maximum;
          if duration == maximum {
            Saturates(schedule, attempt, openings - 1);
            return maximum, rounds;
          }
          attempt := attempt + 1;
        }
    }
  }

  lemma Saturates(schedule: Schedule, j: nat, k: nat)
    requires schedule.Exponential? && ValidSchedule(schedule) && j <= k
    requires Level(schedule, j) == schedule.maximum
    ensures Level(schedule, k) == schedule.maximum
  {
    LevelMonotone(schedule, j, k);
    LevelGrows(schedule, k);
  }

  // ---------- jitter ----------

  /** A sample from the borrowed random source: it may panic or return any float. */
  datatype Draw = Panicked | Drawn(sample: Float64)

  function SafeSample(draw: Draw): (sample: real)
    ensures 0.0 <= sample < 1.0
    ensures draw.Drawn? && draw.sample.Finite? && 0.0 <= draw.sample.value < 1.0 ==> sample == draw.sample.value
  {
    match draw
    case Panicked => 0.0
    case Drawn(Finite(v)) => if v < 0.0 || v >= 1.0 then 0.0 else v
    case Drawn(_) => 0.0
  }

  /** The interval before rounding. */
  function Shortened(duration: int, jitter: real, sample: real): (exact: real)
    requires duration >= 1 && 0.0 <= jitter < 1.0 && 0.0 <= sample < 1.0
    ensures duration as real * (1.0 - jitter) <= exact <= duration as real
    ensures jitter == 0.0 || sample == 0.0 ==> exact == duration as real
  {
    Shortens(duration as real, jitter, sample);
    duration as real * (1.0 - jitter * sample)
  }

  /** Jitter shortens the interval, never below one nanosecond and never beyond its fraction. */
  function Jittered(duration: int, jitter: real, sample: real): (d: int)
    requires duration >= 1 && 0.0 <= jitter < 1.0 && 0.0 <= sample < 1.0
    ensures 1 <= d <= duration
    ensures jitter == 0.0 || sample == 0.0 ==> d == duration
    ensures d as real > duration as real * (1.0 - jitter) - 1.0
    ensures d == 1 || d as real <= duration as real * (1.0 - jitter * sample)
    ensures duration as real * (1.0 - jitter * sample) < d as real + 1.0
  {
    if jitter == 0.0 then duration else Truncated(Shortened(duration, jitter, sample), duration)
  }

  /** A positive whole number of nanoseconds. */
  function Truncated(exact: real, most: int): (d: int)
    requires most >= 1 && exact <= most as real
    ensures 1 <= d <= most
    ensures d == 1 || d as real <= exact
    ensures exact < d as real + 1.0
    ensures exact == most as real ==> d == most
  {
    if exact.Floor <= 0 then 1 else exact.Floor
  }

  lemma Shortens(d: real, jitter: real, sample: real)
    requires d >= 1.0 && 0.0 <= jitter < 1.0 && 0.0 <= sample < 1.0
    ensures d * (1.0 - jitter) <= d * (1.0 - jitter * sample) <= d
    ensures jitter == 0.0 || sample == 0.0 ==> d * (1.0 - jitter * sample) == d
  {
    assert 0.0 <= jitter * sample <= jitter by {
      assert jitter * (1.0 - sample) >= 0.0;
    }
    assert d * (jitter * sample) >= 0.0;
    assert d * (jitter - jitter * sample) >= 0.0;
  }
}
