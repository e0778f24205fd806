/** Construction options and their normalization (config.go). */
module Config {
  import opened Arithmetic
  import opened Window

  const DEFAULT_COUNT_WINDOW_SIZE: nat := 100
  const DEFAULT_MINIMUM_THROUGHPUT: nat := 10
  const DEFAULT_SLOW_CALL_DURATION: int := 30_000_000_000
  const DEFAULT_OPEN_DURATION: int := 30_000_000_000
  const DEFAULT_HALF_OPEN_PROBES: nat := 10
  const DEFAULT_PERMIT_TTL: int := 300_000_000_000
  const MAX_NAME_BYTES: nat := 256
  const MAX_HALF_OPEN_PROBES: nat := 0x1_0000
  const MAX_EVENT_BUFFER: nat := 0x1_0000
  const DEFAULT_EVENT_BUFFER: nat := 64
  const MAX_DURATION: int := 0x7FFF_FFFF_FFFF_FFFF

  /** A configured number that may fail to be a number; arithmetic on accepted ones is over reals. */
  datatype Float64 = NaN | PositiveInfinity | NegativeInfinity | Finite(value: real)

  datatype Result<+T> = Ok(value: T) | Err(field: string, message: string) {
    predicate IsFailure() {
      Err?
    }
    function PropagateFailure<U>(): Result<U>
      requires Err?
    {
      Err(field, message)
    }
    function Extract(): T
      requires Ok?
    {
      value
    }
  }

  // ---------- what callers write ----------

  datatype WindowConfig = DefaultWindow | CountWindow(size: int)
                        | TimeWindow(bucketDuration: int, bucketCount: int) | UnsupportedWindow

  datatype Combination = OpenWhenAny | OpenWhenAll | UnknownCombination(code: nat)

  datatype IgnoredBehavior = PreserveConsecutiveFailures | ResetConsecutiveFailures | UnknownBehavior(code: nat)

  datatype OpeningConfig = DefaultOpening
                         | Opening(consecutiveFailures: nat, failureCount: nat, failureRatio: Float64,
                                   slowCount: nat, slowRatio: Float64,
                                   combination: Combination, ignoredBehavior: IgnoredBehavior)

  /** `scale` stands for the platform's truncated float64 multiplication by `multiplier`
      (breaker.go:638); nothing is assumed of it. */
  datatype OpenDurationConfig = DefaultOpenDuration | FixedOpenDuration(duration: int)
                              | ExponentialOpenDuration(initial: int, multiplier: Float64, maximum: int, scale: int -> int)
                              | UnsupportedOpenDuration

  datatype FailureAction = ReopenImmediately | ReopenAfterSample | UnknownAction(code: nat)

  datatype HalfOpenConfig = DefaultHalfOpen
                          | HalfOpenPolicy(maxProbes: int, requiredSuccesses: int, successRatio: Float64, failureAction: FailureAction)

  datatype AdmissionConfig = DefaultAdmission | RejectExcessProbes | WaitForProbe(maxWait: int) | UnsupportedAdmission

  datatype Overflow = DropNewestEvent | DropOldestEvent | UnknownOverflow(code: nat)

  datatype DeliveryConfig = DefaultDelivery | SynchronousEvents | AsynchronousEvents(buffer: int, overflow: Overflow)
                          | UnsupportedDelivery

  /** An optional collaborator: left out, an interface holding a nil pointer, or a usable value. */
  datatype Collaborator = Absent | TypedNil | Usable

  datatype Config = Config(nameBytes: nat, clock: Collaborator, random: Collaborator, window: WindowConfig, minimumThroughput: int, slowCallDuration: int,
                           opening: OpeningConfig, openDuration: OpenDurationConfig, halfOpen: HalfOpenConfig,
                           permitTTL: int, admission: AdmissionConfig,
                           hasObserver: bool, delivery: DeliveryConfig, openDurationJitter: Float64)

  // ---------- what the breaker runs on ----------

  datatype WindowShape = ByCount(size: nat) | ByTime(bucketDuration: int, bucketCount: nat)

  datatype Rules = Rules(consecutiveFailures: nat, failureCount: nat, failureRatio: real,
                         slowCount: nat, slowRatio: real, all: bool, resetOnIgnored: bool)

  datatype Schedule = Fixed(duration: int) | Exponential(initial: int, multiplier: real, maximum: int, scale: int -> int)

  datatype Recovery = Recovery(maxProbes: nat, requiredSuccesses: int, successRatio: real, immediate: bool)

  datatype Delivery = NoObserver | Synchronous | Asynchronous(buffer: nat, dropOldest: bool)

  datatype Settings = Settings(window: WindowShape, minimumThroughput: nat, slowCallDuration: int,
                               opening: Rules, openDuration: Schedule, halfOpen: Recovery,
                               permitTTL: int, wait: bool, maxWait: int, delivery: Delivery, jitter: real)

  // ---------- normalization ----------

  function ValidateRatio(field: string, value: Float64): Result<real> {
    match value
    case Finite(r) => if 0.0 <= r <= 1.0 then Ok(r) else Err(field, "must be in the range [0, 1]")
    case _ => Err(field, "must be in the range [0, 1]")
  }

  function NormalizeWindow(config: WindowConfig): Result<WindowShape> {
    match config
    case DefaultWindow => Ok(ByCount(DEFAULT_COUNT_WINDOW_SIZE))
    case CountWindow(size) =>
      if size <= 0 then Err("Window.Size", "must be greater than zero")
      else if size > MAX_COUNT_SIZE then Err("Window.Size", "exceeds maximum")
      else Ok(ByCount(size))
    case TimeWindow(duration, count) =>
      if duration <= 0 then Err("Window.BucketDuration", "must be greater than zero")
      else if count <= 0 then Err("Window.BucketCount", "must be greater than zero")
      else if count > MAX_BUCKET_COUNT then Err("Window.BucketCount", "exceeds maximum")
      else if duration > MAX_DURATION / count then Err("Window", "rolling interval overflows time.Duration")
      else Ok(ByTime(duration, count))
    case UnsupportedWindow => Err("Window", "unsupported window configuration")
  }

  function NormalizeOpening(config: OpeningConfig): Result<Rules> {
    match config
    case DefaultOpening => Ok(Rules(0, 0, 0.5, 0, 0.0, false, false))
    case Opening(streak, failures, failureRatio, slow, slowRatio, combination, ignored) =>
      if combination.UnknownCombination? then Err("Opening.Combination", "is unknown")
      else if ignored.UnknownBehavior? then Err("Opening.IgnoredBehavior", "is unknown")
      else
        var f :- ValidateRatio("Opening.FailureRatio", failureRatio);
        var s :- ValidateRatio("Opening.SlowRatio", slowRatio);
        if streak == 0 && failures == 0 && f == 0.0 && slow == 0 && s == 0.0 then
          Err("Opening", "must enable at least one rule")
        else Ok(Rules(streak, failures, f, slow, s, combination.OpenWhenAll?, ignored.ResetConsecutiveFailures?))
  }

  function NormalizeOpenDuration(config: OpenDurationConfig): Result<Schedule> {
    match config
    case DefaultOpenDuration => Ok(Fixed(DEFAULT_OPEN_DURATION))
    case FixedOpenDuration(d) => if d <= 0 then Err("OpenDuration", "must be greater than zero") else Ok(Fixed(d))
    case ExponentialOpenDuration(initial, multiplier, maximum, scale) =>
      if initial <= 0 then Err("OpenDuration.Initial", "must be greater than zero")
      else if !multiplier.Finite? || multiplier.value < 1.0 then Err("OpenDuration.Multiplier", "must be at least one")
      else if maximum < initial then Err("OpenDuration.Maximum", "must not be less than Initial")
      else Ok(Exponential(initial, multiplier.value, maximum, scale))
    case UnsupportedOpenDuration => Err("OpenDuration", "unsupported duration policy")
  }

  function NormalizeHalfOpen(config: HalfOpenConfig): Result<Recovery> {
    match config
    case DefaultHalfOpen => Ok(Recovery(DEFAULT_HALF_OPEN_PROBES, DEFAULT_HALF_OPEN_PROBES, 0.0, true))
    case HalfOpenPolicy(probes, successes, successRatio, action) =>
      if probes < 1 then Err("HalfOpen.MaxProbes", "must be greater than zero")
      else if probes > MAX_HALF_OPEN_PROBES then Err("HalfOpen.MaxProbes", "exceeds maximum")
      else if action.UnknownAction? then Err("HalfOpen.FailureAction", "is unknown")
      else
        var r :- ValidateRatio("HalfOpen.SuccessRatio", successRatio);
        if successes > 0 && r > 0.0 then Err("HalfOpen", "must select one recovery threshold")
        else if successes <= 0 && r == 0.0 then Err("HalfOpen", "must select a recovery threshold")
        else if successes > probes then Err("HalfOpen.RequiredSuccesses", "must not exceed MaxProbes")
        else Ok(Recovery(probes, successes, r, action.ReopenImmediately?))
  }

  function NormalizeAdmission(config: AdmissionConfig): Result<(bool, int)> {
    match config
    case DefaultAdmission => Ok((false, 0))
    case RejectExcessProbes => Ok((false, 0))
    case WaitForProbe(wait) =>
      if wait <= 0 then Err("HalfOpenAdmission.MaxWait", "must be greater than zero") else Ok((true, wait))
    case UnsupportedAdmission => Err("HalfOpenAdmission", "unsupported admission policy")
  }

  function NormalizeDelivery(hasObserver: bool, config: DeliveryConfig): Result<Delivery> {
    if !hasObserver then
      if config.DefaultDelivery? then Ok(NoObserver) else Err("EventDelivery", "requires an Observer")
    else
      match config
      case DefaultDelivery => Ok(Asynchronous(DEFAULT_EVENT_BUFFER, false))
      case SynchronousEvents => Ok(Synchronous)
      case AsynchronousEvents(buffer, overflow) =>
        if buffer <= 0 then Err("EventDelivery.Buffer", "must be greater than zero")
        else if buffer > MAX_EVENT_BUFFER then Err("EventDelivery.Buffer", "exceeds maximum")
        else if overflow.UnknownOverflow? then Err("EventDelivery.Overflow", "is unknown")
        else Ok(Asynchronous(buffer, overflow.DropOldestEvent?))
      case UnsupportedDelivery => Err("EventDelivery", "unsupported delivery policy")
  }

  function OrDefault(value: int, default: int): int {
    if value == 0 then default else value
  }

  function Normalize(config: Config): Result<Settings> {
    if config.nameBytes == 0 then Err("Name", "must not be empty")
    else if config.nameBytes > MAX_NAME_BYTES then Err("Name", "exceeds maximum length")
    else NormalizeNamed(config)
  }

  function NormalizeNamed(config: Config): Result<Settings> {
    var window :- NormalizeWindow(config.window);
    if config.minimumThroughput < 0 then Err("MinimumThroughput", "must not be negative")
    else
      var minimum := OrDefault(config.minimumThroughput, DEFAULT_MINIMUM_THROUGHPUT);
      if window.ByCount? && minimum > window.size then
        Err("MinimumThroughput", "must not exceed count window size")
      else if config.slowCallDuration < 0 then Err("SlowCallDuration", "must not be negative")
      else
        var opening :- NormalizeOpening(config.opening);
        if window.ByCount? && opening.failureCount > window.size then
          Err("Opening.FailureCount", "must not exceed count window size")
        else if window.ByCount? && opening.slowCount > window.size then
          Err("Opening.SlowCount", "must not exceed count window size")
        else
          var openDuration :- NormalizeOpenDuration(config.openDuration);
          var halfOpen :- NormalizeHalfOpen(config.halfOpen);
          if config.clock.TypedNil? then Err("Clock", "must not be nil")
          else if config.permitTTL < 0 then Err("PermitTTL", "must not be negative")
          else
            var admission :- NormalizeAdmission(config.admission);
            var delivery :- NormalizeDelivery(config.hasObserver, config.delivery);
            if !config.openDurationJitter.Finite? || !(0.0 <= config.openDurationJitter.value < 1.0) then
              Err("OpenDurationJitter", "must be in the range [0, 1)")
            else if config.random.TypedNil? then Err("Random", "must not be nil")
            else
              Ok(Settings(window, minimum, OrDefault(config.slowCallDuration, DEFAULT_SLOW_CALL_DURATION),
                          opening, openDuration, halfOpen, OrDefault(config.permitTTL, DEFAULT_PERMIT_TTL),
                          admission.0, admission.1, delivery, config.openDurationJitter.value))
  }

  // ---------- what an accepted configuration guarantees ----------

  predicate ValidWindow(shape: WindowShape) {
    match shape
    case ByCount(size) => 0 < size <= MAX_COUNT_SIZE
    case ByTime(duration, count) => 0 < duration && 0 < count <= MAX_BUCKET_COUNT && duration * count <= MAX_DURATION
  }

  predicate ValidRules(rules: Rules) {
    && 0.0 <= rules.failureRatio <= 1.0
    && 0.0 <= rules.slowRatio <= 1.0
    && (rules.consecutiveFailures > 0 || rules.failureCount > 0 || rules.failureRatio > 0.0
        || rules.slowCount > 0 || rules.slowRatio > 0.0)
  }

  predicate ValidSchedule(schedule: Schedule) {
    match schedule
    case Fixed(d) => d > 0
    case Exponential(initial, multiplier, maximum, _) => 0 < initial <= maximum && multiplier >= 1.0
  }

  predicate ValidRecovery(r: Recovery) {
    && 1 <= r.maxProbes <= MAX_HALF_OPEN_PROBES
    && 0.0 <= r.successRatio <= 1.0
    && r.requiredSuccesses <= r.maxProbes
    && (r.requiredSuccesses > 0 <==> r.successRatio == 0.0)
  }

  predicate ValidDelivery(d: Delivery) {
    d.Asynchronous? ==> 0 < d.buffer <= MAX_EVENT_BUFFER
  }

  /** The invariant every operation of the breaker relies on. */
  predicate ValidSettings(s: Settings) {
    && ValidWindow(s.window)
    && s.minimumThroughput > 0
    && s.slowCallDuration > 0
    && ValidRules(s.opening)
    && (s.window.ByCount? ==>
          s.minimumThroughput <= s.window.size && s.opening.failureCount <= s.window.size
          && s.opening.slowCount <= s.window.size)
    && ValidSchedule(s.openDuration)
    && ValidRecovery(s.halfOpen)
    && s.permitTTL > 0
    && (if s.wait then s.maxWait > 0 else s.maxWait == 0)
    && ValidDelivery(s.delivery)
    && 0.0 <= s.jitter < 1.0
  }

  lemma WindowProduct(duration: int, count: nat)
    requires count > 0
    ensures duration <= MAX_DURATION / count <==> duration * count <= MAX_DURATION
  {
    var q := MAX_DURATION / count;
    DivisionEquation(MAX_DURATION, count);
    if duration <= q {
      MultiplyMonotone(duration, q, count);
    } else {
      MultiplyMonotone(q + 1, duration, count);
      Distribute(q, 1, count);
    }
  }

  /** Every accepted configuration is valid. */
  lemma NormalizeIsValid(config: Config)
    requires Normalize(config).Ok?
    ensures ValidSettings(Normalize(config).value)
  {
    var s := Normalize(config).value;
    WindowIsValid(config.window);
    assert ValidWindow(s.window);
    assert ValidRules(s.opening) && ValidSchedule(s.openDuration) && ValidRecovery(s.halfOpen);
    assert ValidDelivery(s.delivery);
  }

  lemma WindowIsValid(config: WindowConfig)
    ensures NormalizeWindow(config).Ok? ==> ValidWindow(NormalizeWindow(config).value)
  {
    if config.TimeWindow? && config.bucketCount > 0 {
      WindowProduct(config.bucketDuration, config.bucketCount);
    }
  }

  // ---------- exactly which configurations are accepted ----------

  predicate InUnit(value: Float64) {
    value.Finite? && 0.0 <= value.value <= 1.0
  }

  predicate WindowWellFormed(config: WindowConfig) {
    match config
    case DefaultWindow => true
    case CountWindow(size) => 1 <= size <= MAX_COUNT_SIZE
    case TimeWindow(duration, count) =>
      1 <= duration && 1 <= count <= MAX_BUCKET_COUNT && duration * count <= MAX_DURATION
    case UnsupportedWindow => false
  }

  predicate OpeningWellFormed(config: OpeningConfig) {
    config.Opening? ==>
      && !config.combination.UnknownCombination? && !config.ignoredBehavior.UnknownBehavior?
      && InUnit(config.failureRatio) && InUnit(config.slowRatio)
      && !(config.consecutiveFailures == config.failureCount == config.slowCount == 0
           && config.failureRatio.value == config.slowRatio.value == 0.0)
  }

  predicate OpenDurationWellFormed(config: OpenDurationConfig) {
    match config
    case DefaultOpenDuration => true
    case FixedOpenDuration(d) => 1 <= d
    case ExponentialOpenDuration(initial, multiplier, maximum, _) =>
      1 <= initial <= maximum && multiplier.Finite? && 1.0 <= multiplier.value
    case UnsupportedOpenDuration => false
  }

  /** Exactly one recovery threshold, within the quota. */
  predicate HalfOpenWellFormed(config: HalfOpenConfig) {
    config.HalfOpenPolicy? ==>
      && 1 <= config.maxProbes <= MAX_HALF_OPEN_PROBES && !config.failureAction.UnknownAction?
      && InUnit(config.successRatio)
      && (1 <= config.requiredSuccesses <==> config.successRatio.value == 0.0)
      && config.requiredSuccesses <= config.maxProbes
  }

  predicate DeliveryWellFormed(hasObserver: bool, config: DeliveryConfig) {
    match config
    case DefaultDelivery => true
    case SynchronousEvents => hasObserver
    case AsynchronousEvents(buffer, overflow) =>
      hasObserver && 1 <= buffer <= MAX_EVENT_BUFFER && !overflow.UnknownOverflow?
    case UnsupportedDelivery => false
  }

  /** A count window must be able to hold whatever evidence the rules ask for. */
  predicate FitsWindow(config: Config) {
    !config.window.TimeWindow? && !config.window.UnsupportedWindow? ==>
      var size := if config.window.CountWindow? then config.window.size else DEFAULT_COUNT_WINDOW_SIZE;
      && OrDefault(config.minimumThroughput, DEFAULT_MINIMUM_THROUGHPUT) <= size
      && (config.opening.Opening? ==> config.opening.failureCount <= size && config.opening.slowCount <= size)
  }

  predicate WellFormed(config: Config) {
    && 1 <= config.nameBytes <= MAX_NAME_BYTES && !config.clock.TypedNil? && !config.random.TypedNil?
    && WindowWellFormed(config.window) && OpeningWellFormed(config.opening)
    && OpenDurationWellFormed(config.openDuration) && HalfOpenWellFormed(config.halfOpen)
    && DeliveryWellFormed(config.hasObserver, config.delivery)
    && !config.admission.UnsupportedAdmission? && (config.admission.WaitForProbe? ==> 1 <= config.admission.maxWait)
    && config.minimumThroughput >= 0 && config.slowCallDuration >= 0 && config.permitTTL >= 0
    && config.openDurationJitter.Finite? && 0.0 <= config.openDurationJitter.value < 1.0
    && FitsWindow(config)
  }

  lemma PartsAccepted(config: Config)
    ensures NormalizeWindow(config.window).Ok? <==> WindowWellFormed(config.window)
    ensures NormalizeOpening(config.opening).Ok? <==> OpeningWellFormed(config.opening)
    ensures NormalizeOpenDuration(config.openDuration).Ok? <==> OpenDurationWellFormed(config.openDuration)
    ensures NormalizeDelivery(config.hasObserver, config.delivery).Ok? <==> DeliveryWellFormed(config.hasObserver, config.delivery)
    ensures NormalizeAdmission(config.admission).Ok? <==>
              !config.admission.UnsupportedAdmission? && (config.admission.WaitForProbe? ==> 1 <= config.admission.maxWait)
  {
    if config.window.TimeWindow? && config.window.bucketCount > 0 {
      WindowProduct(config.window.bucketDuration, config.window.bucketCount);
    }
  }

  lemma HalfOpenAccepted(config: HalfOpenConfig)
    ensures NormalizeHalfOpen(config).Ok? <==> HalfOpenWellFormed(config)
  {
  }

  /** A configuration is accepted exactly when it is well formed. */
  lemma AcceptedExactly(config: Config)
    ensures Normalize(config).Ok? <==> WellFormed(config)
  {
    PartsAccepted(config);
    HalfOpenAccepted(config.halfOpen);
    if NormalizeWindow(config.window).Ok? && NormalizeOpening(config.opening).Ok? {
      WindowParts(config);
    }
    hide NormalizeOpenDuration, NormalizeHalfOpen, NormalizeDelivery, NormalizeAdmission, NormalizeWindow, NormalizeOpening,
         WindowWellFormed, OpeningWellFormed, OpenDurationWellFormed, HalfOpenWellFormed, DeliveryWellFormed;
  }

  lemma WindowParts(config: Config)
    requires NormalizeWindow(config.window).Ok? && NormalizeOpening(config.opening).Ok?
    ensures var shape, rules := NormalizeWindow(config.window).value, NormalizeOpening(config.opening).value;
            && (shape.ByCount? <==> !config.window.TimeWindow? && !config.window.UnsupportedWindow?)
            && (shape.ByCount? ==>
                  shape.size == if config.window.CountWindow? then config.window.size else DEFAULT_COUNT_WINDOW_SIZE)
            && rules.failureCount == (if config.opening.Opening? then config.opening.failureCount else 0)
            && rules.slowCount == (if config.opening.Opening? then config.opening.slowCount else 0)
  {
  }

  // ---------- defaults ----------

  /** A configuration with everything that was left out written down. */
  function FilledIn(config: Config): Config {
    config.(clock := if config.clock.Absent? then Usable else config.clock,
            random := if config.random.Absent? then Usable else config.random,
            window := if config.window.DefaultWindow? then CountWindow(100) else config.window,
            minimumThroughput := OrDefault(config.minimumThroughput, 10),
            slowCallDuration := OrDefault(config.slowCallDuration, 30_000_000_000),
            opening := if config.opening.DefaultOpening? then
                         Opening(0, 0, Finite(0.5), 0, Finite(0.0), OpenWhenAny, PreserveConsecutiveFailures)
                       else config.opening,
            openDuration := if config.openDuration.DefaultOpenDuration? then FixedOpenDuration(30_000_000_000)
                            else config.openDuration,
            halfOpen := if config.halfOpen.DefaultHalfOpen? then HalfOpenPolicy(10, 10, Finite(0.0), ReopenImmediately)
                        else config.halfOpen,
            permitTTL := OrDefault(config.permitTTL, 300_000_000_000),
            admission := if config.admission.DefaultAdmission? then RejectExcessProbes else config.admission,
            delivery := if config.hasObserver && config.delivery.DefaultDelivery? then AsynchronousEvents(64, DropNewestEvent)
                        else config.delivery)
  }

  lemma FilledParts(config: Config)
    ensures NormalizeWindow(FilledIn(config).window) == NormalizeWindow(config.window)
    ensures NormalizeOpening(FilledIn(config).opening) == NormalizeOpening(config.opening)
    ensures NormalizeOpenDuration(FilledIn(config).openDuration) == NormalizeOpenDuration(config.openDuration)
    ensures NormalizeHalfOpen(FilledIn(config).halfOpen) == NormalizeHalfOpen(config.halfOpen)
    ensures NormalizeAdmission(FilledIn(config).admission) == NormalizeAdmission(config.admission)
    ensures NormalizeDelivery(config.hasObserver, FilledIn(config).delivery) == NormalizeDelivery(config.hasObserver, config.delivery)
  {
  }

  /** Leaving an option out is writing its default down, in every configuration: the same settings or the
      same rejection. */
  lemma Defaults(config: Config)
    ensures Normalize(FilledIn(config)) == Normalize(config)
  {
    FilledParts(config);
    hide NormalizeWindow, NormalizeOpening, NormalizeOpenDuration, NormalizeHalfOpen, NormalizeAdmission, NormalizeDelivery;
  }

  // ---------- writing settings down ----------

  function WrittenWindow(shape: WindowShape): WindowConfig {
    match shape
    case ByCount(size) => CountWindow(size)
    case ByTime(duration, count) => TimeWindow(duration, count)
  }

  function WrittenRules(rules: Rules): OpeningConfig {
    Opening(rules.consecutiveFailures, rules.failureCount, Finite(rules.failureRatio),
            rules.slowCount, Finite(rules.slowRatio),
            if rules.all then OpenWhenAll else OpenWhenAny,
            if rules.resetOnIgnored then ResetConsecutiveFailures else PreserveConsecutiveFailures)
  }

  function WrittenSchedule(schedule: Schedule): OpenDurationConfig {
    match schedule
    case Fixed(d) => FixedOpenDuration(d)
    case Exponential(initial, multiplier, maximum, scale) =>
      ExponentialOpenDuration(initial, Finite(multiplier), maximum, scale)
  }

  function WrittenRecovery(r: Recovery): HalfOpenConfig {
    HalfOpenPolicy(r.maxProbes, r.requiredSuccesses, Finite(r.successRatio),
             if r.immediate then ReopenImmediately else ReopenAfterSample)
  }

  function WrittenDelivery(d: Delivery): DeliveryConfig {
    match d
    case NoObserver => DefaultDelivery
    case Synchronous => SynchronousEvents
    case Asynchronous(b, oldest) => AsynchronousEvents(b, if oldest then DropOldestEvent else DropNewestEvent)
  }

  function Written(s: Settings): Config {
    Config(1, Usable, Usable, WrittenWindow(s.window), s.minimumThroughput, s.slowCallDuration, WrittenRules(s.opening),
           WrittenSchedule(s.openDuration), WrittenRecovery(s.halfOpen), s.permitTTL,
           if s.wait then WaitForProbe(s.maxWait) else RejectExcessProbes,
           !s.delivery.NoObserver?, WrittenDelivery(s.delivery), Finite(s.jitter))
  }

  lemma WrittenParts(s: Settings)
    requires ValidSettings(s)
    ensures NormalizeWindow(WrittenWindow(s.window)) == Ok(s.window)
    ensures NormalizeOpening(WrittenRules(s.opening)) == Ok(s.opening)
    ensures NormalizeOpenDuration(WrittenSchedule(s.openDuration)) == Ok(s.openDuration)
    ensures NormalizeHalfOpen(WrittenRecovery(s.halfOpen)) == Ok(s.halfOpen)
    ensures NormalizeDelivery(!s.delivery.NoObserver?, WrittenDelivery(s.delivery)) == Ok(s.delivery)
  {
    if s.window.ByTime? {
      WindowProduct(s.window.bucketDuration, s.window.bucketCount);
    }
  }

  /** Round trip: normalization accepts every valid setting and changes nothing in it, so with
      NormalizeIsValid `ValidSettings` is exactly the range of normalization. */
  lemma NormalizeWritten(s: Settings)
    requires ValidSettings(s)
    ensures Normalize(Written(s)) == Ok(s)
  {
    WrittenParts(s);
    var config := Written(s);
    assert NormalizeWindow(config.window) == Ok(s.window);
    assert NormalizeOpening(config.opening) == Ok(s.opening);
    assert NormalizeOpenDuration(config.openDuration) == Ok(s.openDuration);
    assert NormalizeHalfOpen(config.halfOpen) == Ok(s.halfOpen);
    assert NormalizeDelivery(config.hasObserver, config.delivery) == Ok(s.delivery);
  }
}
