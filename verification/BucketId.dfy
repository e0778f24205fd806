/** Signed 128-bit bucket identities (window/time.go). The machine integers are newtypes, so every
    plain `+`, `-`, `*` and conversion below carries a proof that it does not wrap; the carries and
    borrows the source wraps on purpose are written out with `%`. */
module BucketId {
  import opened Arithmetic

  const TWO64: int := 0x1_0000_0000_0000_0000
  const NANOS_PER_SECOND: int := 1_000_000_000

  newtype Int64 = x: int | -0x8000_0000_0000_0000 <= x < 0x8000_0000_0000_0000
  newtype UInt64 = x: int | 0 <= x < 0x1_0000_0000_0000_0000
  newtype Nanos = x: int | 0 <= x < 1_000_000_000
  newtype Duration = x: int | 0 < x < 0x8000_0000_0000_0000 witness 1

  /** A timestamp as the standard library reports it: Unix seconds and the nanoseconds within them. */
  datatype Instant = Instant(seconds: Int64, nanos: Nanos)

  function UnixNanos(at: Instant): int {
    at.seconds as int * NANOS_PER_SECOND + at.nanos as int
  }

  datatype BucketId = BucketId(negative: bool, high: UInt64, low: UInt64)

  function Magnitude(high: UInt64, low: UInt64): nat {
    high as int * TWO64 + low as int
  }

  /** The integer an identity denotes. */
  function Value(id: BucketId): int {
    var m: int := Magnitude(id.high, id.low);
    if id.negative then -m else m
  }

  /** No negative zero. */
  predicate Canonical(id: BucketId) {
    id.negative ==> id.high != 0 || id.low != 0
  }

  /** On canonical identities structural equality is integer equality. */
  lemma CanonicalEquality(a: BucketId, b: BucketId)
    requires Canonical(a) && Canonical(b)
    ensures a == b <==> Value(a) == Value(b)
  {
  }

  // ---------- machine primitives (math/bits) ----------

  function Add64(x: UInt64, y: UInt64): (r: (UInt64, UInt64))
    ensures r.0 as int + r.1 as int * TWO64 == x as int + y as int && r.1 <= 1
  {
    var sum := x as int + y as int;
    ((sum % TWO64) as UInt64, if sum >= TWO64 then 1 else 0)
  }

  function Sub64(x: UInt64, y: UInt64): (r: (UInt64, UInt64))
    ensures r.0 as int - r.1 as int * TWO64 == x as int - y as int && r.1 <= 1
  {
    ((((x as int - y as int) + TWO64) % TWO64) as UInt64, if x < y then 1 else 0)
  }

  function Mul64(x: UInt64, y: UInt64): (r: (UInt64, UInt64))
    ensures Magnitude(r.0, r.1) == x as int * y as int
  {
    var product := x as int * y as int;
    assert 0 <= product by { ProductBound(x as int, y as int); }
    assert product / TWO64 < TWO64 by { ProductBound(x as int, y as int); }
    ((product / TWO64) as UInt64, (product % TWO64) as UInt64)
  }

  lemma ProductBound(x: int, y: int)
    requires 0 <= x < TWO64 && 0 <= y < TWO64
    ensures 0 <= x * y <= TWO64 * (TWO64 - 1)
  {
    MultiplyMonotone(0, x, y);
    MultiplyMonotone(x, TWO64 - 1, y);
  }

  /** 128-by-64 division; the source panics when the divisor is zero or the quotient overflows. */
  function Div64(high: UInt64, low: UInt64, divisor: UInt64): (r: (UInt64, UInt64))
    requires high < divisor
    ensures Magnitude(high, low) == r.0 as int * divisor as int + r.1 as int && r.1 < divisor
  {
    var n, d := Magnitude(high, low), divisor as int;
    DivisionEquation(n, d);
    assert n / d < TWO64 by { QuotientFits(high as int, low as int, d); }
    assert 0 <= n / d;
    ((n / d) as UInt64, (n % d) as UInt64)
  }

  lemma QuotientFits(high: int, low: int, d: int)
    requires 0 <= high < d && 0 <= low < TWO64
    ensures (high * TWO64 + low) / d < TWO64
  {
    var n := high * TWO64 + low;
    DivisionEquation(n, d);
    Distribute(n / d, TWO64, d);
    assert n < d * TWO64;
    MultipleBound(n / d - TWO64 + 1, d);
    Distribute(n / d - TWO64, 1, d);
  }

  // ---------- 128-bit helpers ----------

  function Add128(high: UInt64, low: UInt64, value: UInt64): (r: (UInt64, UInt64))
    requires high < 0xFFFF_FFFF_FFFF_FFFF
    ensures Magnitude(r.0, r.1) == Magnitude(high, low) + value as int
  {
    var (sum, carry) := Add64(low, value);
    (high + carry, sum)
  }

  function Subtract128(high: UInt64, low: UInt64, value: UInt64): (r: (UInt64, UInt64))
    requires value as int <= Magnitude(high, low)
    ensures Magnitude(r.0, r.1) == Magnitude(high, low) - value as int
  {
    var (difference, borrow) := Sub64(low, value);
    (high - borrow, difference)
  }

  /** Long division of a 128-bit magnitude, one 64-bit digit at a time. */
  function DivideMagnitude(high: UInt64, low: UInt64, divisor: UInt64): (r: (UInt64, UInt64, UInt64))
    requires divisor > 0
    ensures Magnitude(high, low) == Magnitude(r.0, r.1) * divisor as int + r.2 as int && r.2 < divisor
    ensures r.0 <= high
  {
    var d := divisor as int;
    DivisionEquation(high as int, d);
    var quotientHigh := high / divisor;
    QuotientBounds(high as int, d);
    var (quotientLow, remainder) := Div64(high % divisor, low, divisor);
    LongDivision(high as int, low as int, d, quotientHigh as int, (high % divisor) as int,
                 quotientLow as int, remainder as int);
    (quotientHigh, quotientLow, remainder)
  }

  lemma LongDivision(high: int, low: int, d: int, qh: int, rh: int, ql: int, r: int)
    requires high == qh * d + rh
    requires rh * TWO64 + low == ql * d + r
    ensures high * TWO64 + low == (qh * TWO64 + ql) * d + r
  {
    Distribute(qh * TWO64, ql, d);
    assert (qh * TWO64) * d == (qh * d) * TWO64;
  }

  // ---------- identities ----------

  function FromInt64(value: Int64): (id: BucketId)
    ensures Value(id) == value as int && Canonical(id) && id.high == 0
  {
    if value >= 0 then BucketId(false, 0, value as UInt64)
    else BucketId(true, 0, (-(value + 1)) as UInt64 + 1)
  }

  /** Nanoseconds since the epoch when they fit an int64. */
  function ExactUnixNanoseconds(at: Instant): (r: (Int64, bool))
    ensures r.1 <==> -0x8000_0000_0000_0000 <= UnixNanos(at) < 0x8000_0000_0000_0000
    ensures r.1 ==> r.0 as int == UnixNanos(at)
  {
    if at.seconds < -9_223_372_037 || at.seconds > 9_223_372_036 then (0, false)
    else if at.seconds == -9_223_372_037 then
      if at.nanos < 145_224_192 then (0, false)
      else (-0x8000_0000_0000_0000 + (at.nanos - 145_224_192) as Int64, true)
    else if at.seconds == 9_223_372_036 then
      if at.nanos > 854_775_807 then (0, false)
      else (0x7FFF_FFFF_FFFF_FFFF - (854_775_807 - at.nanos) as Int64, true)
    else (at.seconds * 1_000_000_000 + at.nanos as Int64, true)
  }

  /** Division toward zero, as the source's `/` on signed integers, with its remainder. */
  function Truncated(n: int, d: int): (r: (int, int))
    requires d > 0
    ensures n == r.0 * d + r.1 && -d < r.1 < d
    ensures n >= 0 ==> r.1 >= 0
    ensures n < 0 ==> r.1 <= 0
  {
    if n >= 0 then
      DivisionEquation(n, d);
      (n / d, n % d)
    else
      DivisionEquation(-n, d);
      (-(-n / d), -(-n % d))
  }

  lemma TruncatedFits(n: int, d: int)
    requires d > 0 && -0x8000_0000_0000_0000 <= n < 0x8000_0000_0000_0000
    ensures -0x8000_0000_0000_0000 <= Truncated(n, d).0 < 0x8000_0000_0000_0000
    ensures n < 0 && Truncated(n, d).1 != 0 ==> -0x8000_0000_0000_0000 < Truncated(n, d).0
  {
    var (q, r) := Truncated(n, d);
    if n >= 0 {
      QuotientBounds(n, d);
    } else {
      QuotientBounds(-n, d);
      MultiplyMonotone(1, d, -q);
      assert d * -q == -(q * d);
    }
  }

  /** The fast path: truncate, then step down once below the epoch. */
  function NarrowId(nanoseconds: Int64, duration: Duration): (id: BucketId)
    ensures Canonical(id) && id.high == 0
    ensures Value(id) == nanoseconds as int / duration as int
  {
    var n, d := nanoseconds as int, duration as int;
    TruncatedFits(n, d);
    var (bucket, remainder) := Truncated(n, d);
    var floor := if n < 0 && remainder != 0 then bucket - 1 else bucket;
    FloorOf(n, d, bucket, remainder);
    FromInt64(floor as Int64)
  }

  lemma FloorOf(n: int, d: int, bucket: int, remainder: int)
    requires d > 0 && n == bucket * d + remainder && -d < remainder < d
    requires n >= 0 ==> remainder >= 0
    requires n < 0 ==> remainder <= 0
    ensures n / d == if n < 0 && remainder != 0 then bucket - 1 else bucket
  {
    if n < 0 && remainder != 0 {
      Distribute(bucket, 1, d);
      Quotient(n, d, bucket - 1, remainder + d);
    } else {
      Quotient(n, d, bucket, remainder);
    }
  }

  /** |seconds| without overflowing on the least int64. */
  function MagnitudeSeconds(seconds: Int64): (m: UInt64)
    ensures m as int == if seconds < 0 then -(seconds as int) else seconds as int
  {
    if seconds < 0 then (-(seconds + 1)) as UInt64 + 1 else seconds as UInt64
  }

  /** Sign and magnitude of a wide timestamp in nanoseconds. */
  function WideMagnitude(at: Instant): (r: (UInt64, UInt64))
    requires !ExactUnixNanoseconds(at).1
    ensures Magnitude(r.0, r.1) == if at.seconds < 0 then -UnixNanos(at) else UnixNanos(at)
    ensures Magnitude(r.0, r.1) >= 0x8000_0000_0000_0000
    ensures r.0 < 0x8000_0000_0000_0000
  {
    var seconds := MagnitudeSeconds(at.seconds);
    var (high, low) := Mul64(seconds, 1_000_000_000);
    if at.seconds < 0 then Subtract128(high, low, at.nanos as UInt64)
    else Add128(high, low, at.nanos as UInt64)
  }

  function WideId(at: Instant, duration: Duration): (id: BucketId)
    requires !ExactUnixNanoseconds(at).1
    ensures Canonical(id) && id.high <= 0x8000_0000_0000_0000
    ensures Value(id) == UnixNanos(at) / duration as int
  {
    var negative := at.seconds < 0;
    var (high, low) := WideMagnitude(at);
    var divisor := duration as UInt64;
    var (quotientHigh, quotientLow, remainder) := DivideMagnitude(high, low, divisor);
    var m, q := Magnitude(high, low), Magnitude(quotientHigh, quotientLow);
    WideFloor(UnixNanos(at), divisor as int, m, q, remainder as int, negative);
    if negative && remainder != 0 then
      var (roundedHigh, roundedLow) := Add128(quotientHigh, quotientLow, 1);
      BucketId(negative, roundedHigh, roundedLow)
    else BucketId(negative, quotientHigh, quotientLow)
  }

  lemma WideFloor(n: int, d: int, m: int, q: int, r: int, negative: bool)
    requires 0 < d <= m && m == q * d + r && 0 <= r < d
    requires n == if negative then -m else m
    ensures q > 0
    ensures n / d == if negative then (if r != 0 then -(q + 1) else -q) else q
  {
    MultipleBound(q, d);
    assert q != 0;
    if !negative {
      Quotient(n, d, q, r);
    } else if r == 0 {
      assert (-q) * d == -(q * d);
      Quotient(n, d, -q, 0);
    } else {
      Distribute(-q, 1, d);
      assert (-q) * d == -(q * d);
      Quotient(n, d, -q - 1, d - r);
    }
  }

  /** The identity of the bucket containing `at`: the exact floor, on both paths, for every timestamp
      and every positive bucket duration. */
  function BucketIdAt(at: Instant, duration: Duration): (id: BucketId)
    ensures Canonical(id) && id.high <= 0x8000_0000_0000_0000
    ensures Value(id) == UnixNanos(at) / duration as int
  {
    var (nanoseconds, exact) := ExactUnixNanoseconds(at);
    if exact then NarrowId(nanoseconds, duration) else WideId(at, duration)
  }

  function CompareMagnitude(a: BucketId, b: BucketId): int {
    if a.high < b.high || (a.high == b.high && a.low < b.low) then -1
    else if a.high > b.high || (a.high == b.high && a.low > b.low) then 1
    else 0
  }

  /** Signed comparison agrees with the order of the integers denoted. */
  function Compare(a: BucketId, b: BucketId): (c: int)
    requires Canonical(a) && Canonical(b)
    ensures c == if Value(a) < Value(b) then -1 else if Value(a) > Value(b) then 1 else 0
  {
    if a.negative != b.negative then (if a.negative then -1 else 1)
    else if a.negative then -CompareMagnitude(a, b)
    else CompareMagnitude(a, b)
  }

  /** Subtraction crosses zero into negative identities without ever producing a negative zero. */
  function Subtract(id: BucketId, value: UInt64): (r: BucketId)
    requires Canonical(id) && id.high < 0xFFFF_FFFF_FFFF_FFFF
    ensures Canonical(r) && Value(r) == Value(id) - value as int
  {
    if id.negative then
      var (low, carry) := Add64(id.low, value);
      BucketId(true, id.high + carry, low)
    else if id.high == 0 && id.low < value then BucketId(true, 0, value - id.low)
    else
      var (low, borrow) := Sub64(id.low, value);
      BucketId(false, id.high - borrow, low)
  }

  /** The ring slot of an identity: its Euclidean remainder, also for negative identities. */
  function Index(id: BucketId, buckets: nat): (slot: nat)
    requires Canonical(id) && 0 < buckets < TWO64
    ensures slot == Value(id) % buckets && slot < buckets
  {
    var divisor := buckets as UInt64;
    var (quotientHigh, quotientLow, remainder) := DivideMagnitude(id.high, id.low, divisor);
    SignedRemainder(Magnitude(id.high, id.low), buckets, Magnitude(quotientHigh, quotientLow), remainder as int);
    if id.negative && remainder != 0 then (divisor - remainder) as int else remainder as int
  }

  lemma SignedRemainder(m: int, d: int, q: int, r: int)
    requires d > 0 && m == q * d + r && 0 <= r < d
    ensures m % d == r
    ensures -m % d == if r != 0 then d - r else 0
  {
    Quotient(m, d, q, r);
    assert (-q) * d == -(q * d);
    if r == 0 {
      Quotient(-m, d, -q, 0);
    } else {
      Distribute(-q, 1, d);
      Quotient(-m, d, -q - 1, d - r);
    }
  }

  /** Two identities inside one horizon never share a slot; two that share one are a horizon apart. */
  lemma HorizonSlots(a: BucketId, b: BucketId, buckets: nat)
    requires Canonical(a) && Canonical(b) && 0 < buckets < TWO64
    requires a != b
    ensures Index(a, buckets) == Index(b, buckets) ==>
              Value(a) + buckets <= Value(b) || Value(b) + buckets <= Value(a)
  {
    CanonicalEquality(a, b);
    if Index(a, buckets) == Index(b, buckets) {
      if Value(a) < Value(b) {
        SameSlot(Value(a), Value(b), buckets);
      } else {
        SameSlot(Value(b), Value(a), buckets);
      }
    }
  }
}
