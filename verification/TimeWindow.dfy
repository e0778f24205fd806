/** The time window (window/time.go): a fixed ring of per-bucket aggregates. */
module TimeWindow {
  import opened Arithmetic
  import opened BucketId
  import opened Window

  /** One record and the (clamped) bucket it was added to. */
  datatype Entry = Entry(bucket: int, record: Record)

  /** The latest bucket ever observed, by an addition or by a snapshot. */
  datatype Progress = Unseen | Seen(bucket: int)

  function Advance(progress: Progress, bucket: int): int {
    if progress.Seen? && bucket <= progress.bucket then progress.bucket else bucket
  }

  // ---------- the list model: keep everything, filter by bucket ----------

  ghost function Selected(history: seq<Entry>, pick: int -> bool): multiset<Record> {
    if history == [] then multiset{}
    else
      var e := history[|history| - 1];
      Selected(history[..|history| - 1], pick) + if pick(e.bucket) then multiset{e.record} else multiset{}
  }

  ghost function Exactly(bucket: int): int -> bool {
    b => b == bucket
  }

  ghost function Within(current: int, count: nat): int -> bool {
    b => current - count < b <= current
  }

  /** The aggregate of every record whose bucket lies in the `count` buckets ending at `current`. */
  ghost function View(history: seq<Entry>, current: int, count: nat): Snapshot {
    Recount(Selected(history, Within(current, count)))
  }

  lemma {:induction false} SelectedSplit(history: seq<Entry>, whole: int -> bool, left: int -> bool, right: int -> bool)
    requires forall e :: e in history ==> whole(e.bucket) == (left(e.bucket) || right(e.bucket))
    requires forall e :: e in history ==> !(left(e.bucket) && right(e.bucket))
    ensures Selected(history, whole) == Selected(history, left) + Selected(history, right)
  {
    if history != [] {
      SelectedSplit(history[..|history| - 1], whole, left, right);
      assert history[|history| - 1] in history;
    }
  }

  lemma {:induction false} SelectedAgree(history: seq<Entry>, p: int -> bool, q: int -> bool)
    requires forall e :: e in history ==> p(e.bucket) == q(e.bucket)
    ensures Selected(history, p) == Selected(history, q)
  {
    if history != [] {
      SelectedAgree(history[..|history| - 1], p, q);
      assert history[|history| - 1] in history;
    }
  }

  lemma {:induction false} SelectedNone(history: seq<Entry>, p: int -> bool)
    requires forall e :: e in history ==> !p(e.bucket)
    ensures Selected(history, p) == multiset{}
  {
    if history != [] {
      SelectedNone(history[..|history| - 1], p);
      assert history[|history| - 1] in history;
    }
  }

  lemma SelectedAppend(history: seq<Entry>, entry: Entry, p: int -> bool)
    ensures Selected(history + [entry], p) ==
            Selected(history, p) + if p(entry.bucket) then multiset{entry.record} else multiset{}
  {
    assert (history + [entry])[..|history|] == history;
  }

  // ---------- the ring ----------

  datatype Bucket = Bucket(id: BucketId, occupied: bool, snapshot: Snapshot)

  const VACANT := Bucket(BucketId(false, 0, 0), false, EMPTY)

  /** Slot i is vacant or aggregates exactly the records of its own bucket, which is congruent to i. */
  ghost predicate SlotOk(ring: seq<Bucket>, history: seq<Entry>, last: int, i: nat)
    requires i < |ring|
  {
    ring[i].occupied ==>
      && Canonical(ring[i].id)
      && Value(ring[i].id) % |ring| == i
      && Value(ring[i].id) <= last
      && ring[i].snapshot == Recount(Selected(history, Exactly(Value(ring[i].id))))
  }

  /** Every record ever added is still in its slot, or the slot has moved on to a later bucket. */
  ghost predicate Placed(ring: seq<Bucket>, bucket: int)
    requires |ring| > 0
  {
    ring[bucket % |ring|].occupied && bucket <= Value(ring[bucket % |ring|].id)
  }

  ghost predicate RingOk(ring: seq<Bucket>, history: seq<Entry>, last: int) {
    && |ring| > 0
    && (forall i :: 0 <= i < |ring| ==> SlotOk(ring, history, last, i))
    && (forall e :: e in history ==> Placed(ring, e.bucket))
  }

  /** A slot that moved on only ever lost records that no horizon ending at or after `last` contains:
      overwritten records are expired for good. */
  lemma OverwrittenIsExpired(ring: seq<Bucket>, history: seq<Entry>, last: int, e: Entry, current: int)
    requires RingOk(ring, history, last) && e in history && last <= current
    requires ring[e.bucket % |ring|].occupied ==> Value(ring[e.bucket % |ring|].id) != e.bucket
    ensures !Within(current, |ring|)(e.bucket)
  {
    assert Placed(ring, e.bucket);
    assert SlotOk(ring, history, last, e.bucket % |ring|);
    SameSlot(e.bucket, Value(ring[e.bucket % |ring|].id), |ring|);
  }

  lemma AdvanceRing(ring: seq<Bucket>, history: seq<Entry>, last: int, current: int)
    requires RingOk(ring, history, last) && last <= current
    ensures RingOk(ring, history, current)
  {
    forall i | 0 <= i < |ring|
      ensures SlotOk(ring, history, current, i)
    {
      assert SlotOk(ring, history, last, i);
    }
  }

  /** The ring after adding to the current bucket, whose slot is cleared first when it still holds an
      older one. */
  ghost function Written(ring: seq<Bucket>, id: BucketId, record: Record): seq<Bucket>
    requires |ring| > 0
  {
    var slot := Value(id) % |ring|;
    ring[slot := Bucket(id, true, Held(ring[slot], id).Add(record))]
  }

  ghost function Held(bucket: Bucket, id: BucketId): Snapshot {
    if bucket.occupied && bucket.id == id then bucket.snapshot else EMPTY
  }

  lemma AddToRing(ring: seq<Bucket>, history: seq<Entry>, id: BucketId, record: Record)
    requires RingOk(ring, history, Value(id)) && Canonical(id)
    ensures RingOk(Written(ring, id, record), history + [Entry(Value(id), record)], Value(id))
  {
    var ring', entry := Written(ring, id, record), Entry(Value(id), record);
    forall i | 0 <= i < |ring'|
      ensures SlotOk(ring', history + [entry], Value(id), i)
    {
      if i == Value(id) % |ring| {
        WrittenSlot(ring, history, id, record);
      } else {
        OtherSlot(ring, history, id, record, i);
      }
    }
    forall e | e in history + [entry]
      ensures Placed(ring', e.bucket)
    {
      if e in history {
        StillPlaced(ring, history, id, record, e);
      }
    }
  }

  lemma WrittenSlot(ring: seq<Bucket>, history: seq<Entry>, id: BucketId, record: Record)
    requires RingOk(ring, history, Value(id)) && Canonical(id)
    ensures SlotOk(Written(ring, id, record), history + [Entry(Value(id), record)], Value(id), Value(id) % |ring|)
  {
    HeldIsRecount(ring, history, id);
    AddRecounts(Selected(history, Exactly(Value(id))), record);
    SelectedAppend(history, Entry(Value(id), record), Exactly(Value(id)));
  }

  lemma OtherSlot(ring: seq<Bucket>, history: seq<Entry>, id: BucketId, record: Record, i: nat)
    requires RingOk(ring, history, Value(id)) && Canonical(id)
    requires i < |ring| && i != Value(id) % |ring|
    ensures SlotOk(Written(ring, id, record), history + [Entry(Value(id), record)], Value(id), i)
  {
    assert SlotOk(ring, history, Value(id), i);
    SelectedAppend(history, Entry(Value(id), record), Exactly(Value(ring[i].id)));
  }

  lemma StillPlaced(ring: seq<Bucket>, history: seq<Entry>, id: BucketId, record: Record, e: Entry)
    requires RingOk(ring, history, Value(id)) && e in history
    ensures Placed(Written(ring, id, record), e.bucket)
  {
    assert Placed(ring, e.bucket);
    assert SlotOk(ring, history, Value(id), e.bucket % |ring|);
  }

  /** What the current slot holds before an addition is the recount of the current bucket. */
  lemma HeldIsRecount(ring: seq<Bucket>, history: seq<Entry>, id: BucketId)
    requires RingOk(ring, history, Value(id)) && Canonical(id)
    ensures Held(ring[Value(id) % |ring|], id) == Recount(Selected(history, Exactly(Value(id))))
  {
    var slot := Value(id) % |ring|;
    assert SlotOk(ring, history, Value(id), slot);
    if ring[slot].occupied && ring[slot].id != id {
      CanonicalEquality(ring[slot].id, id);
    }
    if !(ring[slot].occupied && ring[slot].id == id) {
      forall e | e in history
        ensures !Exactly(Value(id))(e.bucket)
      {
        assert Placed(ring, e.bucket);
      }
      SelectedNone(history, Exactly(Value(id)));
    }
  }

  /** The horizon restricted to the slots below k. */
  ghost function WithinBelow(current: int, count: nat, k: int): int -> bool
    requires count > 0
  {
    b => current - count < b <= current && b % count < k
  }

  /** The recount of what a scan has passed after k slots. */
  ghost function Scanned(history: seq<Entry>, current: int, count: nat, k: int): Snapshot
    requires count > 0
  {
    Recount(Selected(history, WithinBelow(current, count, k)))
  }

  lemma ScanEnds(history: seq<Entry>, current: int, count: nat)
    requires count > 0
    ensures Scanned(history, current, count, 0) == EMPTY
    ensures Scanned(history, current, count, count) == View(history, current, count)
  {
    SelectedNone(history, WithinBelow(current, count, 0));
    SelectedAgree(history, WithinBelow(current, count, count), Within(current, count));
  }

  /** Scanning one more slot merges in exactly the horizon's records that live there. */
  lemma ScanSlot(ring: seq<Bucket>, history: seq<Entry>, current: int, i: nat)
    requires RingOk(ring, history, current) && i < |ring|
    ensures ring[i].occupied ==> Canonical(ring[i].id)
    ensures Scanned(history, current, |ring|, i + 1) ==
            if ring[i].occupied && current - |ring| < Value(ring[i].id) <= current
            then Scanned(history, current, |ring|, i).Merge(ring[i].snapshot)
            else Scanned(history, current, |ring|, i)
  {
    var n := |ring|;
    assert SlotOk(ring, history, current, i);
    forall e | e in history && WithinBelow(current, n, i + 1)(e.bucket) && !WithinBelow(current, n, i)(e.bucket)
      ensures ring[i].occupied && Value(ring[i].id) == e.bucket
    {
      assert Placed(ring, e.bucket);
      if Value(ring[i].id) != e.bucket {
        SameSlot(e.bucket, Value(ring[i].id), n);
      }
    }
    if ring[i].occupied && Within(current, n)(Value(ring[i].id)) {
      var here := Exactly(Value(ring[i].id));
      SelectedSplit(history, WithinBelow(current, n, i + 1), WithinBelow(current, n, i), here);
      MergeRecounts(Selected(history, WithinBelow(current, n, i)), Selected(history, here));
    } else {
      SelectedAgree(history, WithinBelow(current, n, i + 1), WithinBelow(current, n, i));
    }
  }

  /** Whether the scan counts a bucket. */
  predicate Live(bucket: Bucket, oldest: BucketId, current: BucketId)
    requires Canonical(oldest) && Canonical(current) && (bucket.occupied ==> Canonical(bucket.id))
    ensures Live(bucket, oldest, current) ==
            (bucket.occupied && Value(oldest) <= Value(bucket.id) <= Value(current))
  {
    bucket.occupied && Compare(bucket.id, oldest) >= 0 && Compare(bucket.id, current) <= 0
  }

  class Time {
    const duration: Duration
    const buckets: array<Bucket>
    var lastBucketId: BucketId
    var initialized: bool
    /** Every valid record ever added, with its clamped bucket. */
    ghost var history: seq<Entry>

    ghost predicate Valid()
      reads this, buckets
    {
      && 0 < buckets.Length <= MAX_BUCKET_COUNT
      && Canonical(lastBucketId) && lastBucketId.high <= 0x8000_0000_0000_0000
      && (!initialized ==> history == [] && forall i :: 0 <= i < buckets.Length ==> !buckets[i].occupied)
      && RingOk(buckets[..], history, Value(lastBucketId))
    }

    ghost function Observed(): Progress
      reads this
    {
      if initialized then Seen(Value(lastBucketId)) else Unseen
    }

    constructor (duration: Duration, count: nat)
      requires 0 < count <= MAX_BUCKET_COUNT
      ensures Valid() && fresh(buckets)
      ensures this.duration == duration && buckets.Length == count
      ensures history == [] && Observed() == Unseen
    {
      this.duration := duration;
      buckets := new Bucket[count](_ => VACANT);
      lastBucketId, initialized, history := BucketId(false, 0, 0), false, [];
    }

    /** Moves the observed progress forward, never backward. */
    method Observe(at: Instant) returns (id: BucketId)
      requires Valid()
      modifies `lastBucketId, `initialized
      ensures Valid() && initialized && id == lastBucketId
      ensures Observed() == Seen(Advance(old(Observed()), UnixNanos(at) / duration as int))
    {
      id := BucketIdAt(at, duration);
      ghost var last := Value(lastBucketId);
      if !initialized {
        lastBucketId := id;
        initialized := true;
      } else if Compare(id, lastBucketId) == 1 {
        AdvanceRing(buckets[..], history, last, Value(id));
        lastBucketId := id;
      }
      return lastBucketId;
    }

    method Add(at: Instant, record: Record) returns (ok: bool)
      requires Valid()
      modifies this, buckets
      ensures Valid()
      ensures ok == ValidRecord(record)
      ensures ok ==>
                var current := Advance(old(Observed()), UnixNanos(at) / duration as int);
                Observed() == Seen(current) && history == old(history) + [Entry(current, record)]
      ensures !ok ==> Observed() == old(Observed()) && history == old(history) && buckets[..] == old(buckets[..])
    {
      if !ValidRecord(record) {
        return false;
      }
      ok := true;
      var id := Observe(at);
      ghost var ring := buckets[..];
      AddToRing(ring, history, id, record);
      var slot := Index(id, buckets.Length);
      if !buckets[slot].occupied || buckets[slot].id != id {
        buckets[slot] := Bucket(id, true, EMPTY);
      }
      var held := buckets[slot].snapshot;
      buckets[slot] := Bucket(id, true, held.Add(record));
      assert buckets[..] == Written(ring, id, record);
      history := history + [Entry(Value(id), record)];
    }

    /** The ring scan equals the list model, for every sequence of timestamps that led here. */
    method Snapshot(at: Instant) returns (s: Snapshot)
      requires Valid()
      modifies `lastBucketId, `initialized
      ensures Valid()
      ensures Observed() == Seen(Advance(old(Observed()), UnixNanos(at) / duration as int))
      ensures s == View(history, Observed().bucket, buckets.Length)
    {
      var id := Observe(at);
      s := Scan(id);
    }

    /** Merges every bucket of the horizon ending at `current`. */
    method Scan(current: BucketId) returns (s: Snapshot)
      requires Valid() && current == lastBucketId
      ensures s == View(history, Value(current), buckets.Length)
    {
      ghost var last := Value(current);
      var oldest := Subtract(current, (buckets.Length - 1) as UInt64);
      s := EMPTY;
      ScanEnds(history, last, buckets.Length);
      for i := 0 to buckets.Length
        invariant s == Scanned(history, last, buckets.Length, i)
      {
        ScanSlot(buckets[..], history, last, i);
        if Live(buckets[i], oldest, current) {
          s := s.Merge(buckets[i].snapshot);
        }
      }
    }
  }
}
