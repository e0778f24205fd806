/** Outcome records and their aggregates (window/window.go). */
module Window {

  const MAX_COUNT_SIZE: nat := 0x10_0000
  const MAX_BUCKET_COUNT: nat := 0x1_0000

  /** The classification of one completion. The breaker's outcomes and the window's classes share
      one numbering, so they share this type; any other number is Unknown. */
  datatype Outcome = Success | Failure | Ignored | Unknown(code: nat)

  datatype Record = Record(outcome: Outcome, slow: bool)

  predicate ValidRecord(record: Record) {
    !record.outcome.Unknown?
  }

  predicate IsClassified(record: Record) {
    record.outcome.Success? || record.outcome.Failure?
  }

  /** Aggregate counters. `Add` and `Remove` are the in-place updates of the source; the counters are
      unsigned there, so `Remove` demands that nothing underflows. */
  datatype Snapshot = Snapshot(classified: nat, successes: nat, failures: nat, ignored: nat,
                               slowSuccess: nat, slowFailure: nat)
  {
    function Add(record: Record): Snapshot {
      match record.outcome
      case Success =>
        this.(classified := classified + 1, successes := successes + 1,
              slowSuccess := if record.slow then slowSuccess + 1 else slowSuccess)
      case Failure =>
        this.(classified := classified + 1, failures := failures + 1,
              slowFailure := if record.slow then slowFailure + 1 else slowFailure)
      case Ignored => this.(ignored := ignored + 1)
      case Unknown(_) => this
    }

    predicate Holds(record: Record) {
      match record.outcome
      case Success => classified > 0 && successes > 0 && (record.slow ==> slowSuccess > 0)
      case Failure => classified > 0 && failures > 0 && (record.slow ==> slowFailure > 0)
      case _ => true
    }

    function Remove(record: Record): Snapshot
      requires Holds(record)
    {
      match record.outcome
      case Success =>
        this.(classified := classified - 1, successes := successes - 1,
              slowSuccess := if record.slow then slowSuccess - 1 else slowSuccess)
      case Failure =>
        this.(classified := classified - 1, failures := failures - 1,
              slowFailure := if record.slow then slowFailure - 1 else slowFailure)
      case _ => this
    }

    function Merge(source: Snapshot): Snapshot {
      Snapshot(classified + source.classified, successes + source.successes, failures + source.failures,
               ignored + source.ignored, slowSuccess + source.slowSuccess, slowFailure + source.slowFailure)
    }

    /** Slow calls of either class. */
    function Slow(): nat {
      slowSuccess + slowFailure
    }
  }

  const EMPTY := Snapshot(0, 0, 0, 0, 0, 0)

  /** How many records of one class, slow or not, a bag holds. */
  ghost function OfClass(bag: multiset<Record>, outcome: Outcome): nat {
    bag[Record(outcome, false)] + bag[Record(outcome, true)]
  }

  /** The reference aggregate: a recount of a bag of records that owes nothing to Add or Remove. */
  ghost function Recount(bag: multiset<Record>): Snapshot {
    Snapshot(OfClass(bag, Success) + OfClass(bag, Failure), OfClass(bag, Success), OfClass(bag, Failure),
             OfClass(bag, Ignored), bag[Record(Success, true)], bag[Record(Failure, true)])
  }

  /** Adding a record to the aggregate is adding it to the bag; removing it takes it back out, and the
      aggregate of a bag that holds a record can never underflow on that record. */
  lemma AddRecounts(bag: multiset<Record>, record: Record)
    ensures Recount(bag).Add(record) == Recount(bag + multiset{record})
    ensures Recount(bag + multiset{record}).Holds(record)
    ensures IsClassified(record) ==> Recount(bag + multiset{record}).Remove(record) == Recount(bag)
  {
    var more := bag + multiset{record};
    forall outcome: Outcome, slow: bool
      ensures more[Record(outcome, slow)] == bag[Record(outcome, slow)] + if record == Record(outcome, slow) then 1 else 0
    {
    }
    assert record.slow || !record.slow;
    assert record == Record(record.outcome, record.slow);
  }

  lemma OfClassAdds(left: multiset<Record>, right: multiset<Record>, outcome: Outcome)
    ensures OfClass(left + right, outcome) == OfClass(left, outcome) + OfClass(right, outcome)
    ensures (left + right)[Record(outcome, true)] == left[Record(outcome, true)] + right[Record(outcome, true)]
  {
  }

  lemma MergeRecounts(left: multiset<Record>, right: multiset<Record>)
    ensures Recount(left).Merge(Recount(right)) == Recount(left + right)
  {
    hide OfClass;
    OfClassAdds(left, right, Success);
    OfClassAdds(left, right, Failure);
    OfClassAdds(left, right, Ignored);
  }
}
