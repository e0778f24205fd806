/** The count window (window/count.go): a ring of the most recent classified records. */
module CountWindow {
  import opened Arithmetic
  import opened Window

  /** The records that count as evidence, oldest first. */
  function Classified(history: seq<Record>): seq<Record> {
    if history == [] then []
    else
      var rest := Classified(history[..|history| - 1]);
      if IsClassified(history[|history| - 1]) then rest + [history[|history| - 1]] else rest
  }

  function LastN(s: seq<Record>, n: nat): seq<Record> {
    if |s| <= n then s else s[|s| - n..]
  }

  /** The list model: recount the last `size` classified records; ignored ones only accumulate. */
  ghost function View(history: seq<Record>, size: nat): Snapshot {
    Kept(multiset(LastN(Classified(history), size)), OfClass(multiset(history), Ignored))
  }

  ghost function Kept(bag: multiset<Record>, ignored: nat): Snapshot {
    Recount(bag).(ignored := ignored)
  }

  lemma KeptMoves(bag: multiset<Record>, ignored: nat, record: Record)
    requires IsClassified(record)
    ensures Kept(bag, ignored).Add(record) == Kept(bag + multiset{record}, ignored)
    ensures Kept(bag + multiset{record}, ignored).Holds(record)
    ensures Kept(bag + multiset{record}, ignored).Remove(record) == Kept(bag, ignored)
  {
    AddRecounts(bag, record);
    IgnoredAside(Recount(bag), ignored, record);
    IgnoredAside(Recount(bag + multiset{record}), ignored, record);
  }

  lemma IgnoredAside(s: Snapshot, ignored: nat, record: Record)
    requires IsClassified(record)
    ensures s.(ignored := ignored).Add(record) == s.Add(record).(ignored := ignored)
    ensures s.(ignored := ignored).Holds(record) == s.Holds(record)
    ensures s.Holds(record) ==>
              s.(ignored := ignored).Remove(record) == s.Remove(record).(ignored := ignored)
  {
  }

  lemma {:induction false} ClassifiedOnly(history: seq<Record>)
    ensures forall r :: r in Classified(history) ==> IsClassified(r)
    ensures |Classified(history)| <= |history|
  {
    if history != [] {
      ClassifiedOnly(history[..|history| - 1]);
    }
  }

  lemma {:induction false} ClassifiedAppend(history: seq<Record>, record: Record)
    ensures Classified(history + [record]) ==
            if IsClassified(record) then Classified(history) + [record] else Classified(history)
  {
    assert (history + [record])[..|history|] == history;
  }

  /** The ring holds the most recent of `classified`, position j in slot j modulo its size. */
  ghost predicate InRing(ring: seq<Record>, classified: seq<Record>)
    requires |ring| > 0
  {
    forall j :: 0 <= j < |classified| && |classified| - |ring| <= j ==> ring[j % |ring|] == classified[j]
  }

  /** Writing one record at the next slot evicts exactly the oldest retained one. */
  lemma WriteRing(ring: seq<Record>, classified: seq<Record>, record: Record)
    requires |ring| > 0 && InRing(ring, classified)
    ensures InRing(ring[|classified| % |ring| := record], classified + [record])
    ensures |classified| >= |ring| ==> ring[|classified| % |ring|] == classified[|classified| - |ring|]
    ensures (|classified| % |ring| + 1) % |ring| == |classified + [record]| % |ring|
  {
    var n, size := |classified|, |ring|;
    NextSlot(n, size);
    PreviousLap(n, size);
    forall j | 0 <= j < n && n + 1 - size <= j
      ensures ring[n % size := record][j % size] == classified[j]
    {
      SlotsDistinct(j, n, size);
    }
  }

  class Count {
    const records: array<Record>
    var next: nat
    var length: nat
    var snapshot: Snapshot
    /** Every valid record ever added. */
    ghost var history: seq<Record>

    ghost predicate Valid()
      reads this, records
    {
      var classified := Classified(history);
      && 0 < records.Length <= MAX_COUNT_SIZE
      && length == (if |classified| <= records.Length then |classified| else records.Length)
      && next == |classified| % records.Length
      && InRing(records[..], classified)
      && snapshot == View(history, records.Length)
    }

    /** window/count.go:17-26 rejects other sizes; configuration never passes one on. */
    constructor (size: nat)
      requires 0 < size <= MAX_COUNT_SIZE
      ensures Valid() && fresh(records)
      ensures records.Length == size && history == []
    {
      records := new Record[size](_ => Record(Success, false));
      next, length, snapshot, history := 0, 0, EMPTY, [];
    }

    /** Adds one record. The incremental aggregate stays the recount of the list model, and the
        eviction never underflows a counter. */
    method Add(record: Record) returns (ok: bool)
      requires Valid()
      modifies this, records
      ensures Valid()
      ensures ok == ValidRecord(record)
      ensures history == if ok then old(history) + [record] else old(history)
      ensures !ok ==> next == old(next) && length == old(length) && snapshot == old(snapshot)
                      && records[..] == old(records[..])
    {
      if !ValidRecord(record) {
        return false;
      }
      ok := true;
      if record.outcome == Ignored {
        AddIgnored(history, record, records.Length);
        ClassifiedAppend(history, record);
        snapshot := snapshot.Add(record);
        history := history + [record];
      } else {
        Push(record);
      }
    }

    /** The classified path of Add: evict when full, write the next slot, count the record. */
    method Push(record: Record)
      requires Valid() && IsClassified(record)
      modifies this, records
      ensures Valid() && history == old(history) + [record]
    {
      hide View, Classified, InRing;
      ClassifiedAppend(history, record);
      AddClassified(history, record, records.Length);
      ghost var c := Classified(history);
      WriteRing(records[..], c, record);
      if length == records.Length {
        assert |c| >= records.Length;
        snapshot := snapshot.Remove(records[next]);
      } else {
        length := length + 1;
      }
      Store(record, c);
      snapshot := snapshot.Add(record);
      history := history + [record];
    }

    method Store(record: Record, ghost c: seq<Record>)
      requires records.Length > 0 && next == |c| % records.Length && InRing(records[..], c)
      modifies records, `next
      ensures next == |c + [record]| % records.Length && InRing(records[..], c + [record])
    {
      WriteRing(records[..], c, record);
      ghost var written := records[..][next := record];
      records[next] := record;
      assert records[..] == written;
      next := (next + 1) % records.Length;
    }

    method Snapshot() returns (s: Snapshot)
      requires Valid()
      ensures s == View(history, records.Length)
    {
      s := snapshot;
    }
  }

  lemma AddIgnored(history: seq<Record>, record: Record, size: nat)
    requires record.outcome.Ignored?
    ensures View(history, size).Add(record) == View(history + [record], size)
  {
    ClassifiedAppend(history, record);
    AddRecounts(multiset(history), record);
    assert multiset(history + [record]) == multiset(history) + multiset{record};
  }

  lemma IgnoredUnmoved(history: seq<Record>, record: Record)
    requires IsClassified(record)
    ensures OfClass(multiset(history + [record]), Ignored) == OfClass(multiset(history), Ignored)
  {
    assert multiset(history + [record]) == multiset(history) + multiset{record};
  }

  lemma KeptAppend(c: seq<Record>, record: Record, size: nat)
    requires size > 0
    ensures multiset(LastN(c + [record], size)) ==
            multiset(if |c| < size then c else c[|c| - size + 1..]) + multiset{record}
    ensures |c| >= size ==>
              multiset(LastN(c, size)) == multiset(c[|c| - size + 1..]) + multiset{c[|c| - size]}
  {
    if |c| < size {
      assert LastN(c + [record], size) == c + [record];
    } else {
      var rest := c[|c| - size + 1..];
      assert LastN(c + [record], size) == rest + [record];
      assert c[|c| - size..] == [c[|c| - size]] + rest;
    }
  }

  /** One classified record moves the list model by exactly one eviction (when full) and one addition. */
  lemma AddClassified(history: seq<Record>, record: Record, size: nat)
    requires IsClassified(record) && size > 0
    ensures var c, view := Classified(history), View(history, size);
            if |c| < size then view.Add(record) == View(history + [record], size)
            else view.Holds(c[|c| - size])
                 && view.Remove(c[|c| - size]).Add(record) == View(history + [record], size)
  {
    var c := Classified(history);
    var ignored := OfClass(multiset(history), Ignored);
    ClassifiedAppend(history, record);
    IgnoredUnmoved(history, record);
    KeptAppend(c, record, size);
    if |c| < size {
      KeptMoves(multiset(c), ignored, record);
    } else {
      var oldest, rest := c[|c| - size], multiset(c[|c| - size + 1..]);
      assert IsClassified(oldest) by {
        ClassifiedOnly(history);
      }
      KeptMoves(rest, ignored, oldest);
      KeptMoves(rest, ignored, record);
      assert View(history, size).Remove(oldest) == Kept(rest, ignored);
    }
  }
}
