/** The manually driven clock (breakertest/clock.go): one slice of pending timers, sorted and compacted
    in place, with one-slot channels. */
module ManualClock {

  class Timer {
    const deadline: int
    /** The buffered channel: at most one notification. */
    var channel: seq<int>
    var stopped: bool
    var fired: bool
    /** Place in the order of registration, and how often the channel was ever sent to. */
    ghost const id: nat
    ghost var sends: nat

    constructor (deadline: int, ghost id: nat)
      ensures this.deadline == deadline && this.id == id && Fresh()
    {
      this.deadline, this.id := deadline, id;
      channel, stopped, fired, sends := [], false, false, 0;
    }

    ghost predicate Fresh()
      reads this
    {
      channel == [] && !stopped && !fired && sends == 0
    }

    /** A timer is sent to exactly when it fires, once, and never both fires and stops. */
    ghost predicate Valid()
      reads this
    {
      && sends == (if fired then 1 else 0)
      && |channel| <= sends
      && (channel != [] ==> channel == [deadline])
      && !(fired && stopped)
    }

    /** The one send: the slot of a pending timer is always free, so it never blocks. */
    method Fire(ghost sent: seq<Timer>) returns (ghost more: seq<Timer>)
      requires Valid() && !fired && !stopped
      modifies this
      ensures Valid() && fired && !stopped && channel == [deadline] && sends == old(sends) + 1
      ensures more == sent + [this]
    {
      assert channel == [];
      fired := true;
      channel := channel + [deadline];
      sends := sends + 1;
      more := sent + [this];
    }

    /** A receive on C by whoever waits for the timer. */
    method Receive() returns (notified: bool)
      requires Valid()
      modifies `channel
      ensures Valid() && channel == [] && notified == (old(channel) != [])
    {
      notified := channel != [];
      channel := [];
    }
  }

  // ---------- lists of timers ----------

  predicate NonNull(list: seq<Timer?>) {
    forall i :: 0 <= i < |list| ==> list[i] != null
  }

  /** Earlier by deadline, ties by registration. */
  ghost predicate Before(a: Timer, b: Timer) {
    a.deadline < b.deadline || (a.deadline == b.deadline && a.id < b.id)
  }

  /** Ties stand in registration order; in particular nobody stands in the list twice. */
  ghost predicate Stable(list: seq<Timer?>)
    requires NonNull(list)
  {
    && (forall i, j :: 0 <= i < j < |list| ==> list[i] != list[j])
    && (forall i, j :: 0 <= i < j < |list| && list[i].deadline == list[j].deadline ==> list[i].id < list[j].id)
  }

  ghost predicate SortedByDeadline(list: seq<Timer?>)
    requires NonNull(list)
  {
    forall i, j :: 0 <= i < j < |list| ==> list[i].deadline <= list[j].deadline
  }

  /** The timers not yet due, in order. */
  ghost function Survivors(list: seq<Timer?>, at: int): seq<Timer?>
    requires NonNull(list)
  {
    if list == [] then []
    else
      var rest := Survivors(list[..|list| - 1], at);
      if list[|list| - 1].deadline <= at then rest else rest + [list[|list| - 1]]
  }

  lemma {:induction false} SurvivorsAre(list: seq<Timer?>, at: int)
    requires NonNull(list)
    ensures NonNull(Survivors(list, at)) && |Survivors(list, at)| <= |list|
    ensures forall i :: 0 <= i < |Survivors(list, at)| ==> Survivors(list, at)[i] in list && at < Survivors(list, at)[i].deadline
    ensures forall i :: 0 <= i < |list| && at < list[i].deadline ==> list[i] in Survivors(list, at)
  {
    if list != [] {
      var init, last := list[..|list| - 1], list[|list| - 1];
      SurvivorsAre(init, at);
      assert list == init + [last];
    }
  }

  lemma {:induction false} SurvivorsStable(list: seq<Timer?>, at: int)
    requires NonNull(list) && Stable(list)
    ensures NonNull(Survivors(list, at)) && Stable(Survivors(list, at))
  {
    SurvivorsAre(list, at);
    if list != [] {
      var init, last := list[..|list| - 1], list[|list| - 1];
      assert list == init + [last];
      StablePrefix(init, last);
      SurvivorsStable(init, at);
      SurvivorsAre(init, at);
      StableAppend(init, Survivors(init, at), last);
    }
  }

  lemma {:induction false} SurvivorsSorted(list: seq<Timer?>, at: int)
    requires NonNull(list) && SortedByDeadline(list)
    ensures NonNull(Survivors(list, at)) && SortedByDeadline(Survivors(list, at))
  {
    SurvivorsAre(list, at);
    if list != [] {
      var init, last := list[..|list| - 1], list[|list| - 1];
      assert list == init + [last];
      SortedPrefix(init, last);
      SurvivorsSorted(init, at);
      SurvivorsAre(init, at);
      SortedAppend(init, Survivors(init, at), last);
    }
  }

  lemma StablePrefix(init: seq<Timer?>, last: Timer?)
    requires last != null && NonNull(init + [last]) && Stable(init + [last])
    ensures NonNull(init) && Stable(init)
    ensures forall t: Timer? :: t in init ==> t != null && t != last && (t.deadline == last.deadline ==> t.id < last.id)
  {
    var list := init + [last];
    assert list[|init|] == last;
    assert forall i :: 0 <= i < |init| ==> list[i] == init[i];
  }

  lemma StableAppend(init: seq<Timer?>, s: seq<Timer?>, last: Timer?)
    requires last != null && NonNull(s) && Stable(s) && forall i :: 0 <= i < |s| ==> s[i] in init
    requires forall t: Timer? :: t in init ==> t != null && t != last && (t.deadline == last.deadline ==> t.id < last.id)
    ensures Stable(s + [last])
  {
  }

  lemma SortedPrefix(init: seq<Timer?>, last: Timer?)
    requires last != null && NonNull(init + [last]) && SortedByDeadline(init + [last])
    ensures NonNull(init) && SortedByDeadline(init)
    ensures forall t: Timer? :: t in init ==> t != null && t.deadline <= last.deadline
  {
    var list := init + [last];
    assert list[|init|] == last;
    assert forall i :: 0 <= i < |init| ==> list[i] == init[i];
  }

  lemma SortedAppend(init: seq<Timer?>, s: seq<Timer?>, last: Timer?)
    requires last != null && NonNull(s) && SortedByDeadline(s) && forall i :: 0 <= i < |s| ==> s[i] in init
    requires forall t: Timer? :: t in init ==> t != null && t.deadline <= last.deadline
    ensures SortedByDeadline(s + [last])
  {
  }

  /** Strictly ordered by (deadline, registration). */
  ghost predicate Ordered(list: seq<Timer?>)
    requires NonNull(list)
  {
    forall i, j :: 0 <= i < j < |list| ==> Before(list[i], list[j])
  }

  lemma SortedStable(list: seq<Timer?>)
    requires NonNull(list) && Stable(list) && SortedByDeadline(list)
    ensures Ordered(list)
  {
  }

  /** An ordered list of exactly the given timers. */
  ghost predicate Lists(list: seq<Timer?>, timers: seq<Timer?>) {
    NonNull(list) && Ordered(list) && (forall t :: t in list ==> t in timers) && (forall t :: t in timers ==> t in list)
  }

  /** There is only one. */
  lemma {:induction false} OrderDetermines(a: seq<Timer?>, b: seq<Timer?>)
    requires NonNull(b) && Ordered(b) && Lists(a, b)
    ensures a == b
  {
    assert a != [] ==> a[0] in b;
    assert b != [] ==> b[0] in a;
    if a != [] && b != [] {
      var i :| 0 <= i < |b| && b[i] == a[0];
      var j :| 0 <= j < |a| && a[j] == b[0];
      OrderedTail(a);
      OrderedTail(b);
      OrderDetermines(a[1..], b[1..]);
    }
  }

  /** The head of an ordered list stands nowhere else in it. */
  lemma OrderedTail(list: seq<Timer?>)
    requires list != [] && NonNull(list) && Ordered(list)
    ensures NonNull(list[1..]) && Ordered(list[1..])
    ensures forall t :: t in list[1..] <==> t in list && t != list[0]
  {
    assert list == [list[0]] + list[1..];
    forall i | 0 <= i < |list[1..]|
      ensures list[1..][i] != list[0]
    {
      assert Before(list[0], list[i + 1]);
    }
  }

  lemma SwapKeeps(list: seq<Timer?>, j: nat)
    requires NonNull(list) && Stable(list) && 0 < j < |list| && list[j].deadline < list[j - 1].deadline
    ensures var swapped := list[j - 1 := list[j]][j := list[j - 1]];
            && NonNull(swapped) && Stable(swapped)
            && forall t :: t in swapped <==> t in list
  {
    var swapped := list[j - 1 := list[j]][j := list[j - 1]];
    forall t
      ensures t in swapped <==> t in list
    {
      if t in list {
        var i :| 0 <= i < |list| && list[i] == t;
        var k := if i == j then j - 1 else if i == j - 1 then j else i;
        assert swapped[k] == t;
      }
    }
  }

  /** The library's stable sort: an insertion sort that only ever swaps neighbours strictly out of order. */
  method StableSort(a: array<Timer?>, n: nat)
    requires n <= a.Length && NonNull(a[..n]) && Stable(a[..n])
    modifies a
    ensures NonNull(a[..n]) && Stable(a[..n]) && SortedByDeadline(a[..n])
    ensures forall t :: t in a[..n] <==> t in old(a[..n])
    ensures a[n..] == old(a[n..])
  {
    var i := 0;
    while i < n
      invariant i <= n && NonNull(a[..n]) && Stable(a[..n]) && SortedByDeadline(a[..i])
      invariant forall t :: t in a[..n] <==> t in old(a[..n])
      invariant a[n..] == old(a[n..])
    {
      Insert(a, n, i);
      i := i + 1;
    }
  }

  /** When the inserted timer is not below its left neighbour, the prefix is sorted. */
  lemma Inserted(list: seq<Timer?>, i: nat, j: nat)
    requires NonNull(list) && j <= i < |list|
    requires forall p, q :: 0 <= p < q <= i && q != j ==> list[p].deadline <= list[q].deadline
    requires j > 0 ==> list[j - 1].deadline <= list[j].deadline
    ensures NonNull(list[..i + 1]) && SortedByDeadline(list[..i + 1])
  {
    forall p, q | 0 <= p < q <= i
      ensures list[p].deadline <= list[q].deadline
    {
      if q == j && p < j - 1 {
        assert list[p].deadline <= list[j - 1].deadline;
      }
    }
  }

  /** Moves the i-th timer down to its place among the first i. */
  method Insert(a: array<Timer?>, n: nat, i: nat)
    requires i < n <= a.Length && NonNull(a[..n]) && Stable(a[..n]) && SortedByDeadline(a[..i])
    modifies a
    ensures NonNull(a[..n]) && Stable(a[..n]) && SortedByDeadline(a[..i + 1])
    ensures forall t :: t in a[..n] <==> t in old(a[..n])
    ensures a[n..] == old(a[n..])
  {
    hide Stable;
    var j := i;
    while j > 0 && a[j].deadline < a[j - 1].deadline
      invariant 0 <= j <= i && NonNull(a[..n]) && Stable(a[..n])
      invariant forall p, q :: 0 <= p < q <= i && q != j ==> a[..n][p].deadline <= a[..n][q].deadline
      invariant forall t :: t in a[..n] <==> t in old(a[..n])
      invariant a[n..] == old(a[n..])
    {
      ghost var list := a[..n];
      SwapKeeps(list, j);
      a[j - 1], a[j] := a[j], a[j - 1];
      assert a[..n] == list[j - 1 := list[j]][j := list[j - 1]];
      j := j - 1;
    }
    ghost var list := a[..n];
    Inserted(list, i, j);
    assert a[..i + 1] == list[..i + 1];
  }

  class Clock {
    var now: int
    /** The timer slice: its backing array and its length. */
    var backing: array<Timer?>
    var length: nat
    /** Every timer ever created, in order of registration. */
    ghost var registered: seq<Timer>
    /** Every timer ever sent to, in order of the sends. */
    ghost var sent: seq<Timer>

    /** The log holds the fired timers, each once. */
    ghost predicate Logged()
      reads `sent, `registered, registered
    {
      && (forall t :: t in sent ==> t in registered && t.fired)
      && (forall t :: t in registered && t.fired ==> t in sent)
      && (forall i, j :: 0 <= i < j < |sent| ==> sent[i] != sent[j])
    }

    ghost predicate Valid()
      reads this, backing, registered
    {
      && length <= backing.Length
      && NonNull(backing[..length]) && Stable(backing[..length])
      && (forall i :: 0 <= i < |registered| ==> registered[i].id == i && registered[i].Valid())
      && (forall i :: 0 <= i < length ==> backing[i] in registered)
      && (forall t :: t in registered ==> (t in backing[..length] <==> !t.fired && !t.stopped))
      && (forall t :: t in registered && !t.fired && !t.stopped ==> now < t.deadline)
      && Logged()
    }

    /** The pending timers: exactly the registered ones neither fired nor stopped. */
    ghost function Pending(): seq<Timer?>
      requires length <= backing.Length
      reads this, backing
    {
      backing[..length]
    }

    constructor (start: int)
      ensures Valid() && fresh(backing) && now == start && registered == [] && sent == []
    {
      now, length, registered, sent := start, 0, [], [];
      backing := new Timer?[0];
    }

    /** append: the backing array is replaced when it is full. */
    method Append(timer: Timer)
      requires length <= backing.Length
      modifies `backing, `length, backing
      ensures length == old(length) + 1 <= backing.Length
      ensures backing[..length] == old(backing[..length]) + [timer]
      ensures backing == old(backing) || fresh(backing)
    {
      if length == backing.Length {
        var grown := new Timer?[2 * length + 1](_ => null);
        for i := 0 to length
          invariant backing == old(backing) && length == old(length)
          invariant grown[..i] == backing[..i]
          invariant backing[..] == old(backing[..])
        {
          grown[i] := backing[i];
        }
        backing := grown;
      }
      backing[length] := timer;
      length := length + 1;
    }

    method NewTimer(duration: int) returns (timer: Timer)
      requires Valid()
      modifies this, backing
      ensures Valid() && fresh(timer) && now == old(now)
      ensures registered == old(registered) + [timer] && timer.deadline == now + duration
      ensures timer.fired == (duration <= 0) && timer.channel == if duration <= 0 then [timer.deadline] else []
      ensures Pending() == if duration <= 0 then old(Pending()) else old(Pending()) + [timer]
      ensures backing == old(backing) || fresh(backing)
      ensures sent == old(sent) + if duration <= 0 then [timer] else []
    {
      timer, sent := Create(now + duration, duration <= 0, |registered|, sent);
      if duration > 0 {
        AppendKeeps(Pending(), registered, timer);
        Append(timer);
      }
      Register(timer);
    }

    ghost method Register(timer: Timer)
      requires length <= backing.Length && NonNull(backing[..length]) && Stable(backing[..length])
      requires forall i :: 0 <= i < |registered| ==> registered[i].id == i && registered[i].Valid()
      requires timer.Valid() && timer.id == |registered| && (!timer.fired && !timer.stopped ==> now < timer.deadline)
      requires forall i :: 0 <= i < length ==> backing[i] in registered || backing[i] == timer
      requires forall t :: t in registered ==> (t in backing[..length] <==> !t.fired && !t.stopped)
      requires timer in backing[..length] <==> !timer.fired && !timer.stopped
      requires forall t :: t in registered && !t.fired && !t.stopped ==> now < t.deadline
      requires forall t :: t in sent ==> (t in registered || t == timer) && t.fired
      requires forall t :: t in registered && t.fired ==> t in sent
      requires timer.fired ==> timer in sent
      requires forall i, j :: 0 <= i < j < |sent| ==> sent[i] != sent[j]
      modifies `registered
      ensures Valid() && registered == old(registered) + [timer]
    {
      hide Stable;
      registered := registered + [timer];
    }

    /** Moves the clock, firing every due timer in order of deadline, ties in registration order. The
        survivors are compacted over the very slice that is being read; none is lost or duplicated, and they
        end up as the one list so ordered. */
    method Set(at: int)
      requires Valid()
      modifies this, backing, registered
      ensures Valid() && now == at && registered == old(registered) && backing == old(backing)
      ensures Ordered(Pending()) && forall list :: Lists(list, Pending()) ==> list == Pending()
      ensures forall t :: t in registered ==> (t in Pending() <==> t in old(Pending()) && at < t.deadline)
      ensures forall t :: t in registered ==>
                && t.stopped == old(t.stopped)
                && t.fired == (old(t.fired) || (t in old(Pending()) && t.deadline <= at))
                && t.channel == if t in old(Pending()) && t.deadline <= at then [t.deadline] else old(t.channel)
      ensures |old(sent)| <= |sent| && sent[..|old(sent)|] == old(sent)
      ensures Ordered(sent[|old(sent)|..])
      ensures forall t :: t in registered ==> (t in sent[|old(sent)|..] <==> t in old(Pending()) && t.deadline <= at)
    {
      SortPending();
      FireDue(at);
      UniquePending();
    }

    /** The sorted list of the pending timers is the only ordered one. */
    lemma UniquePending()
      requires Valid() && SortedByDeadline(Pending())
      ensures Ordered(Pending()) && forall list :: Lists(list, Pending()) ==> list == Pending()
    {
      SortedStable(Pending());
      forall list | Lists(list, Pending())
        ensures list == Pending()
      {
        OrderDetermines(list, Pending());
      }
    }

    method SortPending()
      requires Valid()
      modifies backing
      ensures Valid() && SortedByDeadline(Pending())
      ensures forall t :: t in registered ==> (t in Pending() <==> t in old(Pending()))
    {
      ghost var list := backing[..length];
      StableSort(backing, length);
      forall i | 0 <= i < length
        ensures backing[i] in registered
      {
        assert backing[..length][i] in list;
        var j :| 0 <= j < |list| && list[j] == backing[i];
      }
    }

    /** Fires every due timer of the sorted list and keeps the rest. */
    method FireDue(at: int)
      requires Valid() && SortedByDeadline(Pending())
      modifies this, backing, registered
      ensures Valid() && now == at && registered == old(registered) && backing == old(backing)
      ensures SortedByDeadline(Pending())
      ensures forall t :: t in registered ==> (t in Pending() <==> t in old(Pending()) && at < t.deadline)
      ensures forall t :: t in registered ==>
                && t.stopped == old(t.stopped)
                && t.fired == (old(t.fired) || (t in old(Pending()) && t.deadline <= at))
                && t.channel == if t in old(Pending()) && t.deadline <= at then [t.deadline] else old(t.channel)
      ensures |old(sent)| <= |sent| && sent[..|old(sent)|] == old(sent)
      ensures Ordered(sent[|old(sent)|..])
      ensures forall t :: t in registered ==> (t in sent[|old(sent)|..] <==> t in old(Pending()) && t.deadline <= at)
    {
      hide Survivors, Stable, SortedByDeadline, Ordered, Timer.Valid, Logged;
      ghost var sorted := backing[..length];
      SortedStable(sorted);
      SurvivorsAre(sorted, at);
      SurvivorsStable(sorted, at);
      SurvivorsSorted(sorted, at);
      ghost var fired;
      var kept;
      kept, fired := Deliver(sorted, at);
      Suffix(old(sent), fired);
      Finish(sorted, at, kept);
    }

    /** Clears the tail, and with it restores the clock's invariant. */
    method Finish(ghost sorted: seq<Timer?>, at: int, kept: nat)
      requires kept <= length <= backing.Length
      requires NonNull(sorted) && backing[..kept] == Survivors(sorted, at)
      requires NonNull(Survivors(sorted, at)) && Stable(Survivors(sorted, at))
      requires forall i :: 0 <= i < |sorted| ==> sorted[i] in registered && !sorted[i].stopped
      requires forall i :: 0 <= i < |sorted| ==> (sorted[i].fired <==> sorted[i].deadline <= at)
      requires forall t :: t in registered && t !in sorted ==> t.fired || t.stopped
      requires forall i :: 0 <= i < |registered| ==> registered[i].id == i && registered[i].Valid()
      requires Logged()
      modifies `now, `length, backing
      ensures Valid() && now == at && Pending() == Survivors(sorted, at)
    {
      hide Survivors, Stable, SortedByDeadline, Logged, Timer.Valid;
      SurvivorsAre(sorted, at);
      ghost var rest := Survivors(sorted, at);
      ClearTail(kept);
      now := at;
      length := kept;
      assert backing[..length] == rest;
      forall i | 0 <= i < length
        ensures backing[i] in registered
      {
        assert backing[i] == rest[i];
      }
    }

    /** The loop with its log. */
    method Deliver(ghost sorted: seq<Timer?>, at: int) returns (kept: nat, ghost due: seq<Timer>)
      requires length <= backing.Length && sorted == backing[..length] && NonNull(sorted) && Stable(sorted) && Ordered(sorted)
      requires forall i :: 0 <= i < |sorted| ==> sorted[i] in registered && !sorted[i].fired && !sorted[i].stopped
      requires (forall t :: t in registered ==> t.Valid()) && Logged()
      modifies `sent, backing, registered
      ensures kept <= length && backing[..kept] == Survivors(sorted, at)
      ensures forall t :: t in registered ==> t.Valid() && t.stopped == old(t.stopped)
      ensures forall t :: t in registered ==>
                t.fired == (old(t.fired) || (t in sorted && t.deadline <= at))
                && t.channel == if t in sorted && t.deadline <= at then [t.deadline] else old(t.channel)
      ensures Logged() && sent == old(sent) + due && Ordered(due)
      ensures forall t :: t in due <==> t in registered && t in sorted && t.deadline <= at
    {
      OpenLog();
      hide Survivors, Stable, Ordered, Timer.Valid, Logged;
      kept, due := Compact(sorted, at);
      Relog(old(sent), due);
    }

    /** The compaction loop: reads at i, writes at kept <= i. */
    method Compact(ghost sorted: seq<Timer?>, at: int) returns (kept: nat, ghost due: seq<Timer>)
      requires length <= backing.Length && sorted == backing[..length] && NonNull(sorted) && Stable(sorted) && Ordered(sorted)
      requires forall i :: 0 <= i < |sorted| ==> sorted[i] in registered && !sorted[i].fired && !sorted[i].stopped
      requires forall t :: t in registered ==> t.Valid()
      modifies `sent, backing, registered
      ensures kept <= length && backing[..kept] == Survivors(sorted, at)
      ensures forall t :: t in registered ==> t.Valid() && t.stopped == old(t.stopped)
      ensures forall t :: t in registered ==>
                t.fired == (old(t.fired) || (t in sorted && t.deadline <= at))
                && t.channel == if t in sorted && t.deadline <= at then [t.deadline] else old(t.channel)
      ensures sent == old(sent) + due && Ordered(due)
      ensures forall t :: t in due <==> t in registered && t in sorted && t.deadline <= at
    {
      hide Survivors, Stable, Ordered, Timer.Valid;
      kept, due := 0, [];
      ghost var rest: seq<Timer?> := [];
      NoSurvivors(at);
      NoneDue();
      for i := 0 to length
        invariant kept == |rest| <= i && rest == Survivors(sorted[..i], at)
        invariant forall j :: 0 <= j < kept ==> backing[j] == rest[j]
        invariant forall j :: i <= j < length ==> backing[j] == sorted[j]
        invariant forall t :: t in due ==> t in sorted[..i]
        invariant forall j :: 0 <= j < i ==> (sorted[j] in due <==> sorted[j].deadline <= at)
        invariant forall t :: t in registered ==> t.Valid() && t.stopped == old(t.stopped)
        invariant forall t :: t in registered ==>
                    if t in due then t.fired && t.channel == [t.deadline]
                    else t.fired == old(t.fired) && t.channel == old(t.channel)
        invariant sent == old(sent) + due && Ordered(due)
      {
        var timer := backing[i];
        NotBefore(sorted, i);
        assert sorted[..i + 1] == sorted[..i] + [timer];
        SurvivorsStep(sorted[..i], timer, at);
        if timer.deadline <= at {
          DueNext(sorted, i, due);
          sent := timer.Fire(sent);
          due := due + [timer];
        } else {
          backing[kept] := timer;
          kept := kept + 1;
          rest := rest + [timer];
        }
      }
      assert sorted[..length] == sorted;
    }

    /** What the log says of one timer. */
    lemma OpenLog()
      requires Logged()
      ensures forall t :: t in registered ==> (t.fired <==> t in sent)
      ensures forall t :: t in sent ==> t in registered
      ensures forall i, j :: 0 <= i < j < |sent| ==> sent[i] != sent[j]
    {
    }

    /** The log after more sends, each to a timer not sent to before. */
    lemma Relog(before: seq<Timer>, due: seq<Timer>)
      requires sent == before + due && Ordered(due)
      requires forall t :: t in registered ==> (t.fired <==> t in before || t in due)
      requires (forall t :: t in before ==> t in registered) && (forall t :: t in due ==> t in registered && t !in before)
      requires forall i, j :: 0 <= i < j < |before| ==> before[i] != before[j]
      ensures Logged()
    {
      forall i, j | 0 <= i < j < |sent|
        ensures sent[i] != sent[j]
      {
        if i < |before| && |before| <= j {
          assert before[i] in before && due[j - |before|] in due;
        } else if |before| <= i {
          assert Before(due[i - |before|], due[j - |before|]);
        }
      }
    }

    /** clear(retained[len(active):]) */
    method ClearTail(kept: nat)
      requires kept <= length <= backing.Length
      modifies backing
      ensures backing[..kept] == old(backing[..kept])
      ensures forall i :: kept <= i < length ==> backing[i] == null
    {
      for i := kept to length
        invariant backing[..kept] == old(backing[..kept])
        invariant forall j :: kept <= j < i ==> backing[j] == null
      {
        backing[i] := null;
      }
    }

    /** Stops a pending timer and shifts its successors down; false when it already fired or stopped. */
    method Stop(t: Timer) returns (stopped: bool)
      requires Valid() && t in registered
      modifies `length, backing, t
      ensures Valid() && now == old(now) && registered == old(registered) && backing == old(backing)
      ensures stopped == (!old(t.fired) && !old(t.stopped))
      ensures t.fired == old(t.fired) && t.stopped == (old(t.stopped) || stopped) && t.channel == old(t.channel)
      ensures forall u: Timer :: u in Pending() <==> u in old(Pending()) && u != t
      ensures if stopped then exists i :: 0 <= i < |old(Pending())| && old(Pending())[i] == t
                                          && Pending() == old(Pending())[..i] + old(Pending())[i + 1..]
              else Pending() == old(Pending())
    {
      if t.stopped || t.fired {
        return false;
      }
      stopped := true;
      var index := Find(t);
      ghost var list := Pending();
      RemovedIsAbsent(list, index);
      t.stopped := true;
      Remove(index);
      Unpend(t, list, index);
    }

    /** The invariant after the stopped timer has left the list. */
    lemma Unpend(t: Timer, list: seq<Timer?>, index: nat)
      requires index < |list| && list[index] == t && length <= backing.Length
      requires backing[..length] == list[..index] + list[index + 1..]
      requires NonNull(backing[..length]) && Stable(backing[..length])
      requires forall u :: u in backing[..length] <==> u in list && u != t
      requires forall i :: 0 <= i < |list| ==> list[i] in registered
      requires forall i :: 0 <= i < |registered| ==> registered[i].id == i && registered[i].Valid()
      requires t.stopped && forall u :: u in registered && u != t ==> (u in list <==> !u.fired && !u.stopped)
      requires forall u :: u in registered && !u.fired && !u.stopped ==> now < u.deadline
      requires Logged()
      ensures Valid()
    {
      hide Stable, NonNull;
      forall i | 0 <= i < length
        ensures backing[i] in registered
      {
        assert backing[i] == backing[..length][i];
        var j :| 0 <= j < |list| && list[j] == backing[i];
      }
    }

    method Find(t: Timer) returns (index: nat)
      requires length <= backing.Length && t in backing[..length]
      ensures index < length && backing[index] == t
    {
      index := 0;
      while backing[index] != t
        invariant index < length && t in backing[index..length]
        decreases length - index
      {
        index := index + 1;
      }
    }

    /** copy(timers[index:], timers[index+1:]), then clear and drop the last slot. */
    method Remove(index: nat)
      requires index < length <= backing.Length
      modifies `length, backing
      ensures backing == old(backing) && length == old(length) - 1
      ensures backing[..length] == old(backing[..length])[..index] + old(backing[..length])[index + 1..]
    {
      ghost var list := backing[..length];
      ghost var rest := list[..index] + list[index + 1..];
      for i := index to length - 1
        invariant backing == old(backing) && length == old(length)
        invariant forall j :: 0 <= j < i ==> backing[j] == rest[j]
        invariant forall j :: i < j < length ==> backing[j] == list[j]
      {
        assert rest[i] == list[i + 1];
        backing[i] := backing[i + 1];
      }
      backing[length - 1] := null;
      length := length - 1;
      assert forall j :: 0 <= j < length ==> backing[..length][j] == rest[j];
    }
  }

  method Create(deadline: int, due: bool, ghost id: nat, ghost sent: seq<Timer>) returns (timer: Timer, ghost more: seq<Timer>)
    ensures fresh(timer) && timer.Valid() && timer.deadline == deadline && timer.id == id && !timer.stopped
    ensures timer.fired == due && timer.channel == if due then [deadline] else []
    ensures more == sent + if due then [timer] else []
  {
    timer := new Timer(deadline, id);
    more := sent;
    if due {
      more := timer.Fire(sent);
    }
  }

  /** A new timer goes behind every older one. */
  lemma AppendKeeps(list: seq<Timer?>, registered: seq<Timer>, timer: Timer)
    requires NonNull(list) && Stable(list) && timer.id == |registered| && timer !in registered
    requires forall i :: 0 <= i < |list| ==> list[i] in registered
    requires forall i :: 0 <= i < |registered| ==> registered[i].id == i
    ensures NonNull(list + [timer]) && Stable(list + [timer])
  {
  }

  lemma NotBefore(list: seq<Timer?>, i: nat)
    requires NonNull(list) && Stable(list) && i < |list|
    ensures list[i] !in list[..i]
  {
  }

  lemma Suffix(a: seq<Timer>, b: seq<Timer>)
    ensures (a + b)[..|a|] == a && (a + b)[|a|..] == b
  {
  }

  lemma NoneDue()
    ensures Ordered([])
  {
  }

  /** The next due timer of an ordered list comes after every one already sent to. */
  lemma DueNext(list: seq<Timer?>, i: nat, due: seq<Timer>)
    requires NonNull(list) && Ordered(list) && i < |list| && Ordered(due) && forall t :: t in due ==> t in list[..i]
    ensures Ordered(due + [list[i]])
  {
    forall t | t in due
      ensures Before(t, list[i])
    {
      var j :| 0 <= j < i && list[j] == t;
    }
    assert forall j :: 0 <= j < |due| ==> due[j] in due;
  }

  lemma NoSurvivors(at: int)
    ensures Survivors([], at) == []
  {
  }

  lemma SurvivorsStep(list: seq<Timer?>, timer: Timer, at: int)
    requires NonNull(list)
    ensures NonNull(list + [timer])
    ensures Survivors(list + [timer], at) ==
            if timer.deadline <= at then Survivors(list, at) else Survivors(list, at) + [timer]
  {
    assert (list + [timer])[..|list|] == list;
  }

  lemma RemovedIsAbsent(list: seq<Timer?>, index: nat)
    requires NonNull(list) && Stable(list) && index < |list|
    ensures var rest := list[..index] + list[index + 1..];
            NonNull(rest) && Stable(rest) && forall u :: u in rest <==> u in list && u != list[index]
  {
    var rest := list[..index] + list[index + 1..];
    assert forall i :: 0 <= i < |rest| ==> rest[i] == if i < index then list[i] else list[i + 1];
    forall u | u in list && u != list[index]
      ensures u in rest
    {
      var i :| 0 <= i < |list| && list[i] == u;
      assert rest[if i < index then i else i - 1] == u;
    }
  }
}
