/** Asynchronous event delivery (observer.go:137-253) as an interleaved step system: any number of
    producers and Close serialize on one lock, and one worker receives at every point in between.
    An event is named by its ticket, its place in the order in which producers obtained the lock. */
module ObserverQueue {

  datatype Policy = Policy(buffer: nat, dropOldest: bool)

  /** Where the holder of the event lock stands in `enqueue` or in Close. */
  datatype Holder = Free
                  | Entered(ticket: nat)      // lock taken, closed flag not read
                  | Sending(ticket: nat)      // open: the non-blocking send is next
                  | Full(ticket: nat)         // that send found the queue full
                  | Evicting(ticket: nat)     // drop-oldest: the non-blocking receive is next
                  | Resending(ticket: nat)    // the final, blocking send is next
                  | Closing                   // Close holds the lock
                  | Marked                    // the closed flag is set, the stop channel still open

  /** Where the worker stands in `runObserver`. */
  datatype Worker = Selecting
                  | Observing(ticket: nat, draining: bool)
                  | Draining
                  | Exited

  datatype State = State(queue: seq<nat>, closed: bool, stopped: bool, closeOnce: bool,
                         holder: Holder, worker: Worker, dropped: nat, failures: nat,
                         dispatched: nat, delivered: seq<nat>, lost: set<nat>)

  const INITIAL := State([], false, false, false, Free, Selecting, 0, 0, 0, [], {})

  datatype Action = Dispatch | ReadClosed | TrySend | Overflow | TryEvict | FinalSend
                  | CallClose | MarkClosed | CloseStop
                  | Receive | Stop | DrainReceive | Exit | Return(failed: bool)

  /** Whether a step can be taken; a send on a full channel and a receive on an empty one cannot. */
  predicate Enabled(p: Policy, s: State, a: Action) {
    match a
    case Dispatch => s.holder.Free?
    case ReadClosed => s.holder.Entered?
    case TrySend => s.holder.Sending?
    case Overflow => s.holder.Full?
    case TryEvict => s.holder.Evicting?
    case FinalSend => s.holder.Resending? && |s.queue| < p.buffer
    case CallClose => s.holder.Free? && !s.closeOnce
    case MarkClosed => s.holder.Closing?
    case CloseStop => s.holder.Marked?
    case Receive => s.worker.Selecting? && s.queue != []
    case Stop => s.worker.Selecting? && s.stopped
    case DrainReceive => s.worker.Draining? && s.queue != []
    case Exit => s.worker.Draining? && s.queue == []
    case Return(_) => s.worker.Observing?
  }

  function Lose(s: State, ticket: nat): State {
    s.(dropped := s.dropped + 1, lost := s.lost + {ticket})
  }

  function Next(p: Policy, s: State, a: Action): State
    requires Enabled(p, s, a)
  {
    match a
    case Dispatch => s.(holder := Entered(s.dispatched), dispatched := s.dispatched + 1)
    case ReadClosed =>
      if s.closed then Lose(s, s.holder.ticket).(holder := Free) else s.(holder := Sending(s.holder.ticket))
    case TrySend =>
      if |s.queue| < p.buffer then s.(queue := s.queue + [s.holder.ticket], holder := Free)
      else s.(holder := Full(s.holder.ticket))
    case Overflow =>
      if p.dropOldest then s.(holder := Evicting(s.holder.ticket)) else Lose(s, s.holder.ticket).(holder := Free)
    case TryEvict =>
      if s.queue == [] then s.(holder := Resending(s.holder.ticket))
      else Lose(s, s.queue[0]).(queue := s.queue[1..], holder := Resending(s.holder.ticket))
    case FinalSend => s.(queue := s.queue + [s.holder.ticket], holder := Free)
    case CallClose => s.(closeOnce := true, holder := Closing)
    case MarkClosed => s.(closed := true, holder := Marked)
    case CloseStop => s.(stopped := true, holder := Free)
    case Receive => s.(queue := s.queue[1..], worker := Observing(s.queue[0], false))
    case Stop => s.(worker := Draining)
    case DrainReceive => s.(queue := s.queue[1..], worker := Observing(s.queue[0], true))
    case Exit => s.(worker := Exited)
    case Return(failed) =>
      s.(delivered := s.delivered + [s.worker.ticket], failures := s.failures + if failed then 1 else 0,
         worker := if s.worker.draining then Draining else Selecting)
  }

  /** A run: every action enabled when it is taken. */
  ghost predicate Runs(p: Policy, s: State, actions: seq<Action>, t: State)
    decreases |actions|
  {
    if actions == [] then s == t
    else Enabled(p, s, actions[0]) && Runs(p, Next(p, s, actions[0]), actions[1..], t)
  }

  // ---------- the invariant ----------

  /** The event the lock holder still carries, the one being observed, and the pipeline in order. */
  function Carried(h: Holder): seq<nat> {
    match h
    case Free => []
    case Closing => []
    case Marked => []
    case _ => [h.ticket]
  }

  function InFlight(w: Worker): seq<nat> {
    if w.Observing? then [w.ticket] else []
  }

  function AcceptedEvents(s: State): seq<nat> {
    s.delivered + InFlight(s.worker) + s.queue
  }

  function Pipeline(s: State): seq<nat> {
    AcceptedEvents(s) + Carried(s.holder)
  }

  ghost predicate Increasing(tickets: seq<nat>) {
    forall i, j :: 0 <= i < j < |tickets| ==> tickets[i] < tickets[j]
  }

  ghost predicate Partitioned(s: State) {
    forall t: nat :: t < s.dispatched <==> (t in Pipeline(s)) || t in s.lost
  }

  ghost predicate Inv(p: Policy, s: State) {
    && p.buffer > 0
    && |s.queue| <= p.buffer
    && Increasing(Pipeline(s))
    && Partitioned(s)
    && (forall t :: t in s.lost ==> t !in Pipeline(s))
    && |s.lost| == s.dropped
    && (s.holder.Resending? ==> |s.queue| < p.buffer)
    && (s.holder.Sending? || s.holder.Full? || s.holder.Evicting? || s.holder.Resending? ==> !s.closed)
    && (s.holder.Evicting? || s.holder.Resending? ==> p.dropOldest)
    && (s.closeOnce <==> s.closed || s.holder.Closing?)
    && (s.holder.Closing? ==> !s.closed)
    && (s.holder.Marked? ==> s.closed && !s.stopped)
    && (s.stopped ==> s.closed)
    && (s.closed ==> s.stopped || s.holder.Marked?)
    && (s.worker.Draining? || s.worker.Exited? || (s.worker.Observing? && s.worker.draining) ==> s.stopped)
    && (s.worker.Exited? ==> s.queue == [])
  }

  lemma IncreasingAppend(tickets: seq<nat>, bound: nat)
    requires Increasing(tickets) && forall t :: t in tickets ==> t < bound
    ensures Increasing(tickets + [bound])
  {
    assert forall i :: 0 <= i < |tickets| ==> tickets[i] in tickets;
  }

  lemma IncreasingDrop(left: seq<nat>, x: nat, right: seq<nat>)
    requires Increasing(left + [x] + right)
    ensures Increasing(left + right) && x !in left + right
  {
    var all := left + [x] + right;
    assert all[|left|] == x;
    forall i, j | 0 <= i < j < |left + right|
      ensures (left + right)[i] < (left + right)[j]
    {
      var i', j' := if i < |left| then i else i + 1, if j < |left| then j else j + 1;
      assert all[i'] == (left + right)[i] && all[j'] == (left + right)[j];
    }
    forall i | 0 <= i < |left + right|
      ensures (left + right)[i] != x
    {
      var i' := if i < |left| then i else i + 1;
      assert all[i'] == (left + right)[i];
    }
  }

  /** Steps that keep the pipeline as it is only move an event along it. */
  lemma Moved(p: Policy, s: State, t: State)
    requires Increasing(Pipeline(s)) && Partitioned(s) && forall x :: x in s.lost ==> x !in Pipeline(s)
    requires Pipeline(t) == Pipeline(s) && t.lost == s.lost && t.dispatched == s.dispatched
    ensures Increasing(Pipeline(t)) && Partitioned(t) && forall x :: x in t.lost ==> x !in Pipeline(t)
  {
  }

  /** Losing one event of the pipeline. */
  lemma Lost(s: State, t: State, left: seq<nat>, x: nat, right: seq<nat>)
    requires Increasing(Pipeline(s)) && Partitioned(s) && forall y :: y in s.lost ==> y !in Pipeline(s)
    requires Pipeline(s) == left + [x] + right && Pipeline(t) == left + right
    requires t.lost == s.lost + {x} && t.dispatched == s.dispatched
    ensures Increasing(Pipeline(t)) && Partitioned(t) && forall y :: y in t.lost ==> y !in Pipeline(t)
    ensures |t.lost| == |s.lost| + 1
  {
    IncreasingDrop(left, x, right);
    assert x in Pipeline(s);
    forall y
      ensures y in Pipeline(s) <==> y in Pipeline(t) || y == x
    {
    }
  }

  lemma DispatchKeeps(p: Policy, s: State)
    requires Inv(p, s) && Enabled(p, s, Dispatch)
    ensures Inv(p, Next(p, s, Dispatch))
  {
    var t := Next(p, s, Dispatch);
    assert Pipeline(t) == Pipeline(s) + [s.dispatched];
    IncreasingAppend(Pipeline(s), s.dispatched);
  }

  /** A pipeline around the head of its queue. */
  lemma SplitHead(done: seq<nat>, queue: seq<nat>, carried: seq<nat>)
    requires queue != []
    ensures done + queue + carried == done + [queue[0]] + (queue[1..] + carried)
    ensures done + queue[1..] + carried == done + (queue[1..] + carried)
  {
    assert queue == [queue[0]] + queue[1..];
  }

  lemma EvictionKeeps(p: Policy, s: State)
    requires Inv(p, s) && s.holder.Evicting? && s.queue != []
    ensures Inv(p, Next(p, s, TryEvict))
  {
    hide Increasing, Partitioned;
    SplitHead(s.delivered + InFlight(s.worker), s.queue, Carried(s.holder));
    Lost(s, Next(p, s, TryEvict), s.delivered + InFlight(s.worker), s.queue[0], s.queue[1..] + Carried(s.holder));
  }

  lemma RefusalKeeps(p: Policy, s: State, a: Action)
    requires Inv(p, s) && Enabled(p, s, a)
    requires (a.ReadClosed? && s.closed) || (a.Overflow? && !p.dropOldest)
    ensures Inv(p, Next(p, s, a))
  {
    hide Increasing, Partitioned;
    var t := Next(p, s, a);
    var left := s.delivered + InFlight(s.worker) + s.queue;
    assert Pipeline(s) == left + [s.holder.ticket] + [];
    assert Pipeline(t) == left + [];
    Lost(s, t, left, s.holder.ticket, []);
  }

  lemma TakeHead(done: seq<nat>, queue: seq<nat>)
    requires queue != []
    ensures done + [queue[0]] + queue[1..] == done + [] + queue
  {
  }

  lemma Finish(done: seq<nat>, x: nat, queue: seq<nat>)
    ensures (done + [x]) + [] + queue == done + [x] + queue
  {
  }

  /** The worker takes the head of the queue and finishes with it; what was accepted stays the same list. */
  lemma SameAccepted(p: Policy, s: State, a: Action)
    requires Enabled(p, s, a) && (a.Receive? || a.DrainReceive? || a.Return? || a.Stop? || a.Exit?)
    ensures AcceptedEvents(Next(p, s, a)) == AcceptedEvents(s)
  {
    if s.queue != [] {
      TakeHead(s.delivered, s.queue);
    }
    if s.worker.Observing? {
      Finish(s.delivered, s.worker.ticket, s.queue);
    }
  }

  lemma Push(front: seq<nat>, queue: seq<nat>, x: nat)
    ensures front + (queue + [x]) + [] == front + queue + [x]
  {
  }

  /** Such a step loses nothing: an event moves from its producer to the queue, or on to the worker. */
  lemma SamePipeline(p: Policy, s: State, a: Action)
    requires Enabled(p, s, a) && !a.Dispatch?
    requires !((a.ReadClosed? && s.closed) || (a.Overflow? && !p.dropOldest) || (a.TryEvict? && s.queue != []))
    ensures var t := Next(p, s, a);
            Pipeline(t) == Pipeline(s) && t.lost == s.lost && t.dispatched == s.dispatched && t.dropped == s.dropped
  {
    if a.Receive? || a.DrainReceive? || a.Return? || a.Stop? || a.Exit? {
      hide AcceptedEvents;
      SameAccepted(p, s, a);
    } else if s.holder.Sending? || s.holder.Resending? {
      Push(s.delivered + InFlight(s.worker), s.queue, s.holder.ticket);
    }
  }

  lemma MoveKeeps(p: Policy, s: State, a: Action)
    requires Inv(p, s) && Enabled(p, s, a) && !a.Dispatch?
    requires !((a.ReadClosed? && s.closed) || (a.Overflow? && !p.dropOldest) || (a.TryEvict? && s.queue != []))
    ensures Inv(p, Next(p, s, a))
  {
    hide Increasing, Partitioned, Pipeline;
    SamePipeline(p, s, a);
    Moved(p, s, Next(p, s, a));
  }

  lemma StepKeeps(p: Policy, s: State, a: Action)
    requires Inv(p, s) && Enabled(p, s, a)
    ensures Inv(p, Next(p, s, a))
  {
    if a.Dispatch? {
      DispatchKeeps(p, s);
    } else if a.TryEvict? && s.queue != [] {
      EvictionKeeps(p, s);
    } else if (a.ReadClosed? && s.closed) || (a.Overflow? && !p.dropOldest) {
      RefusalKeeps(p, s, a);
    } else {
      MoveKeeps(p, s, a);
    }
  }

  lemma {:induction false} RunKeeps(p: Policy, s: State, actions: seq<Action>, t: State)
    requires Inv(p, s) && Runs(p, s, actions, t)
    ensures Inv(p, t)
    decreases |actions|
  {
    hide Inv, Next, Enabled;
    if actions != [] {
      StepKeeps(p, s, actions[0]);
      RunKeeps(p, Next(p, s, actions[0]), actions[1..], t);
    }
  }

  // ---------- what every run guarantees ----------

  /** Delivery in every reachable state: the queue respects its bound; what was delivered, is being
      observed, waits in the queue or is still carried by a producer is an in-order subsequence of
      dispatch; together with the dropped events it is everything dispatched, each exactly once. */
  lemma Delivery(p: Policy, actions: seq<Action>, t: State)
    requires p.buffer > 0 && Runs(p, INITIAL, actions, t)
    ensures |t.queue| <= p.buffer
    ensures Increasing(t.delivered + InFlight(t.worker) + t.queue + Carried(t.holder))
    ensures forall x: nat :: x < t.dispatched <==> (x in Pipeline(t)) || x in t.lost
    ensures forall x :: x in t.lost ==> x !in Pipeline(t)
    ensures t.dispatched == |t.delivered| + |InFlight(t.worker)| + |t.queue| + |Carried(t.holder)| + t.dropped
  {
    InitialOk(p);
    RunKeeps(p, INITIAL, actions, t);
    Conservation(Pipeline(t), t.lost, t.dispatched);
  }

  lemma InitialOk(p: Policy)
    requires p.buffer > 0
    ensures Inv(p, INITIAL)
  {
    assert Pipeline(INITIAL) == [];
  }

  /** Counting a partition of the numbers below n into an increasing list and a set. */
  lemma {:induction false} Conservation(tickets: seq<nat>, lost: set<nat>, n: nat)
    requires Increasing(tickets)
    requires forall x: nat :: x < n <==> x in tickets || x in lost
    requires forall x :: x in lost ==> x !in tickets
    ensures |tickets| + |lost| == n
    decreases n
  {
    assert tickets != [] ==> tickets[0] in tickets;
    assert lost != {} ==> exists x :: x in lost && x < n;
    if n == 0 {
      assert tickets == [] && lost == {};
    } else if n - 1 in lost {
      assert |lost - {n - 1}| == |lost| - 1;
      forall x: nat
        ensures x < n - 1 <==> x in tickets || x in lost - {n - 1}
      {
        assert x < n <==> x in tickets || x in lost;
      }
      Conservation(tickets, lost - {n - 1}, n - 1);
    } else {
      var i :| 0 <= i < |tickets| && tickets[i] == n - 1;
      LastIsGreatest(tickets, n, i);
      var before := tickets[..|tickets| - 1];
      assert tickets == before + [n - 1];
      forall x: nat
        ensures x < n - 1 <==> x in before || x in lost
      {
        assert x < n <==> x in tickets || x in lost;
        assert x in tickets <==> x in before || x == n - 1;
        assert n - 1 !in before;
      }
      Conservation(before, lost, n - 1);
    }
  }

  lemma LastIsGreatest(tickets: seq<nat>, n: nat, i: nat)
    requires Increasing(tickets) && i < |tickets| && tickets[i] == n - 1
    requires forall x :: x in tickets ==> x < n
    ensures i == |tickets| - 1
  {
    assert tickets[|tickets| - 1] in tickets;
  }

  /** The lock is never stuck: its holder can always take its next step, so in particular the final
      drop-oldest send never blocks, whatever the worker does in between. */
  lemma HolderNeverBlocks(p: Policy, actions: seq<Action>, t: State)
    requires p.buffer > 0 && Runs(p, INITIAL, actions, t)
    ensures t.holder.Resending? ==> Enabled(p, t, FinalSend)
    ensures !t.holder.Free? ==>
              exists a :: a in {ReadClosed, TrySend, Overflow, TryEvict, FinalSend, MarkClosed, CloseStop} && Enabled(p, t, a)
  {
    InitialOk(p);
    RunKeeps(p, INITIAL, actions, t);
    match t.holder
    case Free =>
    case Entered(_) => assert Enabled(p, t, ReadClosed);
    case Sending(_) => assert Enabled(p, t, TrySend);
    case Full(_) => assert Enabled(p, t, Overflow);
    case Evicting(_) => assert Enabled(p, t, TryEvict);
    case Resending(_) => assert Enabled(p, t, FinalSend);
    case Closing => assert Enabled(p, t, MarkClosed);
    case Marked => assert Enabled(p, t, CloseStop);
  }

  /** After the worker exits nothing is ever queued again: every later dispatch is counted as dropped. */
  lemma {:induction false} NothingAfterExit(p: Policy, s: State, actions: seq<Action>, t: State)
    requires Inv(p, s) && s.worker.Exited? && Runs(p, s, actions, t)
    ensures t.worker.Exited? && t.queue == [] && t.delivered == s.delivered
    ensures t.dropped + |Carried(t.holder)| == s.dropped + |Carried(s.holder)| + (t.dispatched - s.dispatched)
    decreases |actions|
  {
    if actions != [] {
      StepKeeps(p, s, actions[0]);
      NothingAfterExit(p, Next(p, s, actions[0]), actions[1..], t);
    }
  }

  /** When the worker has exited every accepted event has been delivered. */
  lemma ExitMeansDrained(p: Policy, actions: seq<Action>, t: State)
    requires p.buffer > 0 && Runs(p, INITIAL, actions, t) && t.worker.Exited?
    ensures t.closed && forall x: nat :: x < t.dispatched ==> x in t.delivered || x in t.lost || x in Carried(t.holder)
  {
    InitialOk(p);
    RunKeeps(p, INITIAL, actions, t);
    assert Pipeline(t) == t.delivered + Carried(t.holder);
  }

  /** Drop-newest never gives up an accepted event: whatever is queued, observed or delivered stays so. */
  ghost predicate Accepted(s: State, ticket: nat) {
    ticket in AcceptedEvents(s)
  }

  lemma {:induction false} DropNewestKeepsAccepted(p: Policy, s: State, actions: seq<Action>, t: State, ticket: nat)
    requires Inv(p, s) && !p.dropOldest && Runs(p, s, actions, t) && Accepted(s, ticket)
    ensures Accepted(t, ticket) && ticket !in t.lost
    decreases |actions|
  {
    if actions == [] {
      assert Pipeline(s) == s.delivered + InFlight(s.worker) + s.queue + Carried(s.holder);
    } else {
      var n := Next(p, s, actions[0]);
      StepKeeps(p, s, actions[0]);
      assert s.queue != [] ==> s.queue == [s.queue[0]] + s.queue[1..];
      DropNewestKeepsAccepted(p, n, actions[1..], t, ticket);
    }
  }

  /** The step at which an event is lost: evicted from the head of the queue, refused by drop-newest when
      full, or refused after Close. */
  lemma LossIs(p: Policy, s: State, a: Action, ticket: nat)
    requires Inv(p, s) && Enabled(p, s, a) && ticket in Next(p, s, a).lost && ticket !in s.lost
    ensures || (a.TryEvict? && p.dropOldest && s.queue != [] && ticket == s.queue[0])
            || (a.Overflow? && !p.dropOldest && Carried(s.holder) == [ticket])
            || (a.ReadClosed? && s.closed && Carried(s.holder) == [ticket])
  {
  }

  /** Whether an event was accepted at some point of a run. */
  ghost predicate EverAccepted(p: Policy, s: State, actions: seq<Action>, ticket: nat)
    decreases |actions|
  {
    Accepted(s, ticket)
    || (actions != [] && Enabled(p, s, actions[0]) && EverAccepted(p, Next(p, s, actions[0]), actions[1..], ticket))
  }

  lemma {:induction false} ClosedStays(p: Policy, s: State, actions: seq<Action>, t: State)
    requires Runs(p, s, actions, t) && s.closed
    ensures t.closed
    decreases |actions|
  {
    if actions != [] {
      ClosedStays(p, Next(p, s, actions[0]), actions[1..], t);
    }
  }

  /** Drop-oldest never refuses an event while open: over any run that ends open, every event lost on the
      way had been accepted, and gave way to a newer one. */
  lemma {:induction false} DropOldestRefusesOnlyClosed(p: Policy, s: State, actions: seq<Action>, t: State, ticket: nat)
    requires Inv(p, s) && p.dropOldest && Runs(p, s, actions, t) && !t.closed
    requires ticket in t.lost && ticket !in s.lost
    ensures EverAccepted(p, s, actions, ticket)
    decreases |actions|
  {
    hide Inv, Next, Enabled;
    var n := Next(p, s, actions[0]);
    StepKeeps(p, s, actions[0]);
    if ticket in n.lost {
      LossIs(p, s, actions[0], ticket);
      OpenBefore(p, s, actions, t);
      assert s.queue != [] ==> s.queue[0] in s.queue;
    } else {
      DropOldestRefusesOnlyClosed(p, n, actions[1..], t, ticket);
    }
  }

  lemma OpenBefore(p: Policy, s: State, actions: seq<Action>, t: State)
    requires Runs(p, s, actions, t) && !t.closed
    ensures !s.closed
  {
    if s.closed {
      ClosedStays(p, s, actions, t);
    }
  }

  function FailedReturns(actions: seq<Action>): nat {
    if actions == [] then 0
    else (if actions[0] == Return(true) then 1 else 0) + FailedReturns(actions[1..])
  }

  function Returns(actions: seq<Action>): nat {
    if actions == [] then 0
    else (if actions[0].Return? then 1 else 0) + Returns(actions[1..])
  }

  lemma StepCounts(p: Policy, s: State, a: Action)
    requires Enabled(p, s, a)
    ensures var t := Next(p, s, a);
            && t.failures == s.failures + (if a == Return(true) then 1 else 0)
            && |t.delivered| == |s.delivered| + (if a.Return? then 1 else 0)
  {
  }

  /** Each observation is delivered once; failures count exactly the failed ones. */
  lemma {:induction false} FailuresAreCounted(p: Policy, s: State, actions: seq<Action>, t: State)
    requires Runs(p, s, actions, t)
    ensures t.failures == s.failures + FailedReturns(actions)
    ensures |t.delivered| == |s.delivered| + Returns(actions)
    decreases |actions|
  {
    hide Next, Enabled;
    if actions != [] {
      StepCounts(p, s, actions[0]);
      FailuresAreCounted(p, Next(p, s, actions[0]), actions[1..], t);
    }
  }
}
