/** Asynchronous delivery as the source keeps it (observer.go:149-253): one channel, two flags and two
    counters updated in place by producers, by Close and by the worker, whose steps may fall between any
    two statements of whoever holds the event lock. Every method follows the step system of
    ObserverQueue.dfy, taking the steps it returns as `trace`. */
module ObserverChannel {
  import opened ObserverQueue

  predicate IsWorkerStep(a: Action) {
    a.Receive? || a.Stop? || a.DrainReceive? || a.Exit? || a.Return?
  }

  predicate WorkerSteps(actions: seq<Action>) {
    forall a :: a in actions ==> IsWorkerStep(a)
  }

  /** What the worker cannot change: the lock, the flags, the losses; it only empties the queue. */
  ghost predicate OnlyConsumed(s: State, t: State) {
    && t.holder == s.holder && t.closed == s.closed && t.stopped == s.stopped && t.closeOnce == s.closeOnce
    && t.dropped == s.dropped && t.lost == s.lost && t.dispatched == s.dispatched
    && |t.queue| <= |s.queue|
    && AcceptedEvents(t) == AcceptedEvents(s)
  }

  lemma WorkerConsumes(p: Policy, s: State, a: Action)
    requires Enabled(p, s, a) && IsWorkerStep(a)
    ensures OnlyConsumed(s, Next(p, s, a))
  {
    var t := Next(p, s, a);
    assert s.queue != [] ==> s.queue == [s.queue[0]] + s.queue[1..];
    assert AcceptedEvents(t) == AcceptedEvents(s);
  }

  lemma {:induction false} RunsAppend(p: Policy, s: State, actions: seq<Action>, t: State, a: Action)
    requires Runs(p, s, actions, t) && Enabled(p, t, a)
    ensures Runs(p, s, actions + [a], Next(p, t, a))
    decreases |actions|
  {
    hide Next, Enabled;
    if actions == [] {
      assert ([] + [a])[1..] == [];
    } else {
      assert (actions + [a])[1..] == actions[1..] + [a];
      RunsAppend(p, Next(p, s, actions[0]), actions[1..], t, a);
    }
  }

  class Channel {
    const policy: Policy
    var queue: seq<nat>
    var closed: bool
    var stopped: bool
    var closeOnce: bool
    var dropped: nat
    var failures: nat
    /** Where the worker goroutine stands. */
    var worker: Worker
    ghost var spec: State

    ghost predicate Valid()
      reads this
    {
      && Inv(policy, spec)
      && queue == spec.queue && closed == spec.closed && stopped == spec.stopped && closeOnce == spec.closeOnce
      && dropped == spec.dropped && failures == spec.failures && worker == spec.worker
    }

    constructor (policy: Policy)
      requires policy.buffer > 0
      ensures Valid() && this.policy == policy && spec == INITIAL
    {
      this.policy := policy;
      queue, closed, stopped, closeOnce, dropped, failures, worker := [], false, false, false, 0, 0, Selecting;
      spec := INITIAL;
      new;
      InitialOk(policy);
    }

    /** Records one step of the step system. */
    ghost method Take(a: Action, start: State, trace: seq<Action>) returns (more: seq<Action>)
      requires Inv(policy, spec) && Enabled(policy, spec, a) && Runs(policy, start, trace, spec)
      modifies `spec
      ensures Inv(policy, spec) && spec == Next(policy, old(spec), a)
      ensures more == trace + [a] && Runs(policy, start, more, spec)
    {
      hide Inv, Next, Enabled;
      StepKeeps(policy, spec, a);
      RunsAppend(policy, start, trace, spec, a);
      spec := Next(policy, spec, a);
      more := trace + [a];
    }

    /** The worker goes on as scheduled; a step it cannot take leaves it where it is. */
    method Interleave(actions: seq<Action>, ghost start: State, ghost trace: seq<Action>) returns (ghost more: seq<Action>)
      requires Valid() && WorkerSteps(actions) && Runs(policy, start, trace, spec)
      modifies this
      ensures Valid() && OnlyConsumed(old(spec), spec) && Runs(policy, start, more, spec)
    {
      hide Inv, Next, Enabled, Runs;
      more := trace;
      var i := 0;
      while i < |actions|
        invariant i <= |actions| && Valid() && OnlyConsumed(old(spec), spec) && Runs(policy, start, more, spec)
      {
        more := WorkerStep(actions[i], start, more);
        i := i + 1;
      }
    }

    /** Which case of its selects the worker can take. */
    predicate Ready(a: Action)
      reads this
    {
      match a
      case Receive => worker.Selecting? && queue != []
      case Stop => worker.Selecting? && stopped
      case DrainReceive => worker.Draining? && queue != []
      case Exit => worker.Draining? && queue == []
      case Return(_) => worker.Observing?
      case _ => false
    }

    method WorkerStep(a: Action, ghost start: State, ghost trace: seq<Action>) returns (ghost more: seq<Action>)
      requires Valid() && IsWorkerStep(a) && Runs(policy, start, trace, spec)
      modifies this
      ensures Valid() && OnlyConsumed(old(spec), spec) && Runs(policy, start, more, spec)
      ensures if Enabled(policy, old(spec), a) then spec == Next(policy, old(spec), a) && more == trace + [a]
              else spec == old(spec) && more == trace
    {
      hide Inv, Runs, OnlyConsumed;
      SameConsumed(spec);
      more := trace;
      if Ready(a) {
        WorkerConsumes(policy, spec, a);
        more := Take(a, start, trace);
        match a {
          case Receive =>
            worker := Observing(queue[0], false);
            queue := queue[1..];
          case Stop => worker := Draining;
          case DrainReceive =>
            worker := Observing(queue[0], true);
            queue := queue[1..];
          case Exit => worker := Exited;
          case Return(failed) =>
            if failed {
              failures := failures + 1;
            }
            worker := if worker.draining then Draining else Selecting;
        }
      }
    }

    // ---------- the statements of enqueue ----------

    method Enter(ticket: nat) returns (ghost trace: seq<Action>)
      requires Valid() && spec.holder.Free? && ticket == spec.dispatched
      modifies `spec
      ensures Valid() && spec == old(spec).(holder := Entered(ticket), dispatched := ticket + 1)
      ensures AcceptedEvents(spec) == AcceptedEvents(old(spec))
      ensures Runs(policy, old(spec), trace, spec)
    {
      hide Inv, Runs;
      NoSteps(policy, spec);
      trace := Take(Dispatch, spec, []);
    }

    /** After Close the event is counted as dropped. */
    method DropWhenClosed(ticket: nat, ghost start: State, ghost trace: seq<Action>) returns (refused: bool, ghost more: seq<Action>)
      requires Valid() && spec.holder == Entered(ticket) && Runs(policy, start, trace, spec)
      modifies this
      ensures Valid() && Runs(policy, start, more, spec) && refused == old(spec).closed
      ensures spec == if refused then Lose(old(spec), ticket).(holder := Free) else old(spec).(holder := Sending(ticket))
      ensures AcceptedEvents(spec) == AcceptedEvents(old(spec))
    {
      hide Inv, Runs;
      more := Take(ReadClosed, start, trace);
      refused := closed;
      if closed {
        dropped := dropped + 1;
      }
    }

    /** The non-blocking send. */
    method TrySendTo(ticket: nat, ghost start: State, ghost trace: seq<Action>) returns (sent: bool, ghost more: seq<Action>)
      requires Valid() && spec.holder == Sending(ticket) && Runs(policy, start, trace, spec)
      modifies this
      ensures Valid() && Runs(policy, start, more, spec) && sent == (|old(spec).queue| < policy.buffer)
      ensures spec == if sent then old(spec).(queue := old(spec).queue + [ticket], holder := Free)
                      else old(spec).(holder := Full(ticket))
      ensures AcceptedEvents(spec) == AcceptedEvents(old(spec)) + if sent then [ticket] else []
    {
      hide Inv, Runs;
      more := Take(TrySend, start, trace);
      sent := |queue| < policy.buffer;
      if sent {
        queue := queue + [ticket];
      }
    }

    method DropNewest(ticket: nat, ghost start: State, ghost trace: seq<Action>) returns (refused: bool, ghost more: seq<Action>)
      requires Valid() && spec.holder == Full(ticket) && Runs(policy, start, trace, spec)
      modifies this
      ensures Valid() && Runs(policy, start, more, spec) && refused == !policy.dropOldest
      ensures spec == if refused then Lose(old(spec), ticket).(holder := Free) else old(spec).(holder := Evicting(ticket))
      ensures AcceptedEvents(spec) == AcceptedEvents(old(spec))
    {
      hide Inv, Runs;
      more := Take(Overflow, start, trace);
      refused := !policy.dropOldest;
      if refused {
        dropped := dropped + 1;
      }
    }

    /** The non-blocking receive; the worker may have emptied the queue meanwhile. */
    method EvictOldest(ticket: nat, ghost start: State, ghost trace: seq<Action>) returns (ghost more: seq<Action>)
      requires Valid() && spec.holder == Evicting(ticket) && Runs(policy, start, trace, spec)
      modifies this
      ensures Valid() && Runs(policy, start, more, spec)
      ensures spec == if old(queue) == [] then old(spec).(holder := Resending(ticket))
                      else Lose(old(spec), old(queue)[0]).(queue := old(queue)[1..], holder := Resending(ticket))
    {
      hide Inv, Runs;
      more := Take(TryEvict, start, trace);
      if queue != [] {
        queue := queue[1..];
        dropped := dropped + 1;
      }
    }

    /** The blocking send: it always finds a free slot, so it never blocks. */
    method SendFinal(ticket: nat, ghost start: State, ghost trace: seq<Action>) returns (ghost more: seq<Action>)
      requires Valid() && spec.holder == Resending(ticket) && Runs(policy, start, trace, spec)
      modifies this
      ensures Valid() && Runs(policy, start, more, spec) && |old(queue)| < policy.buffer
      ensures spec == old(spec).(queue := old(spec).queue + [ticket], holder := Free)
      ensures AcceptedEvents(spec) == AcceptedEvents(old(spec)) + [ticket]
    {
      HasRoom();
      hide Inv, Runs;
      more := Take(FinalSend, start, trace);
      queue := queue + [ticket];
    }

    /** Drop-oldest on a full queue: evict, then send. */
    method Replace(ticket: nat, gap: seq<Action>, ghost start: State, ghost trace: seq<Action>) returns (ghost more: seq<Action>)
      requires Valid() && spec.holder == Evicting(ticket) && Runs(policy, start, trace, spec) && WorkerSteps(gap)
      modifies this
      ensures Valid() && Runs(policy, start, more, spec) && spec.holder.Free?
      ensures spec.dispatched == old(spec).dispatched && spec.closed == old(spec).closed
      ensures old(spec).dropped <= spec.dropped <= old(spec).dropped + 1 && Accepted(spec, ticket)
    {
      hide Inv, Runs, Valid, WorkerSteps, AcceptedEvents;
      more := EvictOldest(ticket, start, trace);
      more := Interleave(gap, start, more);
      more := SendFinal(ticket, start, more);
    }

    lemma Fields()
      requires Valid()
      ensures closed == spec.closed && dropped == spec.dropped && queue == spec.queue && closeOnce == spec.closeOnce
      ensures stopped == spec.stopped
    {
    }

    /** enqueue, with the worker free to run at every gap. The final send of drop-oldest always has room.
        A closed channel loses the event; an open one accepts it unless drop-newest finds the queue full. */
    method Enqueue(ticket: nat, gaps: seq<seq<Action>>) returns (ghost trace: seq<Action>)
      requires Valid() && spec.holder.Free? && ticket == spec.dispatched
      requires |gaps| == 5 && forall g :: g in gaps ==> WorkerSteps(g)
      modifies this
      ensures Valid() && spec.holder.Free? && spec.dispatched == ticket + 1
      ensures Runs(policy, old(spec), trace, spec)
      ensures closed == old(closed) && old(dropped) <= dropped <= old(dropped) + 1
      ensures Accepted(spec, ticket) <==> ticket !in spec.lost
      ensures closed ==> ticket in spec.lost
      ensures !closed && (policy.dropOldest || |old(queue)| < policy.buffer) ==> Accepted(spec, ticket)
      ensures closed || !policy.dropOldest ==>
                && spec.lost <= old(spec).lost + {ticket}
                && AcceptedEvents(spec) == AcceptedEvents(old(spec)) + if ticket in spec.lost then [] else [ticket]
    {
      hide Inv, Runs, Valid, WorkerSteps, AcceptedEvents;
      Fields();
      ghost var start := spec;
      trace := Enter(ticket);
      trace := Interleave(gaps[0], start, trace);
      var done: bool;
      done, trace := DropWhenClosed(ticket, start, trace);
      if !done {
        trace := Interleave(gaps[1], start, trace);
        done, trace := TrySendTo(ticket, start, trace);
      }
      if !done {
        trace := Interleave(gaps[2], start, trace);
        done, trace := DropNewest(ticket, start, trace);
      }
      if !done {
        trace := Interleave(gaps[3], start, trace);
        trace := Replace(ticket, gaps[4], start, trace);
      }
      Fields();
      Settle(ticket);
    }

    /** The blocking send finds a free slot. */
    lemma HasRoom()
      requires Valid() && spec.holder.Resending?
      ensures |queue| < policy.buffer && Enabled(policy, spec, FinalSend)
    {
    }

    /** Once its producer has let go, a dispatched event is either accepted or lost. */
    lemma Settle(ticket: nat)
      requires Valid() && spec.holder.Free? && ticket < spec.dispatched
      ensures Accepted(spec, ticket) <==> ticket !in spec.lost
    {
      assert Pipeline(spec) == spec.delivered + InFlight(spec.worker) + spec.queue;
    }

    /** Close, idempotent; the queue itself is never closed. */
    method Close(gaps: seq<seq<Action>>) returns (ghost trace: seq<Action>)
      requires Valid() && spec.holder.Free?
      requires |gaps| == 2 && forall g :: g in gaps ==> WorkerSteps(g)
      modifies this
      ensures Valid() && spec.holder.Free? && closed && Runs(policy, old(spec), trace, spec)
      ensures spec.dispatched == old(spec).dispatched && spec.lost == old(spec).lost
      ensures stopped && AcceptedEvents(spec) == AcceptedEvents(old(spec))
      ensures old(closeOnce) ==> spec == old(spec)
    {
      hide Inv, Runs, Valid, WorkerSteps;
      Fields();
      OnceMeansClosed();
      NoSteps(policy, spec);
      trace := [];
      if closeOnce {
        return;
      }
      ghost var start := spec;
      trace := ClaimOnce();
      trace := Interleave(gaps[0], start, trace);
      trace := MarkAsClosed(start, trace);
      trace := Interleave(gaps[1], start, trace);
      trace := SignalStop(start, trace);
      Fields();
    }

    method ClaimOnce() returns (ghost trace: seq<Action>)
      requires Valid() && spec.holder.Free? && !closeOnce
      modifies this
      ensures Valid() && spec == old(spec).(closeOnce := true, holder := Closing) && Runs(policy, old(spec), trace, spec)
    {
      hide Inv, Runs;
      NoSteps(policy, spec);
      trace := Take(CallClose, spec, []);
      closeOnce := true;
    }

    method MarkAsClosed(ghost start: State, ghost trace: seq<Action>) returns (ghost more: seq<Action>)
      requires Valid() && spec.holder.Closing? && Runs(policy, start, trace, spec)
      modifies this
      ensures Valid() && spec == old(spec).(closed := true, holder := Marked) && Runs(policy, start, more, spec)
    {
      hide Inv, Runs;
      more := Take(MarkClosed, start, trace);
      closed := true;
    }

    method SignalStop(ghost start: State, ghost trace: seq<Action>) returns (ghost more: seq<Action>)
      requires Valid() && spec.holder.Marked? && Runs(policy, start, trace, spec)
      modifies this
      ensures Valid() && spec == old(spec).(stopped := true, holder := Free) && Runs(policy, start, more, spec)
    {
      hide Inv, Runs;
      more := Take(CloseStop, start, trace);
      stopped := true;
    }

    lemma OnceMeansClosed()
      requires Valid() && spec.holder.Free?
      ensures closeOnce ==> closed && stopped
    {
    }

    /** The worker running alone after Close: it drains the queue and exits, having delivered everything
        accepted, in order. `fails` says which callbacks fail. */
    method RunToExit(fails: nat -> bool) returns (ghost trace: seq<Action>)
      requires Valid() && stopped
      modifies this
      ensures Valid() && worker.Exited? && Runs(policy, old(spec), trace, spec)
      ensures spec.delivered == AcceptedEvents(old(spec)) && spec.lost == old(spec).lost
    {
      hide Inv, Runs, AcceptedEvents;
      NoSteps(policy, spec);
      trace := [];
      while !worker.Exited?
        invariant Valid() && stopped && Runs(policy, old(spec), trace, spec)
        invariant spec.lost == old(spec).lost && AcceptedEvents(spec) == AcceptedEvents(old(spec))
        decreases |queue|, Distance(worker)
      {
        match worker {
          case Observing(ticket, _) => trace := WorkerStep(Return(fails(ticket)), old(spec), trace);
          case Selecting => trace := WorkerStep(Stop, old(spec), trace);
          case Draining => trace := WorkerStep(if queue != [] then DrainReceive else Exit, old(spec), trace);
        }
      }
      ExitedDelivered();
    }

    lemma ExitedDelivered()
      requires Valid() && worker.Exited?
      ensures spec.delivered == AcceptedEvents(spec)
    {
    }
  }

  /** How far the worker is from its exit, the queue aside. */
  function Distance(w: Worker): nat {
    match w
    case Observing(_, _) => 3
    case Selecting => 2
    case Draining => 1
    case Exited => 0
  }

  lemma SameConsumed(s: State)
    ensures OnlyConsumed(s, s)
  {
  }

  lemma NoSteps(p: Policy, s: State)
    ensures Runs(p, s, [], s)
  {
  }
}
