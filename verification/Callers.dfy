/** The callers of one breaker: they hold the permit handles and run the protocols around the critical
    sections in place - the acquire loop (breaker.go:143-202) and Execute (execute.go:21-86) - while
    others interleave. Each method is proved to follow the protocol functions of Execution.dfy. */
module Callers {
  import opened Window
  import opened Config
  import opened BreakerModel
  import opened BreakerLifetime
  import opened OpenSchedule
  import opened Execution
  import opened CircuitBreaker

  /** Actions whose observed time is a timestamp. */
  predicate Timely(a: Action) {
    match a
    case DoTryAcquire(now, _) => IsTimestamp(now)
    case DoRejectWaiter => true
    case DoComplete(_, _, _, now, _) => IsTimestamp(now)
    case DoCancel(_, _) => true
    case DoSetMode(_, now) => IsTimestamp(now)
    case DoReset(now) => IsTimestamp(now)
    case DoSnapshot(now) => IsTimestamp(now)
  }

  predicate AllTimely(actions: seq<Action>) {
    forall a :: a in actions ==> Timely(a)
  }

  class Process {
    const breaker: Breaker
    /** Every handle any caller ever received. */
    var handles: seq<Permit>

    ghost predicate Valid()
      reads this, breaker, breaker.Repr
    {
      && breaker.Quiescent() && ValidSettings(breaker.cfg) && this !in breaker.Repr && handles == breaker.issued
      && forall p :: p in handles ==> IsTimestamp(p.deadline - breaker.cfg.permitTTL)
    }

    constructor (cfg: Settings)
      requires ValidSettings(cfg)
      ensures Valid() && fresh(breaker) && fresh(breaker.Repr)
      ensures breaker.cfg == cfg && breaker.spec == Initial(cfg)
    {
      breaker := new Breaker(cfg);
      handles := [];
    }

    method TryAcquire(now: Timestamp, execution: bool) returns (reply: Reply)
      requires Valid()
      modifies this, breaker, breaker.Repr
      ensures Valid() && fresh(breaker.Repr - old(breaker.Repr))
      ensures (breaker.spec, reply) == BreakerModel.TryAcquire(breaker.cfg, old(breaker.spec), now, execution)
      ensures |handles| >= |old(handles)| && (reply.Admitted? ==> reply.id < |handles|)
    {
      hide BreakerModel.TryAcquire, Breaker.Valid;
      var permit: Permit?, events;
      reply, permit, events := breaker.AcquireOnce(now, execution);
      if permit != null {
        breaker.HandleDeadline(permit);
        AdmittedDeadline(breaker.cfg, old(breaker.spec), now, execution);
        handles := handles + [permit];
      }
    }

    /** Any one critical section, by whoever holds the permit it names. */
    method Perform(a: Action) returns (reply: Reply)
      requires Valid() && Timely(a)
      modifies this, breaker, breaker.Repr
      ensures Valid() && fresh(breaker.Repr - old(breaker.Repr)) && |handles| >= |old(handles)|
      ensures (breaker.spec, reply) == Step(breaker.cfg, old(breaker.spec), a)
    {
      hide BreakerModel.TryAcquire, Complete, Cancel, ResetFrom, ModeFrom, ExpireProbes, Observed, Look, Breaker.Valid;
      breaker.HandleCount();
      match a {
        case DoTryAcquire(now, execution) => reply := TryAcquire(now, execution);
        case DoRejectWaiter => reply := breaker.RejectWaiter();
        case DoComplete(id, outcome, slow, now, sample) => reply := CompleteHeld(id, outcome, slow, now, sample);
        case DoCancel(id, now) => reply := CancelHeld(id, now);
        case DoSetMode(mode, now) =>
          var events;
          reply, events := breaker.SetMode(mode, now);
        case DoReset(now) =>
          var events := breaker.Reset(now);
          reply := Accepted;
        case DoSnapshot(now) =>
          var v, totals := breaker.TakeSnapshot(now);
          reply := Viewed(v);
      }
    }

    method CompleteHeld(id: nat, outcome: Outcome, slow: bool, now: Timestamp, sample: Sample) returns (reply: Reply)
      requires Valid()
      modifies this, breaker, breaker.Repr
      ensures Valid() && fresh(breaker.Repr - old(breaker.Repr)) && |handles| >= |old(handles)|
      ensures (breaker.spec, reply) == Complete(breaker.cfg, old(breaker.spec), id, outcome, slow, now, sample)
    {
      breaker.HandleCount();
      NoSuchHandle(breaker.cfg, breaker.spec, id, outcome, slow, now, sample);
      hide Complete, Breaker.Valid;
      if id < |handles| {
        var events;
        reply, events := breaker.CompleteAt(handles[id], outcome, slow, now, sample);
      } else {
        reply := if outcome.Unknown? then InvalidOutcome else NoSuchPermit;
      }
    }

    method CancelHeld(id: nat, now: int) returns (reply: Reply)
      requires Valid()
      modifies this, breaker, breaker.Repr
      ensures Valid() && fresh(breaker.Repr - old(breaker.Repr)) && |handles| >= |old(handles)|
      ensures (breaker.spec, reply) == Cancel(old(breaker.spec), id, now)
    {
      breaker.HandleCount();
      hide Breaker.Valid;
      if id < |handles| {
        reply := breaker.CancelAt(handles[id], now);
      } else {
        reply := NoSuchPermit;
      }
    }

    // ---------- the public terminal calls ----------

    /** Permit.Complete: when the clock panics the permit is completed at its admission time and the panic
        goes on (breaker.go:274-286). */
    method CompletePermit(id: nat, outcome: Outcome, slow: bool, reading: Reading, draw: Draw) returns (reply: Reply, panicking: bool)
      requires Valid() && id < |handles| && (reading.Read? ==> IsTimestamp(reading.at))
      modifies this, breaker, breaker.Repr
      ensures Valid() && fresh(breaker.Repr - old(breaker.Repr)) && id < |old(breaker.spec).permits|
      ensures (breaker.spec, reply) == Complete(breaker.cfg, old(breaker.spec), id, outcome, slow,
                                                ReadingOr(reading, AdmittedAt(breaker.cfg, old(breaker.spec), id)),
                                                breaker.JitterSample(draw))
      ensures panicking <==> !outcome.Unknown? && reading.ClockPanics?
    {
      hide Complete, Breaker.Valid;
      breaker.HandleCount();
      if outcome.Unknown? {
        InvalidIsRefused(breaker.cfg, breaker.spec, id, outcome, slow, breaker.JitterSample(draw));
        return InvalidOutcome, false;
      }
      var sample := breaker.JitterSample(draw);
      var admission := breaker.AdmissionTime(handles[id]);
      breaker.HandleDeadline(handles[id]);
      match reading
      case Read(at) =>
        reply := CompleteHeld(id, outcome, slow, at, sample);
        panicking := false;
      case ClockPanics =>
        reply := CompleteHeld(id, outcome, slow, admission, sample);
        panicking := true;
    }

    /** Permit.Cancel, likewise (breaker.go:364-372). */
    method CancelPermit(id: nat, reading: Reading) returns (reply: Reply, panicking: bool)
      requires Valid() && id < |handles|
      modifies this, breaker, breaker.Repr
      ensures Valid() && fresh(breaker.Repr - old(breaker.Repr)) && id < |old(breaker.spec).permits|
      ensures (breaker.spec, reply) == Cancel(old(breaker.spec), id,
                                              ReadingOr(reading, AdmittedAt(breaker.cfg, old(breaker.spec), id)))
      ensures panicking <==> reading.ClockPanics?
    {
      hide Cancel, Breaker.Valid;
      breaker.HandleCount();
      var admission := breaker.AdmissionTime(handles[id]);
      reply := CancelHeld(id, if reading.Read? then reading.at else admission);
      panicking := reading.ClockPanics?;
    }

    /** A run of other callers. */
    method Others(actions: seq<Action>)
      requires Valid() && AllTimely(actions)
      modifies this, breaker, breaker.Repr
      ensures Valid() && fresh(breaker.Repr - old(breaker.Repr)) && |handles| >= |old(handles)|
      ensures breaker.spec == Run(breaker.cfg, old(breaker.spec), actions)
    {
      hide Step, Breaker.Quiescent;
      var i := 0;
      while i < |actions|
        invariant i <= |actions| && Valid() && fresh(breaker.Repr - old(breaker.Repr)) && |handles| >= |old(handles)|
        invariant Run(breaker.cfg, old(breaker.spec), actions) == Run(breaker.cfg, breaker.spec, actions[i..])
      {
        assert actions[i..][0] == actions[i] && actions[i..][1..] == actions[i + 1..];
        var _ := Perform(actions[i]);
        i := i + 1;
      }
    }

    // ---------- the acquire loop ----------

    /** Waits for a probe slot through successive rounds. The deadline is fixed by the first wait. */
    method Acquire(execution: bool, rounds: seq<Round>) returns (result: Acquisition)
      requires Valid()
      requires forall r :: r in rounds ==>
                 AllTimely(r.others) && IsTimestamp(r.now) && (r.wake.TimerFired? ==> AllTimely(r.wake.late))
      modifies this, breaker, breaker.Repr
      ensures Valid() && fresh(breaker.Repr - old(breaker.Repr))
      ensures (breaker.spec, result) == Execution.Acquire(breaker.cfg, old(breaker.spec), execution, rounds, 0, [])
    {
      hide Step, Run, BreakerModel.TryAcquire, Breaker.Quiescent;
      var deadline: seq<int> := [];
      var k := 0;
      while k < |rounds|
        invariant k <= |rounds| && Valid() && fresh(breaker.Repr - old(breaker.Repr))
        invariant Execution.Acquire(breaker.cfg, old(breaker.spec), execution, rounds, 0, []) ==
                  Execution.Acquire(breaker.cfg, breaker.spec, execution, rounds, k, deadline)
      {
        var r := rounds[k];
        Others(r.others);
        if r.contextDone {
          return ContextError;
        }
        if deadline != [] && deadline[0] <= r.now {
          var late := breaker.RejectWaiter();
          return Replied(late, k);
        }
        var reply := TryAcquire(r.now, execution);
        if !reply.MustWait? {
          return Replied(reply, k);
        }
        if deadline == [] {
          deadline := [r.now + breaker.cfg.maxWait];
        }
        match r.wake {
          case ContextDone => return ContextError;
          case TimerFired(others) =>
            Others(others);
            var late := breaker.RejectWaiter();
            return Replied(late, k);
          case Signaled =>
        }
        k := k + 1;
      }
      result := StillWaiting;
    }

    // ---------- Execute ----------

    /** An admitted Execute from its start clock to its end; panics are data, re-raising is the caller's. */
    method Execute(id: nat, x: Script) returns (panicking: bool)
      requires Valid() && id < |handles|
      requires AllTimely(x.before) && AllTimely(x.between)
      requires x.start.Read? ==> IsTimestamp(Reported(x.start.at, x.body).finished)
      modifies this, breaker, breaker.Repr
      ensures Valid() && fresh(breaker.Repr - old(breaker.Repr))
      ensures id < |old(breaker.spec).permits| && breaker.spec == Executed(breaker.cfg, old(breaker.spec), id, x)
      ensures panicking <==> x.start.ClockPanics? || Panics(x.body)
    {
      hide Run, Complete, Cancel, Breaker.Valid;
      breaker.HandleCount();
      var admission := breaker.AdmissionTime(handles[id]);
      Others(x.before);
      if x.start.ClockPanics? {
        var _ := CancelHeld(id, admission);
        return true;
      }
      var report := Reported(x.start.at, x.body);
      var slow := Elapsed(report.finished, x.start.at) >= breaker.cfg.slowCallDuration;
      var reply := CompleteHeld(id, report.outcome, slow, report.finished, x.sample);
      if !report.panicking && reply != Accepted {
        Others(x.between);
        var _ := CancelHeld(id, report.finished);
      }
      panicking := report.panicking;
    }
  }

  function ReadingOr(reading: Reading, fallback: int): int {
    if reading.Read? then reading.at else fallback
  }

  /** When a permit was admitted. */
  function AdmittedAt(cfg: Settings, s: Model, id: nat): int
    requires id < |s.permits|
  {
    s.permits[id].deadline - cfg.permitTTL
  }

  lemma AdmittedDeadline(cfg: Settings, s: Model, now: int, execution: bool)
    ensures var (t, reply) := BreakerModel.TryAcquire(cfg, s, now, execution);
            reply.Admitted? ==> reply.id < |t.permits| && AdmittedAt(cfg, t, reply.id) == now
  {
    hide Settled;
  }

  lemma InvalidIsRefused(cfg: Settings, s: Model, id: nat, outcome: Outcome, slow: bool, sample: Sample)
    requires ValidSettings(cfg) && outcome.Unknown?
    ensures forall now :: Complete(cfg, s, id, outcome, slow, now, sample) == (s, InvalidOutcome)
  {
  }

  /** A panicking clock never loses a permit: the terminal call at its admission time ends an active permit,
      as requested and not by expiry, whatever its deadline. */
  lemma PanickedClockStillEnds(cfg: Settings, s: Model, id: nat, outcome: Outcome, slow: bool, sample: Sample)
    requires ValidSettings(cfg) && id < |s.permits| && s.permits[id].status.Active? && !outcome.Unknown?
    ensures var (t, reply) := Complete(cfg, s, id, outcome, slow, AdmittedAt(cfg, s, id), sample);
            reply == Accepted && id < |t.permits| && t.permits[id].status == Completed(outcome) && id !in Probes(t)
    ensures var (t, reply) := Cancel(s, id, AdmittedAt(cfg, s, id));
            reply == Accepted && id < |t.permits| && t.permits[id].status == Canceled && id !in Probes(t)
  {
    hide CompleteProbe, RecordHealth;
    CompletionKeepsPermits(cfg, SetStatus(s, id, Completed(outcome)), outcome, slow, AdmittedAt(cfg, s, id), sample);
  }

  lemma NoSuchHandle(cfg: Settings, s: Model, id: nat, outcome: Outcome, slow: bool, now: int, sample: Sample)
    requires ValidSettings(cfg)
    ensures id >= |s.permits| ==>
              Complete(cfg, s, id, outcome, slow, now, sample) ==
              (s, if outcome.Unknown? then InvalidOutcome else NoSuchPermit)
  {
  }
}
