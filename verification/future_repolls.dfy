/** Which futures can be polled after they were ready, and from where. */
module FutureRepolls {
  import opened Counting
  import opened OurFuture

  // Polling after Ready.

  /** A future that has been ready, and was not polled after that, is not being polled. */
  ghost predicate Fresh(s: State) {
    s.ready && !s.repolled ==> forall w :: 0 <= w < |s.workers| ==> !s.workers[w].Polling? && !s.workers[w].Poisoned?
  }

  lemma FreshKept(s: State, e: Event)
    requires Inv(s) && Fresh(s)
    ensures Fresh(Apply(s, e))
  {
    var s' := Apply(s, e);
    if s'.ready && !s'.repolled && !s.ready {
      forall v | 0 <= v < |s.workers| && v != e.w ensures !s.workers[v].Polling? && !s.workers[v].Poisoned? {
        if v < e.w { SumAtLeastTwo(s.workers, v, e.w, InLock()); } else { SumAtLeastTwo(s.workers, e.w, v, InLock()); }
      }
    }
  }

  lemma {:induction false} RunFresh(s: State, events: seq<Event>)
    requires Inv(s) && Fresh(s)
    ensures Inv(Run(s, events)) && Fresh(Run(s, events))
    decreases |events|
  {
    if events != [] {
      ApplyInv(s, events[0]);
      FreshKept(s, events[0]);
      RunFresh(Apply(s, events[0]), events[1..]);
    }
  }

  ghost predicate CanPoll(p: Place) {
    Committed()(p) > 0 || p.Polling?
  }

  /** The queue is full of the future's own messages, and every thread left is about to send another. */
  ghost predicate Jammed(s: State) {
    && Own(s) >= s.capacity
    && forall w :: 0 <= w < |s.workers| && Alive(s.workers[w]) ==> s.workers[w] == Contended || s.workers[w] == Resending
  }

  /** Nobody is left who could poll, or nothing that could make anybody poll, or nobody who could receive. */
  ghost predicate Over(s: State) {
    || (forall w :: 0 <= w < |s.workers| ==> !Alive(s.workers[w]))
    || Jammed(s)
    || (s.wakers == 0 && s.sending == 0 && s.msgs == 0
        && forall w :: 0 <= w < |s.workers| ==> !CanPoll(s.workers[w]))
  }

  lemma DesertedKept(s: State, e: Event)
    requires forall w :: 0 <= w < |s.workers| ==> !Alive(s.workers[w])
    ensures var s' := Apply(s, e); s'.repolled == s.repolled && forall w :: 0 <= w < |s.workers| ==> !Alive(s'.workers[w])
  {
    if WorkerOf(e).Some? {
      assert Apply(s, e) == s by {
        assert e.w < |s.workers| ==> !Alive(s.workers[e.w]);
        hide OutsideAct;
      }
      hide Apply;
    } else {
      hide WorkerAct;
    }
  }

  lemma NothingToPollKept(s: State, e: Event)
    requires s.wakers == 0 && s.sending == 0 && s.msgs == 0
    requires forall w :: 0 <= w < |s.workers| ==> !CanPoll(s.workers[w])
    ensures var s' := Apply(s, e);
            && s'.repolled == s.repolled && s'.wakers == 0 && s'.sending == 0 && s'.msgs == 0
            && forall w :: 0 <= w < |s.workers| ==> !CanPoll(s'.workers[w])
  {
    if WorkerOf(e).Some? {
      if e.w < |s.workers| {
        assert !CanPoll(s.workers[e.w]);
        WorkerMoves(s, e, e.w);
        NothingToPollWorker(s, e, e.w);
      } else {
        assert Apply(s, e) == s;
      }
      hide Apply;
    } else {
      hide WorkerAct;
    }
  }

  lemma NothingToPollWorker(s: State, e: Event, w: nat)
    requires WorkerOf(e) == Some(w) && w < |s.workers| && !CanPoll(s.workers[w]) && s.msgs == 0
    ensures var s' := Apply(s, e);
            && s'.repolled == s.repolled && s'.wakers == s.wakers && s'.sending == s.sending && s'.msgs == 0
            && !CanPoll(s'.workers[w])
  {
    hide OutsideAct;
  }

  lemma JammedKept(s: State, e: Event)
    requires QueueOk(s) && Jammed(s)
    ensures var s' := Apply(s, e); Jammed(s') && QueueOk(s') && s'.repolled == s.repolled
  {
    QueueKept(s, e);
    if WorkerOf(e).Some? {
      if e.w < |s.workers| { JammedWorker(s, e, e.w); } else { assert Apply(s, e) == s; }
      hide Apply, QueueOk;
    }
  }

  lemma JammedWorker(s: State, e: Event, w: nat)
    requires Jammed(s) && WorkerOf(e) == Some(w) && w < |s.workers|
    ensures var s' := Apply(s, e);
            && Own(s') == Own(s) && s'.repolled == s.repolled && s'.capacity == s.capacity && s'.workers == s.workers[w := s'.workers[w]]
            && (Alive(s'.workers[w]) ==> s'.workers[w] == Contended || s'.workers[w] == Resending)
  {
    hide OutsideAct;
    assert Full(s) || s.others < 0;
    assert Alive(s.workers[w]) ==> s.workers[w] == Contended || s.workers[w] == Resending;
  }

  lemma {:induction false} OverStays(s: State, events: seq<Event>)
    requires Over(s) && QueueOk(s) && !s.repolled
    ensures !Run(s, events).repolled
    decreases |events|
  {
    hide Apply;
    if events != [] {
      QueueKept(s, events[0]);
      if forall w :: 0 <= w < |s.workers| ==> !Alive(s.workers[w]) {
        DesertedKept(s, events[0]);
      } else if Jammed(s) {
        JammedKept(s, events[0]);
      } else {
        NothingToPollKept(s, events[0]);
      }
      OverStays(Apply(s, events[0]), events[1..]);
    }
  }

  /** The future clones its waker while it is polled only if `clones`, and wakes it only if `wakes`. */
  ghost predicate Behaves(clones: bool, wakes: bool, events: seq<Event>) {
    forall e :: e in events ==> (e.CloneInPoll? ==> clones) && (e.WakeInPoll? ==> wakes)
  }

  lemma RepollByTrying(s: State, w: nat) returns (events: seq<Event>)
    requires At(s, w, Trying) && !s.locked && s.ready
    ensures Run(s, events).repolled && Behaves(false, false, events)
  {
    RunOne(s, Try(w), []);
    events := [Try(w)] + [];
  }

  lemma RepollByHolding(s: State, w: nat) returns (events: seq<Event>)
    requires At(s, w, Holding) && !s.locked && s.ready
    ensures Run(s, events).repolled && Behaves(false, false, events)
  {
    var rest := RepollByTrying(Apply(s, Begin(w)), w);
    RunOne(s, Begin(w), rest);
    events := [Begin(w)] + rest;
  }

  lemma RepollByAway(s: State, w: nat) returns (events: seq<Event>)
    requires At(s, w, Away) && s.msgs > 0 && !s.locked && s.ready
    ensures Run(s, events).repolled && Behaves(false, false, events)
  {
    var rest := RepollByHolding(Apply(s, Receive(w, s.spawned)), w);
    RunOne(s, Receive(w, s.spawned), rest);
    events := [Receive(w, s.spawned)] + rest;
  }

  lemma RepollByDropping(s: State, w: nat) returns (events: seq<Event>)
    requires At(s, w, Dropping) && s.msgs > 0 && !s.locked && s.ready
    ensures Run(s, events).repolled && Behaves(false, false, events)
  {
    var rest := RepollByAway(Apply(s, DropWaker(w)), w);
    RunOne(s, DropWaker(w), rest);
    events := [DropWaker(w)] + rest;
  }

  lemma RepollByResending(s: State, w: nat) returns (events: seq<Event>)
    requires At(s, w, Resending) && !Full(s) && QueueOk(s) && !s.locked && s.ready
    ensures Run(s, events).repolled
  {
    var rest := RepollByDropping(Apply(s, Resend(w)), w);
    RunOne(s, Resend(w), rest);
    events := [Resend(w)] + rest;
  }

  lemma RepollByContended(s: State, w: nat) returns (events: seq<Event>)
    requires At(s, w, Contended) && !Full(s) && QueueOk(s) && !s.locked && s.ready
    ensures Run(s, events).repolled
  {
    var rest := RepollByResending(Apply(s, Retry(w)), w);
    RunOne(s, Retry(w), rest);
    events := [Retry(w)] + rest;
  }

  /** A worker that holds the future's message polls it; any other living worker can receive one. */
  lemma RepollByWorker(s: State, w: nat) returns (events: seq<Event>)
    requires w < |s.workers| && Alive(s.workers[w]) && !s.workers[w].Polling? && !s.workers[w].Unlocking?
    requires !s.locked && s.ready && (s.msgs > 0 || Committed()(s.workers[w]) > 0)
    requires (s.workers[w].Contended? || s.workers[w].Resending?) ==> !Full(s) && QueueOk(s)
    ensures Run(s, events).repolled
  {
    match s.workers[w]
    case Away => events := RepollByAway(s, w);
    case Holding => events := RepollByHolding(s, w);
    case Trying => events := RepollByTrying(s, w);
    case Contended => events := RepollByContended(s, w);
    case Resending => events := RepollByResending(s, w);
    case Dropping => events := RepollByDropping(s, w);
  }

  /** The lock is free for the taking: at most one worker is about to release it. */
  lemma FreeLock(s: State) returns (events: seq<Event>)
    requires Inv(s) && Fresh(s) && s.ready && !s.repolled
    ensures var s' := Run(s, events);
            && (Jammed(s') ==> Jammed(s)) && s'.capacity == s.capacity
            && Inv(s') && Fresh(s') && !s'.locked && s'.ready && !s'.repolled && |s'.workers| == |s.workers|
            && s'.wakers == s.wakers && s'.sending == s.sending && s'.msgs == s.msgs
            && (forall w :: 0 <= w < |s.workers| ==> Committed()(s'.workers[w]) == Committed()(s.workers[w]))
            && (forall w :: 0 <= w < |s.workers| && Alive(s.workers[w]) ==> Alive(s'.workers[w]))
  {
    if s.locked {
      var w := SumWitness(s.workers, InLock());
      events := [Unlock(w)] + [];
      RunOne(s, Unlock(w), []);
      RunFresh(s, events);
      assert Run(s, events).workers[w] == Dropping;
    } else {
      events := [];
    }
  }

  /** If the others fill the queue, one of their messages is received. */
  lemma MakeRoom(s: State) returns (events: seq<Event>)
    requires QueueOk(s) && Own(s) < s.capacity
    ensures var s' := Run(s, events); !Full(s') && QueueOk(s') && s' == s.(others := s'.others)
  {
    if Full(s) {
      RunOne(s, Vacate, []);
      events := [Vacate] + [];
    } else {
      events := [];
    }
  }

  lemma RepollWithRoom(s: State) returns (events: seq<Event>)
    requires QueueOk(s) && LockHeld(s) && Fresh(s) && s.ready && !s.repolled && !s.locked && SomeoneAlive(s) && !Full(s)
    requires s.wakers + Carriers(s) > 0
    ensures Run(s, events).repolled
  {
    forall w | 0 <= w < |s.workers| ensures !s.workers[w].Polling? && !s.workers[w].Unlocking? {
      SumAtLeast(s.workers, w, InLock());
    }
    if Sum(s.workers, Committed()) > 0 {
      var w := SumWitness(s.workers, Committed());
      events := RepollByWorker(s, w);
    } else {
      var w :| 0 <= w < |s.workers| && Alive(s.workers[w]);
      SumAtLeast(s.workers, w, Committed());
      if s.msgs > 0 {
        events := RepollByWorker(s, w);
      } else if s.sending > 0 {
        var rest := RepollByWorker(Apply(s, Deliver), w);
        RunOne(s, Deliver, rest);
        events := [Deliver] + rest;
      } else {
        var woken := Apply(s, WakeByRef);
        var rest := RepollByWorker(Apply(woken, Deliver), w);
        RunOne(woken, Deliver, rest);
        RunOne(s, WakeByRef, [Deliver] + rest);
        events := [WakeByRef] + ([Deliver] + rest);
      }
    }
  }

  lemma CanRepoll(s: State) returns (events: seq<Event>)
    requires Inv(s) && Fresh(s) && s.ready && !s.repolled && !s.locked && SomeoneAlive(s) && !Jammed(s)
    requires s.capacity > 0 && s.wakers + Carriers(s) > 0
    ensures Run(s, events).repolled
  {
    if Own(s) < s.capacity {
      var front := MakeRoom(s);
      var back := RepollWithRoom(Run(s, front));
      RunConcat(s, front, back);
      events := front + back;
    } else {
      var w: nat :| w < |s.workers| && Alive(s.workers[w]) && s.workers[w] != Contended && s.workers[w] != Resending;
      SumAtLeast(s.workers, w, InLock());
      events := RepollByWorker(s, w);
    }
  }

  /** In every run, a future that has returned Ready can still be polled again exactly when a waker,
      a wake call, a message or a worker holding one is left, and a thread to poll it that is not caught
      sending to a queue full of the future's own messages. */
  lemma RepollRule(workers: nat, capacity: nat, limit: nat, before: seq<Event>)
    requires capacity > 0
    requires var s := Run(Init(workers, capacity, limit), before); s.ready && !s.repolled
    ensures var s := Run(Init(workers, capacity, limit), before);
            (exists events :: Run(s, events).repolled) <==> SomeoneAlive(s) && s.wakers + Carriers(s) > 0 && !Jammed(s)
  {
    var start := Init(workers, capacity, limit);
    InitInv(workers, capacity, limit);
    RunFresh(start, before);
    RunQueue(start, before);
    var s := Run(start, before);
    if SomeoneAlive(s) && s.wakers + Carriers(s) > 0 && !Jammed(s) {
      var front := FreeLock(s);
      var free := Run(s, front);
      SameCommitted(s, free);
      var w :| 0 <= w < |s.workers| && Alive(s.workers[w]);
      assert Alive(free.workers[w]);
      var back := CanRepoll(free);
      RunConcat(s, front, back);
      assert Run(s, front + back).repolled;
    } else {
      OverNow(s);
      forall events ensures !Run(s, events).repolled { OverStays(s, events); }
    }
  }

  lemma OverNow(s: State)
    requires Fresh(s) && s.ready && !s.repolled
    requires !(SomeoneAlive(s) && s.wakers + Carriers(s) > 0 && !Jammed(s))
    ensures Over(s)
  {
    if SomeoneAlive(s) && !Jammed(s) {
      forall w | 0 <= w < |s.workers| ensures !CanPoll(s.workers[w]) {
        SumAtLeast(s.workers, w, Committed());
      }
    }
  }

  lemma SameCommitted(s: State, s': State)
    requires |s'.workers| == |s.workers|
    requires forall w :: 0 <= w < |s.workers| ==> Committed()(s'.workers[w]) == Committed()(s.workers[w])
    ensures Sum(s'.workers, Committed()) == Sum(s.workers, Committed())
  {
    SamePointwise(s.workers, s'.workers, Committed());
  }

  lemma {:induction false} SamePointwise(a: seq<Place>, b: seq<Place>, weight: Place -> nat)
    requires |a| == |b| && forall i :: 0 <= i < |a| ==> weight(a[i]) == weight(b[i])
    ensures Sum(a, weight) == Sum(b, weight)
  {
    if a != [] { SamePointwise(a[1..], b[1..], weight); }
  }

  // Which futures can be polled after they were ready at all.

  /** Weight of the one reference: a worker that found the lock taken would weigh two. */
  ghost function Only(): Place -> nat {
    (p: Place) => if p.Away? || p.Dead? then 0 else if p.Contended? || p.Resending? then 2 else 1
  }

  /** The only reference is the spawned message's. */
  ghost predicate Lone(s: State) {
    && s.wakers == 0 && s.sending == 0 && !s.repolled && LockHeld(s)
    && s.msgs + Sum(s.workers, Only()) <= 1
    && (s.ready ==> s.msgs == 0 && forall w :: 0 <= w < |s.workers| ==> !CanPoll(s.workers[w]))
  }

  lemma LoneKept(s: State, e: Event)
    requires Lone(s) && !e.CloneInPoll? && !e.WakeInPoll?
    ensures Lone(Apply(s, e))
  {
    LockKept(s, e);
    if WorkerOf(e).Some? && e.w < |s.workers| {
      var w := e.w;
      AloneInHand(s, w);
      SumUpdate(s.workers, w, Apply(s, e).workers[w], Only());
      SumAtLeast(s.workers, w, Only());
      LoneWorker(s, e, w);
      LonePolls(s, e, w);
      hide Apply, LockHeld;
    }
  }

  /** The only reference moves from the message to the worker, and out of the pool. */
  lemma LoneWorker(s: State, e: Event, w: nat)
    requires WorkerOf(e) == Some(w) && w < |s.workers| && !e.CloneInPoll? && !e.WakeInPoll?
    requires !s.workers[w].Contended? && !s.workers[w].Resending? && (s.workers[w].Trying? ==> !s.locked && !s.ready)
    ensures var s' := Apply(s, e);
            && s'.workers == s.workers[w := s'.workers[w]] && s'.wakers == s.wakers && s'.sending == s.sending && s'.repolled == s.repolled
            && s'.msgs + Only()(s'.workers[w]) <= s.msgs + Only()(s.workers[w]) && s'.msgs <= s.msgs
  {
    hide OutsideAct;
    match e
    case Receive(_, _) =>
    case Try(_) =>
    case CloneInPoll(_) =>
    case WakeInPoll(_) =>
    case PollReturns(_, _) =>
    case PollPanics(_) =>
    case Unlock(_) =>
    case Retry(_) =>
    case Resend(_) =>
    case Refused(_) =>
    case DropWaker(_) =>
    case _ =>
  }

  lemma LonePolls(s: State, e: Event, w: nat)
    requires WorkerOf(e) == Some(w) && w < |s.workers|
    ensures var s' := Apply(s, e);
            && (CanPoll(s'.workers[w]) ==> CanPoll(s.workers[w]) || s.msgs > 0)
            && (s.ready ==> s'.ready)
            && (s'.ready && !s.ready ==> s.workers[w].Polling? && s'.workers[w].Unlocking?)
  {
    hide OutsideAct;
    match e
    case Receive(_, _) =>
    case Try(_) =>
    case CloneInPoll(_) =>
    case WakeInPoll(_) =>
    case PollReturns(_, _) =>
    case PollPanics(_) =>
    case Unlock(_) =>
    case Retry(_) =>
    case Resend(_) =>
    case Refused(_) =>
    case DropWaker(_) =>
    case _ =>
  }

  /** The worker that holds the only reference finds the lock free, and nobody else can poll. */
  lemma AloneInHand(s: State, w: nat)
    requires Lone(s) && w < |s.workers|
    ensures s.workers[w].Trying? ==> !s.locked
    ensures s.workers[w].Polling? ==> s.msgs == 0 && forall v :: 0 <= v < |s.workers| && v != w ==> !CanPoll(s.workers[v])
  {
    SumAtLeast(s.workers, w, Only());
    forall v | 0 <= v < |s.workers| && v != w ensures Only()(s.workers[v]) + Only()(s.workers[w]) <= 1 {
      if v < w { SumAtLeastTwo(s.workers, v, w, Only()); } else { SumAtLeastTwo(s.workers, w, v, Only()); }
    }
    if s.workers[w].Trying? && s.locked {
      var v := SumWitness(s.workers, InLock());
    }
  }

  lemma {:induction false} LoneRun(s: State, events: seq<Event>)
    requires Lone(s) && Behaves(false, false, events)
    ensures Lone(Run(s, events))
    decreases |events|
  {
    if events != [] {
      assert events[0] in events;
      LoneKept(s, events[0]);
      LoneRun(Apply(s, events[0]), events[1..]);
    }
  }

  ghost predicate MayRepoll(workers: nat, capacity: nat, limit: nat, clones: bool, wakes: bool) {
    exists events :: Behaves(clones, wakes, events) && Run(Init(workers, capacity, limit), events).repolled
  }

  /** A future can be polled after it was ready, in some schedule, exactly if it clones or wakes its
      waker while it is polled. */
  lemma RepollNeedsWaker(workers: nat, capacity: nat, limit: nat, clones: bool, wakes: bool)
    requires workers > 0 && capacity > 0
    ensures MayRepoll(workers, capacity, limit, clones, wakes) <==> clones || wakes
  {
    var s0 := Init(workers, capacity, limit);
    InitInv(workers, capacity, limit);
    SumZero(s0.workers, Only());
    if clones || wakes {
      var use := if wakes then WakeInPoll(0) else CloneInPoll(0);
      var front := [Receive(0, true), Begin(0), Try(0), use, PollReturns(0, true)];
      UsedInPoll(workers, capacity, limit, use);
      var back := PolledAgain(Run(s0, front));
      RunConcat(s0, front, back);
      assert Behaves(clones, wakes, front + back);
    } else {
      forall events | Behaves(clones, wakes, events) ensures !Run(s0, events).repolled { LoneRun(s0, events); }
    }
  }

  lemma UsedInPoll(workers: nat, capacity: nat, limit: nat, use: Event)
    requires workers > 0 && capacity > 0 && (use == WakeInPoll(0) || use == CloneInPoll(0))
    ensures var s := Run(Init(workers, capacity, limit), [Receive(0, true), Begin(0), Try(0), use, PollReturns(0, true)]);
            && s.ready && !s.repolled && s.wakers + s.sending > 0 && |s.workers| > 0 && s.workers[0] == Unlocking
            && !Full(s) && s.msgs == 0 && !s.spawned
  {
    var s := Init(workers, capacity, limit);
    RunOne(s, Receive(0, true), [Begin(0), Try(0), use, PollReturns(0, true)]);
    s := Apply(s, Receive(0, true));
    RunOne(s, Begin(0), [Try(0), use, PollReturns(0, true)]);
    s := Apply(s, Begin(0));
    RunOne(s, Try(0), [use, PollReturns(0, true)]);
    s := Apply(s, Try(0));
    RunOne(s, use, [PollReturns(0, true)]);
    s := Apply(s, use);
    RunOne(s, PollReturns(0, true), []);
  }

  lemma PolledAgain(s: State) returns (events: seq<Event>)
    requires At(s, 0, Unlocking) && s.ready && s.wakers + s.sending > 0 && !Full(s) && s.msgs == 0 && !s.spawned
    ensures Behaves(false, false, events) && Run(s, events).repolled
  {
    hide Run;
    var freed := Apply(s, Unlock(0));
    if s.sending > 0 {
      var rest := RepollByDropping(Apply(freed, Deliver), 0);
      RunOne(freed, Deliver, rest);
      RunOne(s, Unlock(0), [Deliver] + rest);
      events := [Unlock(0)] + ([Deliver] + rest);
    } else {
      var woken := Apply(freed, Wake);
      var rest := RepollByDropping(Apply(woken, Deliver), 0);
      RunOne(woken, Deliver, rest);
      RunOne(freed, Wake, [Deliver] + rest);
      RunOne(s, Unlock(0), [Wake] + ([Deliver] + rest));
      events := [Unlock(0)] + ([Wake] + ([Deliver] + rest));
    }
  }
}
