/** Whether the wakes of a future on the pool are served: what a full queue does to them, and what a
    panicking poll does. */
module FutureWakes {
  import opened Counting
  import opened OurFuture

  /** No message is refused by a full queue. */
  ghost predicate NoneRefused(events: seq<Event>) {
    forall e :: e in events ==> !e.Refused? && !e.DeliverRefused?
  }

  lemma StillNoneLost(s: State, e: Event)
    requires s.lost == 0 && !e.Refused? && !e.DeliverRefused?
    ensures Apply(s, e).lost == 0
  {
    if WorkerOf(e).Some? { hide OutsideAct; } else { hide WorkerAct; }
  }

  lemma {:induction false} NothingLost(s: State, events: seq<Event>)
    requires NoneRefused(events) && s.lost == 0
    ensures Run(s, events).lost == 0
    decreases |events|
  {
    if events != [] {
      assert events[0] in events;
      StillNoneLost(s, events[0]);
      hide Apply;
      NothingLost(Apply(s, events[0]), events[1..]);
    }
  }

  /** A wake that no poll has begun after has a message in the channel or on its way, or a worker that
      will try to poll or send the message again; or a full queue has refused a message since the
      latest poll began. */
  lemma NoLostWake(workers: nat, capacity: nat, limit: nat, events: seq<Event>)
    ensures var s := Run(Init(workers, capacity, limit), events);
            && (s.seen < s.wakes ==>
                  || s.msgs > 0 || s.sending > 0 || s.lost > 0
                  || exists w :: 0 <= w < |s.workers| && Committed()(s.workers[w]) == 1)
            && (NoneRefused(events) ==> s.lost == 0)
  {
    InitInv(workers, capacity, limit);
    RunInv(Init(workers, capacity, limit), events);
    if NoneRefused(events) { NothingLost(Init(workers, capacity, limit), events); }
    var s := Run(Init(workers, capacity, limit), events);
    if s.seen < s.wakes && s.msgs == 0 && s.sending == 0 && s.lost == 0 {
      var w := SumWitness(s.workers, Committed());
    }
  }

  // When a full queue loses a wake.

  /** As long as the others cannot fill the queue, a refused message leaves one of the future's own. */
  lemma CoveredKept(s: State, e: Event)
    requires QueueOk(s) && s.limit < s.capacity && Covered(s)
    ensures Covered(Apply(s, e))
  {
    if WorkerOf(e).Some? && e.w < |s.workers| {
      SumUpdate(s.workers, e.w, Apply(s, e).workers[e.w], Committed());
      SumAtLeast(s.workers, e.w, Committed());
    }
  }

  lemma {:induction false} CoveredRun(s: State, events: seq<Event>)
    requires QueueOk(s) && s.limit < s.capacity && Covered(s)
    ensures Covered(Run(s, events))
    decreases |events|
  {
    if events != [] {
      CoveredKept(s, events[0]);
      QueueKept(s, events[0]);
      CoveredRun(Apply(s, events[0]), events[1..]);
    }
  }

  ghost predicate NeverLosesWake(workers: nat, capacity: nat, limit: nat) {
    forall events :: Covered(Run(Init(workers, capacity, limit), events))
  }

  /** No wake of the future is ever lost, in any run, exactly if the others never have enough messages on
      level 0 to fill its queue. */
  lemma LostWakeRule(workers: nat, capacity: nat, limit: nat)
    requires workers > 0
    ensures NeverLosesWake(workers, capacity, limit) <==> limit < capacity
  {
    var start := Init(workers, capacity, limit);
    InitInv(workers, capacity, limit);
    if limit < capacity {
      forall events ensures Covered(Run(start, events)) { CoveredRun(start, events); }
    } else {
      var events := LoseWake(workers, capacity, limit);
    }
  }

  function Occupied(n: nat): (r: seq<Event>) {
    seq(n, _ => Occupy)
  }

  lemma {:induction false} OccupyAll(s: State, n: nat)
    requires s.msgs == 1 && s.spawned && s.others + n <= s.limit && s.others + n <= s.capacity
    ensures Run(s, Occupied(n)) == s.(others := s.others + n)
    decreases n
  {
    if n > 0 {
      assert Occupied(n)[1..] == Occupied(n - 1);
      OccupyAll(Apply(s, Occupy), n - 1);
    }
  }

  /** The future is polled and keeps its waker, the others fill the queue, and the wake is refused: the pool
      is at rest with a thread waiting, and nothing will ever serve the wake. */
  lemma LoseWake(workers: nat, capacity: nat, limit: nat) returns (events: seq<Event>)
    requires workers > 0 && limit >= capacity
    ensures var s := Run(Init(workers, capacity, limit), events); !Covered(s) && AtRest(s) && SomeoneAlive(s)
  {
    var start := Init(workers, capacity, limit);
    OccupyAll(start, capacity);
    var full := Run(start, Occupied(capacity));
    var back := FIRST_POLL + (WAKER_KEPT + REFUSED_WAKE);
    RefusedRun(full);
    RunConcat(start, Occupied(capacity), back);
    events := Occupied(capacity) + back;
    var s := Run(start, events);
    hide Run, Apply;
    QuietIsRest(s);
    SumZero(s.workers, Committed());
    assert Alive(s.workers[0]);
  }

  lemma QuietIsRest(s: State)
    requires (forall w :: 0 <= w < |s.workers| ==> Idle(s.workers[w])) && s.msgs == 0 && s.sending == 0
    ensures AtRest(s)
  {
  }

  const FIRST_POLL := [Receive(0, true), Begin(0), Try(0)]
  const WAKER_KEPT := [CloneInPoll(0), PollReturns(0, false), Unlock(0), DropWaker(0)]
  const REFUSED_WAKE := [Wake, DeliverRefused]

  lemma RefusedRun(s: State)
    requires |s.workers| > 0 && s.workers == seq(|s.workers|, _ => Away) && !s.locked && s.msgs == 1 && s.spawned
    requires s.wakers == 0 && s.sending == 0 && s.others >= s.capacity
    ensures var end := Run(s, FIRST_POLL + (WAKER_KEPT + REFUSED_WAKE));
            end.workers == s.workers && end.msgs == 0 && end.sending == 0 && end.seen < end.wakes
  {
    hide Apply, FIRST_POLL, WAKER_KEPT, REFUSED_WAKE;
    var polled := PolledOnce(s);
    RunConcat(s, FIRST_POLL, WAKER_KEPT + REFUSED_WAKE);
    var kept := KeptWaker(polled);
    RunConcat(polled, WAKER_KEPT, REFUSED_WAKE);
    assert kept.workers == s.workers;
    WakeRefused(kept);
  }

  lemma PolledOnce(s: State) returns (end: State)
    requires |s.workers| > 0 && s.workers[0] == Away && !s.locked && s.msgs == 1 && s.spawned && s.wakers == 0
    ensures end == Run(s, FIRST_POLL)
    ensures end.workers == s.workers[0 := Polling] && end.msgs == 0 && !end.spawned && end.seen == end.wakes
    ensures end.wakers == 0 && end.sending == s.sending && end.others == s.others && end.capacity == s.capacity
  {
    hide OutsideAct, Full;
    RunOne(s, Receive(0, true), [Begin(0), Try(0)]);
    var s1 := Apply(s, Receive(0, true));
    RunOne(s1, Begin(0), [Try(0)]);
    var s2 := Apply(s1, Begin(0));
    RunOne(s2, Try(0), []);
    end := Apply(s2, Try(0));
    assert Run(end, []) == end;
  }

  lemma KeptWaker(s: State) returns (end: State)
    requires At(s, 0, Polling)
    ensures end == Run(s, WAKER_KEPT)
    ensures end == s.(workers := s.workers[0 := Away], wakers := s.wakers + 1, locked := false)
  {
    hide OutsideAct, Full;
    RunOne(s, CloneInPoll(0), [PollReturns(0, false), Unlock(0), DropWaker(0)]);
    var s1 := Apply(s, CloneInPoll(0));
    RunOne(s1, PollReturns(0, false), [Unlock(0), DropWaker(0)]);
    var s2 := Apply(s1, PollReturns(0, false));
    RunOne(s2, Unlock(0), [DropWaker(0)]);
    var s3 := Apply(s2, Unlock(0));
    RunOne(s3, DropWaker(0), []);
    end := Apply(s3, DropWaker(0));
    assert end.workers == s.workers[0 := Away];
    assert Run(end, []) == end;
  }

  lemma WakeRefused(s: State)
    requires s.wakers > 0 && s.sending == 0 && Full(s) && s.seen <= s.wakes
    ensures var end := Run(s, REFUSED_WAKE);
            end.workers == s.workers && end.msgs == s.msgs && end.sending == 0 && end.seen < end.wakes
  {
    RunOne(s, Wake, [DeliverRefused]);
    RunOne(Apply(s, Wake), DeliverRefused, []);
    assert Run(Apply(Apply(s, Wake), DeliverRefused), []) == Apply(Apply(s, Wake), DeliverRefused);
  }

  ghost predicate NoWake(events: seq<Event>) {
    forall e :: e in events ==> !e.WakeInPoll? && !e.WakeByRef? && !e.Wake?
  }

  lemma LostStep(s: State, e: Event)
    requires !Covered(s) && !e.WakeInPoll? && !e.WakeByRef? && !e.Wake?
    ensures Apply(s, e).seen == s.seen && !Covered(Apply(s, e))
  {
    if WorkerOf(e).Some? {
      if e.w < |s.workers| {
        SumAtLeast(s.workers, e.w, Committed());
        WorkerMoves(s, e, e.w);
        LostWorker(s, e, e.w);
        SumUpdate(s.workers, e.w, Apply(s, e).workers[e.w], Committed());
        hide Apply;
      }
      hide OutsideAct;
    } else {
      hide WorkerAct;
    }
  }

  lemma LostWorker(s: State, e: Event, w: nat)
    requires WorkerOf(e) == Some(w) && w < |s.workers| && !e.WakeInPoll? && s.msgs == 0 && Committed()(s.workers[w]) == 0
    ensures var s' := Apply(s, e);
            && s'.seen == s.seen && s'.wakes == s.wakes && s'.msgs == 0 && s'.sending == s.sending
            && Committed()(s'.workers[w]) == 0
  {
    hide OutsideAct;
  }

  /** A lost wake stays unserved until somebody wakes the future again. */
  lemma {:induction false} LostForGood(s: State, events: seq<Event>)
    requires !Covered(s) && NoWake(events)
    ensures Run(s, events).seen == s.seen && !Covered(Run(s, events))
    decreases |events|
  {
    hide Apply, Covered;
    if events != [] {
      assert events[0] in events;
      LostStep(s, events[0]);
      LostForGood(Apply(s, events[0]), events[1..]);
    }
  }

  /** Neither a worker nor a wake call on its way can do anything more. */
  ghost predicate AtRest(s: State) {
    forall e: Event :: e.Deliver? || e.DeliverRefused? || (WorkerOf(e).Some? && !e.CloneInPoll? && !e.WakeInPoll?) ==> Apply(s, e) == s
  }

  /** When the pool has come to rest with a thread left, no message is queued and no worker holds
      the future; and the latest poll began after the latest wake, unless a full queue has refused
      a message since. */
  lemma RestIsPolled(workers: nat, capacity: nat, limit: nat, events: seq<Event>)
    requires AtRest(Run(Init(workers, capacity, limit), events)) && SomeoneAlive(Run(Init(workers, capacity, limit), events))
    ensures var s := Run(Init(workers, capacity, limit), events);
            && s.msgs == 0 && (forall w :: 0 <= w < |s.workers| ==> Idle(s.workers[w]))
            && (s.seen == s.wakes || s.lost > 0)
            && (NoneRefused(events) ==> s.seen == s.wakes)
  {
    InitInv(workers, capacity, limit);
    RunInv(Init(workers, capacity, limit), events);
    if NoneRefused(events) { NothingLost(Init(workers, capacity, limit), events); }
    RestCovered(Run(Init(workers, capacity, limit), events));
  }

  lemma RestCovered(s: State)
    requires WakeKept(s) && AtRest(s) && SomeoneAlive(s)
    ensures s.msgs == 0 && (forall w :: 0 <= w < |s.workers| ==> Idle(s.workers[w])) && (s.seen == s.wakes || s.lost > 0)
  {
    forall w | 0 <= w < |s.workers| ensures Idle(s.workers[w]) {
      RestWorker(s, w);
    }
    var w :| 0 <= w < |s.workers| && Alive(s.workers[w]);
    NothingInFlight(s, w);
    hide AtRest;
    SumZero(s.workers, Committed());
  }

  lemma NothingInFlight(s: State, w: nat)
    requires AtRest(s) && w < |s.workers| && s.workers[w] == Away
    ensures s.msgs == 0 && s.sending == 0
  {
    assert Apply(s, Deliver).sending == s.sending;
    assert Apply(s, DeliverRefused).sending == s.sending;
    assert Apply(s, Receive(w, s.spawned)).workers[w] == s.workers[w];
  }

  /** What a worker with the future in its hands does next. */
  function NextStep(s: State, w: nat): Event
    requires w < |s.workers|
  {
    match s.workers[w]
    case Holding => Begin(w)
    case Trying => Try(w)
    case Polling => PollReturns(w, false)
    case Unlocking => Unlock(w)
    case Contended => Retry(w)
    case Resending => if Full(s) then Refused(w) else Resend(w)
    case _ => DropWaker(w)
  }

  lemma StepMoves(s: State, w: nat)
    requires w < |s.workers| && !Idle(s.workers[w])
    ensures Apply(s, NextStep(s, w)).workers[w] != s.workers[w]
  {
    hide OutsideAct;
  }

  lemma RestWorker(s: State, w: nat)
    requires AtRest(s) && w < |s.workers|
    ensures Idle(s.workers[w])
  {
    hide Apply;
    if !Idle(s.workers[w]) { StepMoves(s, w); }
  }

  // After a poll has panicked.

  /** The thread of a poll that panicked has left the lock taken. */
  ghost predicate SomePoisoned(s: State) {
    exists w :: 0 <= w < |s.workers| && s.workers[w] == Poisoned
  }

  lemma OnlyPoisoned(s: State, w: nat, v: nat)
    requires LockHeld(s) && w < |s.workers| && v < |s.workers| && w != v && s.workers[w] == Poisoned
    ensures s.locked && s.workers[v] != Polling && s.workers[v] != Unlocking && s.workers[v] != Poisoned
  {
    if v < w { SumAtLeastTwo(s.workers, v, w, InLock()); } else { SumAtLeastTwo(s.workers, w, v, InLock()); }
  }

  lemma PoisonedKept(s: State, e: Event, w: nat)
    requires LockHeld(s) && At(s, w, Poisoned)
    ensures var s' := Apply(s, e);
            && LockHeld(s') && At(s', w, Poisoned) && s'.seen == s.seen
            && (!e.Refused? ==> forall v :: 0 <= v < |s.workers| && Alive(s.workers[v]) ==> Alive(s'.workers[v]))
  {
    LockKept(s, e);
    SumAtLeast(s.workers, w, InLock());
    if WorkerOf(e).Some? {
      if e.w < |s.workers| {
        if e.w != w { OnlyPoisoned(s, w, e.w); }
        LockedOut(s, e, e.w);
      }
      hide OutsideAct;
    } else {
      hide WorkerAct;
    }
    hide LockHeld;
  }

  /** No worker gets past a lock that stays taken. */
  lemma LockedOut(s: State, e: Event, w: nat)
    requires WorkerOf(e) == Some(w) && w < |s.workers| && s.locked && !s.workers[w].Polling? && !s.workers[w].Unlocking?
    ensures var s' := Apply(s, e);
            && s'.seen == s.seen && s'.workers == s.workers[w := s'.workers[w]]
            && (s.workers[w].Poisoned? ==> s'.workers[w].Poisoned?)
            && (!e.Refused? && Alive(s.workers[w]) ==> Alive(s'.workers[w]))
  {
    hide OutsideAct;
  }

  lemma {:induction false} PoisonedRun(s: State, events: seq<Event>, w: nat)
    requires LockHeld(s) && At(s, w, Poisoned)
    ensures LockHeld(Run(s, events)) && At(Run(s, events), w, Poisoned) && Run(s, events).seen == s.seen
    decreases |events|
  {
    if events != [] {
      PoisonedKept(s, events[0], w);
      PoisonedRun(Apply(s, events[0]), events[1..], w);
    }
  }

  /** Once a poll has panicked, with the lock held, no poll of the future ever begins again, and the thread is gone. */
  lemma PanickedIsNeverPolled(workers: nat, capacity: nat, limit: nat, before: seq<Event>, w: nat, after: seq<Event>)
    requires At(Run(Init(workers, capacity, limit), before), w, Polling)
    ensures var s := Apply(Run(Init(workers, capacity, limit), before), PollPanics(w)); var t := Run(s, after);
            && t.seen == s.seen && t.locked && At(t, w, Poisoned)
            && forall v :: 0 <= v < |t.workers| ==> t.workers[v] != Polling
  {
    InitInv(workers, capacity, limit);
    RunInv(Init(workers, capacity, limit), before);
    var s0 := Run(Init(workers, capacity, limit), before);
    var s := Apply(s0, PollPanics(w));
    LockKept(s0, PollPanics(w));
    PoisonedRun(s, after, w);
    var t := Run(s, after);
    SumAtLeast(t.workers, w, InLock());
    forall v | 0 <= v < |t.workers| ensures t.workers[v] != Polling {
      if v != w { OnlyPoisoned(t, w, v); }
    }
  }

  /** With the lock gone for good, a message is only passed on: received, found locked out, sent again. */
  lemma PassedOn(s: State, e: Event, w: nat)
    requires LockHeld(s) && At(s, w, Poisoned) && !e.Refused? && !e.DeliverRefused?
    ensures Carriers(Apply(s, e)) >= Carriers(s)
  {
    SumAtLeast(s.workers, w, InLock());
    if WorkerOf(e).Some? && e.w < |s.workers| {
      if e.w != w { OnlyPoisoned(s, w, e.w); }
      SumUpdate(s.workers, e.w, Apply(s, e).workers[e.w], Committed());
      HandedOn(s, e, e.w);
      hide Apply;
    }
  }

  lemma HandedOn(s: State, e: Event, w: nat)
    requires WorkerOf(e) == Some(w) && w < |s.workers| && !e.Refused? && s.locked && !s.workers[w].Polling?
    ensures var s' := Apply(s, e);
            && s'.workers == s.workers[w := s'.workers[w]]
            && s'.sending + s'.msgs + Committed()(s'.workers[w]) == s.sending + s.msgs + Committed()(s.workers[w])
  {
    match e
    case Receive(_, _) =>
    case Try(_) =>
    case Retry(_) =>
    case Resend(_) =>
    case _ =>
  }

  lemma {:induction false} NeverRests(s: State, events: seq<Event>, w: nat)
    requires LockHeld(s) && At(s, w, Poisoned) && SomeoneAlive(s) && Carriers(s) > 0 && NoneRefused(events)
    ensures !AtRest(Run(s, events))
    decreases |events|
  {
    if events == [] {
      if AtRest(s) { RestIsEmpty(s); }
    } else {
      assert events[0] in events;
      PoisonedKept(s, events[0], w);
      PassedOn(s, events[0], w);
      var v :| 0 <= v < |s.workers| && Alive(s.workers[v]);
      assert Alive(Apply(s, events[0]).workers[v]);
      NeverRests(Apply(s, events[0]), events[1..], w);
    }
  }

  lemma RestIsEmpty(s: State)
    requires AtRest(s) && SomeoneAlive(s)
    ensures Carriers(s) == 0
  {
    forall w | 0 <= w < |s.workers| ensures Idle(s.workers[w]) { RestWorker(s, w); }
    var w :| 0 <= w < |s.workers| && Alive(s.workers[w]);
    NothingInFlight(s, w);
    SumZero(s.workers, Committed());
  }

  lemma DropOne(s: State, g: nat, w: nat)
    requires LockHeld(s) && At(s, w, Poisoned) && Carriers(s) == 0 && g < |s.workers|
    ensures var s' := Apply(s, DropWaker(g));
            && LockHeld(s') && At(s', w, Poisoned) && Carriers(s') == 0 && Idle(s'.workers[g])
            && forall v :: 0 <= v < |s.workers| && v != g ==> s'.workers[v] == s.workers[v]
  {
    if g != w { OnlyPoisoned(s, w, g); }
    SumAtLeast(s.workers, g, Committed());
    PoisonedKept(s, DropWaker(g), w);
    SumUpdate(s.workers, g, Apply(s, DropWaker(g)).workers[g], Committed());
  }

  /** The workers from g on that are about to drop their waker do so. */
  lemma {:induction false} DropAll(s: State, g: nat, w: nat) returns (events: seq<Event>)
    requires LockHeld(s) && At(s, w, Poisoned) && Carriers(s) == 0 && g <= |s.workers|
    requires forall v :: 0 <= v < g ==> Idle(s.workers[v])
    ensures NoneRefused(events) && AtRest(Run(s, events))
    decreases |s.workers| - g
  {
    if g == |s.workers| {
      events := [];
      QuietIsRest(s);
    } else {
      DropOne(s, g, w);
      hide Apply, AtRest, Carriers;
      var rest := DropAll(Apply(s, DropWaker(g)), g + 1, w);
      RunOne(s, DropWaker(g), rest);
      events := [DropWaker(g)] + rest;
    }
  }

  /** After a panic, and as long as no send is refused, the threads left can come to rest exactly if nothing
      leads to an attempt to poll: otherwise they pass the message on for ever. */
  lemma PanickedRestRule(workers: nat, capacity: nat, limit: nat, before: seq<Event>)
    requires var s := Run(Init(workers, capacity, limit), before); SomePoisoned(s) && SomeoneAlive(s)
    ensures var s := Run(Init(workers, capacity, limit), before);
            (exists after :: NoneRefused(after) && AtRest(Run(s, after))) <==> Carriers(s) == 0
  {
    InitInv(workers, capacity, limit);
    RunInv(Init(workers, capacity, limit), before);
    var s := Run(Init(workers, capacity, limit), before);
    var w: nat :| w < |s.workers| && s.workers[w] == Poisoned;
    if Carriers(s) == 0 {
      var after := DropAll(s, 0, w);
    } else {
      forall after | NoneRefused(after) ensures !AtRest(Run(s, after)) { NeverRests(s, after, w); }
    }
  }
}
