/** One future on the pool: its lock, its wakers and its reference count, with any number of
    workers, any use of the wakers by the outside, and a queue for woken futures that it shares with
    others.  Work messages are delivered one by one, as the channel does. */
module OurFuture {
  import opened Counting

  /** Where a worker is with this future's Work message. */
  datatype Place =
    | Away
    | Holding                    // received the message
    | Trying                     // the message has become a waker; about to compare-exchange the lock
    | Polling                    // inside the underlying poll
    | Unlocking                  // the underlying poll has returned
    | Contended                  // the lock was taken; about to wake_by_ref
    | Resending                  // wake_by_ref has its own reference; about to send
    | Dropping                   // about to drop the waker
    | Poisoned                   // the underlying poll has panicked: the thread is gone, the lock stays taken
    | Dead                       // the thread is gone: its send found the queue full

  /** `msgs` counts the future's Work messages in the channel: the one it was spawned with, on level 1,
      as long as `spawned` says so, and those of its wakes, on level 0.  `others` counts what else is on
      level 0, of which there is never more than `limit`.  `wakers` are the wakers held outside,
      `sending` the wake calls that have their reference and not yet sent.  Histories: `wakes`, the
      wake calls begun (the spawn counts as one); `seen`, those begun before the latest underlying poll
      began; `lost`, the messages refused by a full queue since then; `ready`, whether the underlying
      future has returned Ready; `repolled`, whether it was polled after that. */
  datatype State = State(
    locked: bool, strong: int, msgs: nat, wakers: nat, sending: nat, workers: seq<Place>,
    spawned: bool, others: nat, limit: nat, capacity: nat,
    wakes: nat, seen: nat, lost: nat, ready: bool, repolled: bool)

  /** A worker receives the spawned message or one of a wake.  Refused and DeliverRefused are sends that
      panic because the queue is full; Occupy and Vacate are the others' messages coming and going. */
  datatype Event =
    | Receive(w: nat, first: bool) | Begin(w: nat) | Try(w: nat)
    | CloneInPoll(w: nat) | WakeInPoll(w: nat) | PollReturns(w: nat, isReady: bool) | PollPanics(w: nat)
    | Unlock(w: nat) | Retry(w: nat) | Resend(w: nat) | Refused(w: nat) | DropWaker(w: nat)
    | CloneOutside | WakeByRef | Wake | DropOutside | Deliver | DeliverRefused
    | Occupy | Vacate

  /** spawn: one message holds the only reference. */
  function Init(workers: nat, capacity: nat, limit: nat): State {
    State(false, 1, 1, 0, 0, seq(workers, _ => Away), true, 0, limit, capacity, 1, 0, 0, false, false)
  }

  /** The future's messages on level 0. */
  function Own(s: State): int {
    s.msgs - if s.spawned then 1 else 0
  }

  predicate Full(s: State) {
    Own(s) + s.others >= s.capacity
  }

  predicate At(s: State, w: nat, p: Place) {
    w < |s.workers| && s.workers[w] == p
  }

  function WorkerOf(e: Event): Option<nat> {
    match e
    case CloneOutside => None
    case WakeByRef => None
    case Wake => None
    case DropOutside => None
    case Deliver => None
    case DeliverRefused => None
    case Occupy => None
    case Vacate => None
    case _ => Some(e.w)
  }

  /** A step of a worker. */
  function WorkerAct(s: State, e: Event): (r: State)
    ensures |r.workers| == |s.workers|
  {
    match e
    case Receive(w, first) =>
      if At(s, w, Away) && s.msgs > 0 && (if first then s.spawned else Own(s) > 0)
      then s.(workers := s.workers[w := Holding], msgs := s.msgs - 1, spawned := s.spawned && !first) else s
    case Begin(w) => if At(s, w, Holding) then s.(workers := s.workers[w := Trying]) else s
    case Try(w) =>
      if !At(s, w, Trying) then s
      else if s.locked then s.(workers := s.workers[w := Contended])
      else s.(workers := s.workers[w := Polling], locked := true, seen := s.wakes, lost := 0, repolled := s.repolled || s.ready)
    case CloneInPoll(w) => if At(s, w, Polling) then s.(strong := s.strong + 1, wakers := s.wakers + 1) else s
    case WakeInPoll(w) =>
      if At(s, w, Polling) then s.(strong := s.strong + 1, sending := s.sending + 1, wakes := s.wakes + 1) else s
    case PollReturns(w, isReady) => if At(s, w, Polling) then s.(workers := s.workers[w := Unlocking], ready := s.ready || isReady) else s
    case PollPanics(w) => if At(s, w, Polling) then s.(workers := s.workers[w := Poisoned], strong := s.strong - 1) else s
    case Unlock(w) => if At(s, w, Unlocking) then s.(workers := s.workers[w := Dropping], locked := false) else s
    case Retry(w) =>
      if At(s, w, Contended) then s.(workers := s.workers[w := Resending], strong := s.strong + 1, wakes := s.wakes + 1) else s
    case Resend(w) => if At(s, w, Resending) && !Full(s) then s.(workers := s.workers[w := Dropping], msgs := s.msgs + 1) else s
    case Refused(w) =>
      if At(s, w, Resending) && Full(s) then s.(workers := s.workers[w := Dead], strong := s.strong - 2, lost := s.lost + 1) else s
    case DropWaker(w) => if At(s, w, Dropping) then s.(workers := s.workers[w := Away], strong := s.strong - 1) else s
    case _ => s
  }

  /** A use of a waker, a send on its way, or a move of the others. */
  function OutsideAct(s: State, e: Event): (r: State)
    ensures |r.workers| == |s.workers|
  {
    match e
    case CloneOutside => if s.wakers > 0 then s.(strong := s.strong + 1, wakers := s.wakers + 1) else s
    case WakeByRef =>
      if s.wakers > 0 then s.(strong := s.strong + 1, sending := s.sending + 1, wakes := s.wakes + 1) else s
    case Wake => if s.wakers > 0 then s.(wakers := s.wakers - 1, sending := s.sending + 1, wakes := s.wakes + 1) else s
    case DropOutside => if s.wakers > 0 then s.(wakers := s.wakers - 1, strong := s.strong - 1) else s
    case Deliver => if s.sending > 0 && !Full(s) then s.(sending := s.sending - 1, msgs := s.msgs + 1) else s
    case DeliverRefused =>
      if s.sending > 0 && Full(s) then s.(sending := s.sending - 1, strong := s.strong - 1, lost := s.lost + 1) else s
    case Occupy => if s.others < s.limit && !Full(s) then s.(others := s.others + 1) else s
    case Vacate => if s.others > 0 then s.(others := s.others - 1) else s
    case _ => s
  }

  function Apply(s: State, e: Event): (r: State)
    ensures |r.workers| == |s.workers|
  {
    if WorkerOf(e).Some? then WorkerAct(s, e) else OutsideAct(s, e)
  }

  function Run(s: State, events: seq<Event>): (r: State)
    ensures |r.workers| == |s.workers|
    decreases |events|
  {
    if events == [] then s else Run(Apply(s, events[0]), events[1..])
  }

  /** Away, or gone for good: nothing of this future in the worker's hands. */
  predicate Idle(p: Place) {
    p.Away? || p.Poisoned? || p.Dead?
  }

  predicate Alive(p: Place) {
    !p.Poisoned? && !p.Dead?
  }

  /** The references a worker owns. */
  ghost function Refs(): Place -> nat {
    (p: Place) => if Idle(p) then 0 else if p.Resending? then 2 else 1
  }

  ghost function InLock(): Place -> nat {
    (p: Place) => if p.Polling? || p.Unlocking? || p.Poisoned? then 1 else 0
  }

  /** A worker that will poll the future or send its message again. */
  ghost function Committed(): Place -> nat {
    (p: Place) => if p.Holding? || p.Trying? || p.Contended? || p.Resending? then 1 else 0
  }

  ghost predicate CountsOwners(s: State) {
    s.strong == s.wakers + s.sending + s.msgs + Sum(s.workers, Refs())
  }

  ghost predicate LockHeld(s: State) {
    Sum(s.workers, InLock()) == (if s.locked then 1 else 0)
  }

  /** What will still lead to an attempt to poll. */
  ghost function Carriers(s: State): nat {
    s.sending + s.msgs + Sum(s.workers, Committed())
  }

  /** A wake that no poll began after has something to serve it. */
  ghost predicate Covered(s: State) {
    s.seen < s.wakes ==> Carriers(s) > 0
  }

  /** Refused messages are the only wakes not covered. */
  ghost predicate WakeKept(s: State) {
    && s.seen <= s.wakes
    && (Covered(s) || s.lost > 0)
  }

  ghost predicate QueueOk(s: State) {
    (s.spawned ==> s.msgs > 0) && s.others <= s.limit && Own(s) + s.others <= s.capacity
  }

  ghost predicate Inv(s: State) {
    CountsOwners(s) && LockHeld(s) && WakeKept(s) && QueueOk(s)
  }

  lemma InitInv(workers: nat, capacity: nat, limit: nat)
    ensures Inv(Init(workers, capacity, limit))
  {
    SumZero(Init(workers, capacity, limit).workers, Refs());
    SumZero(Init(workers, capacity, limit).workers, InLock());
  }

  lemma OwnersKept(s: State, e: Event)
    requires CountsOwners(s)
    ensures CountsOwners(Apply(s, e))
  {
    if WorkerOf(e).Some? && e.w < |s.workers| {
      WorkerMoves(s, e, e.w);
      WorkerOwns(s, e, e.w);
      SumUpdate(s.workers, e.w, Apply(s, e).workers[e.w], Refs());
      hide Apply;
    }
  }

  lemma WorkerMoves(s: State, e: Event, w: nat)
    requires WorkerOf(e) == Some(w) && w < |s.workers|
    ensures Apply(s, e).workers == s.workers[w := Apply(s, e).workers[w]]
  {
    hide OutsideAct;
  }

  /** References that are not accounted for outside the workers. */
  ghost function Unowned(s: State): int {
    s.strong - s.wakers - s.sending - s.msgs
  }

  /** Up to and inside the poll, and after it. */
  predicate BeforeReturn(e: Event) {
    e.Receive? || e.Begin? || e.Try? || e.CloneInPoll? || e.WakeInPoll?
  }

  lemma OwnsBefore(s: State, e: Event, w: nat)
    requires WorkerOf(e) == Some(w) && w < |s.workers| && BeforeReturn(e)
    ensures Unowned(Apply(s, e)) == Unowned(s) + Refs()(Apply(s, e).workers[w]) - Refs()(s.workers[w])
  {
    hide OutsideAct;
  }

  lemma OwnsAtEnd(s: State, e: Event, w: nat)
    requires WorkerOf(e) == Some(w) && w < |s.workers| && (e.PollReturns? || e.PollPanics? || e.Unlock? || e.DropWaker?)
    ensures Unowned(Apply(s, e)) == Unowned(s) + Refs()(Apply(s, e).workers[w]) - Refs()(s.workers[w])
  {
    hide OutsideAct;
  }

  lemma OwnsOnRetry(s: State, e: Event, w: nat)
    requires WorkerOf(e) == Some(w) && w < |s.workers| && (e.Retry? || e.Resend? || e.Refused?)
    ensures Unowned(Apply(s, e)) == Unowned(s) + Refs()(Apply(s, e).workers[w]) - Refs()(s.workers[w])
  {
    hide OutsideAct, Full;
  }

  /** A worker's step moves the count by the references it gains or loses, or hands on. */
  lemma WorkerOwns(s: State, e: Event, w: nat)
    requires WorkerOf(e) == Some(w) && w < |s.workers|
    ensures Unowned(Apply(s, e)) == Unowned(s) + Refs()(Apply(s, e).workers[w]) - Refs()(s.workers[w])
  {
    if e.Retry? || e.Resend? || e.Refused? { OwnsOnRetry(s, e, w); }
    else if BeforeReturn(e) { OwnsBefore(s, e, w); }
    else { OwnsAtEnd(s, e, w); }
    hide Apply, Unowned;
  }

  lemma LockKept(s: State, e: Event)
    requires LockHeld(s)
    ensures LockHeld(Apply(s, e))
  {
    if WorkerOf(e).Some? && e.w < |s.workers| {
      SumUpdate(s.workers, e.w, Apply(s, e).workers[e.w], InLock());
      SumAtLeast(s.workers, e.w, InLock());
    }
  }

  lemma WakesKept(s: State, e: Event)
    requires WakeKept(s)
    ensures WakeKept(Apply(s, e))
  {
    if WorkerOf(e).Some? && e.w < |s.workers| {
      SumUpdate(s.workers, e.w, Apply(s, e).workers[e.w], Committed());
      SumAtLeast(s.workers, e.w, Committed());
    }
  }

  lemma ApplyInv(s: State, e: Event)
    requires Inv(s)
    ensures Inv(Apply(s, e))
  {
    hide Apply;
    OwnersKept(s, e);
    LockKept(s, e);
    WakesKept(s, e);
    QueueKept(s, e);
  }

  lemma WorkerQueues(s: State, e: Event)
    requires QueueOk(s) && WorkerOf(e).Some?
    ensures QueueOk(Apply(s, e))
  {
    match e
    case Receive(_, _) =>
    case Resend(_) =>
    case _ =>
  }

  lemma BoundsStay(s: State, e: Event)
    ensures Apply(s, e).capacity == s.capacity && Apply(s, e).limit == s.limit
  {
    match e
    case Receive(_, _) =>
    case Try(_) =>
    case CloneInPoll(_) =>
    case WakeInPoll(_) =>
    case PollReturns(_, _) =>
    case PollPanics(_) =>
    case Unlock(_) =>
    case Retry(_) =>
    case Resend(_) =>
    case Refused(_) =>
    case DropWaker(_) =>
    case _ =>
  }

  lemma QueueKept(s: State, e: Event)
    requires QueueOk(s)
    ensures QueueOk(Apply(s, e)) && Apply(s, e).capacity == s.capacity && Apply(s, e).limit == s.limit
  {
    BoundsStay(s, e);
    if WorkerOf(e).Some? {
      WorkerQueues(s, e);
      hide Apply;
    }
  }

  lemma {:induction false} RunInv(s: State, events: seq<Event>)
    requires Inv(s)
    ensures Inv(Run(s, events))
    decreases |events|
  {
    if events != [] {
      ApplyInv(s, events[0]);
      RunInv(Apply(s, events[0]), events[1..]);
    }
  }

  lemma {:induction false} RunQueue(s: State, events: seq<Event>)
    requires QueueOk(s)
    ensures var s' := Run(s, events); QueueOk(s') && s'.capacity == s.capacity && s'.limit == s.limit
    decreases |events|
  {
    if events != [] {
      QueueKept(s, events[0]);
      RunQueue(Apply(s, events[0]), events[1..]);
    }
  }

  /** At most one worker is ever inside the underlying future's poll, and only under the lock. */
  lemma OnePoller(workers: nat, capacity: nat, limit: nat, events: seq<Event>, u: nat, v: nat)
    requires At(Run(Init(workers, capacity, limit), events), u, Polling) && At(Run(Init(workers, capacity, limit), events), v, Polling)
    ensures u == v && Run(Init(workers, capacity, limit), events).locked
  {
    InitInv(workers, capacity, limit);
    RunInv(Init(workers, capacity, limit), events);
    var s := Run(Init(workers, capacity, limit), events);
    SumAtLeast(s.workers, u, InLock());
    if u < v { SumAtLeastTwo(s.workers, u, v, InLock()); }
    if v < u { SumAtLeastTwo(s.workers, v, u, InLock()); }
  }

  /** The reference count is the number of owners, so the future is released exactly when no
      waker, message or worker can reach it any more. */
  lemma ReleasedIsUnreachable(workers: nat, capacity: nat, limit: nat, events: seq<Event>)
    ensures var s := Run(Init(workers, capacity, limit), events);
            && s.strong >= 0
            && (s.strong == 0 <==> s.wakers == 0 && s.sending == 0 && s.msgs == 0
                                   && forall w :: 0 <= w < |s.workers| ==> Idle(s.workers[w]))
  {
    InitInv(workers, capacity, limit);
    RunInv(Init(workers, capacity, limit), events);
    var s := Run(Init(workers, capacity, limit), events);
    if Sum(s.workers, Refs()) == 0 {
      forall w | 0 <= w < |s.workers| ensures Idle(s.workers[w]) { SumAtLeast(s.workers, w, Refs()); }
    }
    if forall w :: 0 <= w < |s.workers| ==> Idle(s.workers[w]) {
      SumZero(s.workers, Refs());
    }
  }

  /** A clone of a waker is one more owner, and dropping it undoes it: the future is never released in between. */
  lemma CloneIsDropped(s: State)
    requires Inv(s) && s.wakers > 0
    ensures var t := Apply(s, CloneOutside); t.wakers == s.wakers + 1 && Apply(t, DropOutside) == s && Apply(s, DropOutside).wakers == s.wakers - 1
    ensures Apply(s, CloneOutside).strong > 1
  {
    WakersOwn(s);
  }

  lemma WakersOwn(s: State)
    requires Inv(s)
    ensures s.strong >= s.wakers
  {
    assert s.msgs >= 0 && s.sending >= 0;
  }

  /** When nothing but wakers reaches the future, dropping them releases it. */
  lemma {:induction false} DroppingReleases(s: State) returns (events: seq<Event>)
    requires Inv(s) && s.sending == 0 && s.msgs == 0 && forall w :: 0 <= w < |s.workers| ==> Idle(s.workers[w])
    ensures |events| == s.wakers && Run(s, events) == s.(wakers := 0, strong := 0)
    decreases s.wakers
  {
    SumZero(s.workers, Refs());
    if s.wakers == 0 {
      events := [];
    } else {
      var rest := DroppingReleases(Apply(s, DropOutside));
      events := [DropOutside] + rest;
      assert events[1..] == rest;
    }
  }

  ghost predicate SomeoneAlive(s: State) {
    exists w :: 0 <= w < |s.workers| && Alive(s.workers[w])
  }

  lemma RunOne(s: State, e: Event, rest: seq<Event>)
    ensures Run(s, [e] + rest) == Run(Apply(s, e), rest)
  {
    assert ([e] + rest)[1..] == rest;
  }

  lemma {:induction false} RunConcat(s: State, a: seq<Event>, b: seq<Event>)
    ensures Run(s, a + b) == Run(Run(s, a), b)
    decreases |a|
  {
    if a == [] {
      assert a + b == b;
    } else {
      assert (a + b)[1..] == a[1..] + b;
      RunConcat(Apply(s, a[0]), a[1..], b);
    }
  }
}
