/** How many jobs one set may have: the spawning loop asserts that every push succeeds, and nothing
    makes it wait for the workers.  What others put on the same level counts too. */
module SetSyncCapacity {
  import opened Counting
  import opened Words
  import opened Channel
  import CS = ChannelSafety
  import opened SetSync
  import opened SetSyncSafety
  import opened SetSyncTheorems

  /** How many sends to the jobs' level the others begin. */
  ghost function Burden(events: seq<Event>): nat {
    if events == [] then 0
    else (if events[0].OutCall? && events[0].level == JOB_LEVEL then 1 else 0) + Burden(events[1..])
  }

  /** About to push something foreign on the jobs' level. */
  ghost function ForeignPush(): Pc<Message> -> nat {
    (pc: Pc<Message>) => if pc.Pushing? && pc.level == JOB_LEVEL && !pc.message.Job? then 1 else 0
  }

  // Enough room: what was ever pushed on the level is the jobs sent and what the others have begun to send.

  ghost predicate Burdened<O>(c: Work<O>, s: System<O>, burden: nat)
    requires WellSized(c, s)
  {
    |s.chan.pushed[JOB_LEVEL]| + Sum(s.chan.pc, ForeignPush()) <= Sent(c, s) + burden
  }

  /** A channel step of thread t other than the future's own push. */
  lemma StepBurden(chan: Channel.State<Message>, t: nat)
    requires Channel.Shaped(chan) && |chan.queue| == LEVELS && t < |chan.pc|
    requires chan.pc[t].Pushing? ==> !chan.pc[t].message.Job?
    ensures var next := Advance(chan, t);
            |next.pushed[JOB_LEVEL]| + Sum(next.pc, ForeignPush()) <= |chan.pushed[JOB_LEVEL]| + Sum(chan.pc, ForeignPush())
  {
    var next := Advance(chan, t);
    SumUpdate(chan.pc, t, next.pc[t], ForeignPush());
    assert next == chan || next.pc == chan.pc[t := next.pc[t]];
  }

  lemma StartBurden(chan: Channel.State<Message>, t: nat, call: Call<Message>)
    requires Channel.Shaped(chan) && |chan.queue| == LEVELS
    ensures var next := Apply(chan, Start(t, call));
            && next.pushed == chan.pushed
            && Sum(next.pc, ForeignPush()) <=
                 Sum(chan.pc, ForeignPush()) + if call.Send? && call.level == JOB_LEVEL && !call.message.Job? then 1 else 0
  {
    if t < |chan.pc| { SumUpdate(chan.pc, t, Entry(call), ForeignPush()); }
  }

  lemma WorkerBurden<O>(c: Work<O>, s: System<O>, w: nat, burden: nat)
    requires WellSized(c, s) && Roles(c, s) && w < |s.worker| && Burdened(c, s, burden)
    ensures Burdened(c, WorkerStep(c, s, w), burden)
    ensures Sent(c, WorkerStep(c, s, w)) == Sent(c, s)
  {
    if !s.chan.pc[w].Ready? { StepBurden(s.chan, w); }
    StartBurden(s.chan, w, RecvImmediate(0));
    StartBurden(s.chan, w, RecvAll);
    WorkerChan(c, s, w);
    hide WorkerStep, Advance;
  }

  lemma WorkerChan<O>(c: Work<O>, s: System<O>, w: nat)
    requires WellSized(c, s) && Roles(c, s) && w < |s.worker|
    ensures var s' := WorkerStep(c, s, w);
            && s'.poller == s.poller && s'.chan.pc[PollerThread(s)] == s.chan.pc[PollerThread(s)]
            && (s'.chan == s.chan || s'.chan == Apply(s.chan, Start(w, RecvImmediate(0))) || s'.chan == Apply(s.chan, Start(w, RecvAll))
                || (!s.chan.pc[w].Ready? && !s.chan.pc[w].Pushing? && s'.chan == Advance(s.chan, w)))
  {
  }

  lemma PollBurden<O>(c: Work<O>, s: System<O>, burden: nat)
    requires Inv(c, s) && Burdened(c, s, burden)
    ensures Burdened(c, PollStep(c, s), burden)
  {
    hide CS.Inv, Taken, Written, Counted, WakeKept, Staffed, Tiles;
    var me := PollerThread(s);
    if s.poller.Sending? && !s.chan.pc[me].Ready? {
      var next := Advance(s.chan, me);
      assert PollStep(c, s) == s.(chan := next);
      SumUpdate(s.chan.pc, me, next.pc[me], ForeignPush());
    } else if s.poller.Spawning? && s.poller.next < |c.chunks| {
      StartBurden(s.chan, me, Send(Job(s.poller.next), JOB_LEVEL));
      hide Apply;
    } else {
      assert PollStep(c, s).chan == s.chan;
    }
  }

  lemma NextBurden<O>(c: Work<O>, s: System<O>, e: Event, burden: nat)
    requires Inv(c, s) && Burdened(c, s, burden)
    ensures Burdened(c, Next(c, s, e), burden + Burden([e]))
  {
    hide CS.Inv, Taken, Written, Counted, WakeKept, Staffed, Tiles, PollStep, WorkerStep, Lines, Apply;
    assert Burden([e]) == (if e.OutCall? && e.level == JOB_LEVEL then 1 else 0) + Burden([e][1..]);
    match e
    case Poll => PollBurden(c, s, burden);
    case Act(w) => if w < |s.worker| { WorkerBurden(c, s, w, burden); }
    case OutCall(k, idle, level) => OutCallBurden(c, s, k, Send(if idle then Idle else Foreign, level), burden);
    case OutStep(k) => OutStepBurden(c, s, k, burden);
    case _ =>
  }

  lemma OutCallBurden<O>(c: Work<O>, s: System<O>, k: nat, call: Call<Message>, burden: nat)
    requires WellSized(c, s) && Burdened(c, s, burden) && call.Send?
    ensures var s' := OutMove(s, Start(SenderThread(s, k), call));
            WellSized(c, s') && Burdened(c, s', burden + if call.level == JOB_LEVEL then 1 else 0)
  {
    StartBurden(s.chan, SenderThread(s, k), call);
  }

  lemma OutStepBurden<O>(c: Work<O>, s: System<O>, k: nat, burden: nat)
    requires WellSized(c, s) && Roles(c, s) && Burdened(c, s, burden)
    ensures Burdened(c, Next(c, s, OutStep(k)), burden)
  {
    var t := SenderThread(s, k);
    if t < |s.chan.pc| {
      assert SenderOk(s.chan.pc[t]);
      StepBurden(s.chan, t);
      assert Next(c, s, OutStep(k)).chan == Advance(s.chan, t);
      assert Advance(s.chan, t).pc[PollerThread(s)] == s.chan.pc[PollerThread(s)];
      hide Advance, Next;
    }
  }

  /** A push of the future finds room as long as the jobs and the burden fit. */
  lemma RoomLeft<O>(c: Work<O>, s: System<O>, e: Event, burden: nat)
    requires Inv(c, s) && Burdened(c, s, burden) && !SpawnPanics(s) && |c.chunks| + burden <= s.chan.capacity
    ensures !SpawnPanics(Next(c, s, e))
  {
    hide Taken, Written, Counted, WakeKept, Staffed, Tiles;
    var me := PollerThread(s);
    if e.Poll? {
      if s.poller.Sending? && !s.chan.pc[me].Ready? {
        QueueWithin(s.chan);
        hide CS.Inv;
        assert PollStep(c, s).chan == Advance(s.chan, me);
        hide Advance, PollStep;
        SendKeeps(c, s);
      }
    } else {
      hide CS.Inv;
      OthersLeavePoller(c, s, e);
    }
  }

  lemma QueueWithin(chan: Channel.State<Message>)
    requires CS.Inv(chan) && |chan.queue| == LEVELS
    ensures |chan.queue[JOB_LEVEL]| <= |chan.pushed[JOB_LEVEL]|
  {
    assert chan.pushed[JOB_LEVEL] == chan.popped[JOB_LEVEL] + chan.queue[JOB_LEVEL];
  }

  lemma OthersLeavePoller<O>(c: Work<O>, s: System<O>, e: Event)
    requires WellSized(c, s) && Roles(c, s) && !e.Poll?
    ensures Next(c, s, e).chan.pc[PollerThread(s)] == s.chan.pc[PollerThread(s)] && Next(c, s, e).chan.capacity == s.chan.capacity
  {
    if e.Act? {
      if e.worker < |s.worker| { WorkerChan(c, s, e.worker); }
      hide WorkerStep, Roles;
    } else {
      hide Roles;
    }
  }

  lemma CapacityStays<O>(c: Work<O>, s: System<O>)
    requires WellSized(c, s)
    ensures PollStep(c, s).chan.capacity == s.chan.capacity
  {
  }

  lemma {:induction false} FittingRun<O>(c: Work<O>, s: System<O>, events: seq<Event>, burden: nat)
    requires Inv(c, s) && Burdened(c, s, burden) && !SpawnPanics(s)
    requires |c.chunks| + burden + Burden(events) <= s.chan.capacity
    ensures !SpawnPanics(RunEvents(c, s, events))
    decreases |events|
  {
    hide CS.Inv, Next, Burdened, Roles, Taken, Written, Counted, WakeKept, Staffed, Tiles, Lines;
    if events != [] {
      var e := events[0];
      assert Burden([e]) == (if e.OutCall? && e.level == JOB_LEVEL then 1 else 0) + Burden([e][1..]);
      NextKeeps(c, s, e);
      NextBurden(c, s, e, burden);
      RoomLeft(c, s, e, burden);
      NextCapacity(c, s, e);
      FittingRun(c, Next(c, s, e), events[1..], burden + Burden([e]));
    }
  }

  lemma NextCapacity<O>(c: Work<O>, s: System<O>, e: Event)
    requires WellSized(c, s) && Roles(c, s)
    ensures Next(c, s, e).chan.capacity == s.chan.capacity
  {
    if e.Poll? { CapacityStays(c, s); } else { OthersLeavePoller(c, s, e); }
    hide PollStep, WorkerStep, Apply;
  }

  lemma FittingSpawns<O>(c: Work<O>, cpus: nat, senders: nat, capacity: nat, events: seq<Event>)
    requires Tiles(c.chunks, c.len) && |c.chunks| + Burden(events) <= capacity
    ensures !SpawnPanics(RunEvents(c, Launch(c, cpus, senders, capacity), events))
  {
    hide CS.Inv;
    var s := Launch(c, cpus, senders, capacity);
    LaunchKeeps(c, cpus, senders, capacity);
    SumZero(s.chan.pc, ForeignPush());
    FittingRun(c, s, events, 0);
  }

  // Too little room.

  lemma {:induction false} EventsConcat<O>(c: Work<O>, s: System<O>, a: seq<Event>, b: seq<Event>)
    requires WellSized(c, s)
    ensures RunEvents(c, s, a + b) == RunEvents(c, RunEvents(c, s, a), b)
    decreases |a|
  {
    if a == [] {
      assert a + b == b;
    } else {
      assert (a + b)[1..] == a[1..] + b;
      EventsConcat(c, Next(c, s, a[0]), a[1..], b);
    }
  }

  lemma {:induction false} BurdenConcat(a: seq<Event>, b: seq<Event>)
    ensures Burden(a + b) == Burden(a) + Burden(b)
  {
    if a == [] {
      assert a + b == b;
    } else {
      assert (a + b)[1..] == a[1..] + b;
      BurdenConcat(a[1..], b);
    }
  }

  /** Event e, n times. */
  ghost function Times(e: Event, n: nat): (r: seq<Event>) {
    seq(n, _ => e)
  }

  lemma OnceMore<O>(c: Work<O>, s: System<O>, e: Event, n: nat)
    requires WellSized(c, s)
    ensures RunEvents(c, s, Times(e, n + 1)) == RunEvents(c, Next(c, s, e), Times(e, n))
  {
    assert Times(e, n + 1)[1..] == Times(e, n);
  }

  lemma {:induction false} TimesBurden(e: Event, n: nat)
    requires !e.OutCall?
    ensures Burden(Times(e, n)) == 0
  {
    if n > 0 {
      assert Times(e, n)[1..] == Times(e, n - 1);
      TimesBurden(e, n - 1);
    }
  }

  /** The first sender is outside every call, n messages are on the jobs' level, and no worker has moved. */
  ghost predicate Filled<O>(c: Work<O>, s: System<O>, poller: Poller<O>, n: nat) {
    && WellSized(c, s) && s.poller == poller && s.chan.pc[PollerThread(s)].Ready?
    && SenderThread(s, 0) < |s.chan.pc| && s.chan.pc[SenderThread(s, 0)].Ready?
    && |s.chan.queue[JOB_LEVEL]| == n
  }

  /** One foreign message on the jobs' level. */
  lemma FillOne<O>(c: Work<O>, s: System<O>, n: nat)
    requires Filled(c, s, Unpolled, n) && n < s.chan.capacity
    ensures var s' := RunEvents(c, s, [OutCall(0, false, JOB_LEVEL)] + Times(OutStep(0), 3));
            Filled(c, s', Unpolled, n + 1) && s'.chan.capacity == s.chan.capacity && |s'.worker| == |s.worker|
  {
    var call := OutCall(0, false, JOB_LEVEL);
    var s1 := Next(c, s, call);
    assert ([call] + Times(OutStep(0), 3))[1..] == Times(OutStep(0), 3);
    OnceMore(c, s1, OutStep(0), 2);
    var s2 := Next(c, s1, OutStep(0));
    OnceMore(c, s2, OutStep(0), 1);
    var s3 := Next(c, s2, OutStep(0));
    OnceMore(c, s3, OutStep(0), 0);
  }

  lemma {:induction false} Fill<O>(c: Work<O>, s: System<O>, n: nat, more: nat) returns (events: seq<Event>)
    requires Filled(c, s, Unpolled, n) && n + more <= s.chan.capacity
    ensures Burden(events) == more
    ensures var s' := RunEvents(c, s, events); Filled(c, s', Unpolled, n + more) && s'.chan.capacity == s.chan.capacity
    decreases more
  {
    if more == 0 {
      events := [];
    } else {
      var call := OutCall(0, false, JOB_LEVEL);
      var front := [call] + Times(OutStep(0), 3);
      FillOne(c, s, n);
      TimesBurden(OutStep(0), 3);
      assert front[1..] == Times(OutStep(0), 3);
      var rest := Fill(c, RunEvents(c, s, front), n + 1, more - 1);
      EventsConcat(c, s, front, rest);
      BurdenConcat(front, rest);
      events := front + rest;
    }
  }

  /** One iteration of the spawning loop: start, push, two signals, return. */
  lemma SpawnOne<O>(c: Work<O>, s: System<O>, i: nat, n: nat)
    requires Filled(c, s, Spawning(i), n) && i < |c.chunks| && n < s.chan.capacity
    ensures var s' := RunEvents(c, s, Times(Poll, 5));
            Filled(c, s', Spawning(i + 1), n + 1) && s'.chan.capacity == s.chan.capacity
  {
    FivePolls(c, s);
    hide RunEvents;
    var s1 := PollStep(c, s);
    var s2 := PollStep(c, s1);
    var s3 := PollStep(c, s2);
    var s4 := PollStep(c, s3);
  }

  lemma FivePolls<O>(c: Work<O>, s: System<O>)
    requires WellSized(c, s)
    ensures RunEvents(c, s, Times(Poll, 5)) == PollStep(c, PollStep(c, PollStep(c, PollStep(c, PollStep(c, s)))))
  {
    hide PollStep;
    OnceMore(c, s, Poll, 4);
    var s1 := PollStep(c, s);
    OnceMore(c, s1, Poll, 3);
    var s2 := PollStep(c, s1);
    OnceMore(c, s2, Poll, 2);
    var s3 := PollStep(c, s2);
    OnceMore(c, s3, Poll, 1);
    OnceMore(c, PollStep(c, s3), Poll, 0);
  }

  lemma SpawnOver<O>(c: Work<O>, s: System<O>, i: nat, n: nat)
    requires Filled(c, s, Spawning(i), n) && i < |c.chunks| && n >= s.chan.capacity
    ensures SpawnPanics(RunEvents(c, s, Times(Poll, 2)))
  {
    var s1 := PollStep(c, s);
    OnceMore(c, s, Poll, 1);
    OnceMore(c, s1, Poll, 0);
  }

  lemma {:induction false} SpawnFrom<O>(c: Work<O>, s: System<O>, i: nat, n: nat) returns (events: seq<Event>)
    requires Filled(c, s, Spawning(i), n) && i < |c.chunks| && n <= s.chan.capacity < n + (|c.chunks| - i)
    ensures Burden(events) == 0 && SpawnPanics(RunEvents(c, s, events))
    decreases s.chan.capacity - n
  {
    if n == s.chan.capacity {
      SpawnOver(c, s, i, n);
      TimesBurden(Poll, 2);
      events := Times(Poll, 2);
    } else {
      SpawnOne(c, s, i, n);
      TimesBurden(Poll, 5);
      var rest := SpawnFrom(c, RunEvents(c, s, Times(Poll, 5)), i + 1, n + 1);
      EventsConcat(c, s, Times(Poll, 5), rest);
      BurdenConcat(Times(Poll, 5), rest);
      events := Times(Poll, 5) + rest;
    }
  }

  lemma Overfill<O>(c: Work<O>, cpus: nat, senders: nat, capacity: nat, others: nat) returns (events: seq<Event>)
    requires |c.chunks| > 0 && |c.chunks| + others > capacity && senders >= 1
    ensures Burden(events) <= others && SpawnPanics(RunEvents(c, Launch(c, cpus, senders, capacity), events))
  {
    var start := Launch(c, cpus, senders, capacity);
    var more := Min(others, capacity);
    var front := Fill(c, start, 0, more);
    var full := RunEvents(c, start, front);
    var polled := Next(c, full, Poll);
    OnceMore(c, full, Poll, 0);
    var back := SpawnFrom(c, polled, 0, more);
    EventsConcat(c, full, Times(Poll, 1), back);
    EventsConcat(c, start, front, Times(Poll, 1) + back);
    TimesBurden(Poll, 1);
    BurdenConcat(Times(Poll, 1), back);
    BurdenConcat(front, Times(Poll, 1) + back);
    events := front + (Times(Poll, 1) + back);
  }

  /** No schedule in which the others begin at most `others` sends to the jobs' level makes a push of the
      spawning loop fail. */
  ghost predicate NeverOverfull<O(!new)>(c: Work<O>, cpus: nat, senders: nat, capacity: nat, others: nat) {
    forall events :: Burden(events) <= others ==> !SpawnPanics(RunEvents(c, Launch(c, cpus, senders, capacity), events))
  }

  /** Spawning is safe exactly when the jobs and what the others may send fit in the queue together, or
      there is no job. */
  lemma CapacityRule<O(!new)>(c: Work<O>, cpus: nat, senders: nat, capacity: nat, others: nat)
    requires Tiles(c.chunks, c.len) && senders >= 1
    ensures NeverOverfull(c, cpus, senders, capacity, others) <==> |c.chunks| == 0 || |c.chunks| + others <= capacity
  {
    if |c.chunks| == 0 {
      forall events ensures !SpawnPanics(RunEvents(c, Launch(c, cpus, senders, capacity), events)) {
        NothingSpawned(c, cpus, senders, capacity, events);
      }
    } else if |c.chunks| + others <= capacity {
      forall events | Burden(events) <= others
        ensures !SpawnPanics(RunEvents(c, Launch(c, cpus, senders, capacity), events))
      {
        FittingSpawns(c, cpus, senders, capacity, events);
      }
    } else {
      var events := Overfill(c, cpus, senders, capacity, others);
    }
  }

  lemma NothingSpawned<O>(c: Work<O>, cpus: nat, senders: nat, capacity: nat, events: seq<Event>)
    requires Tiles(c.chunks, c.len) && |c.chunks| == 0
    ensures !SpawnPanics(RunEvents(c, Launch(c, cpus, senders, capacity), events))
  {
    hide CS.Inv;
    LaunchKeeps(c, cpus, senders, capacity);
    EventsKeep(c, Launch(c, cpus, senders, capacity), events);
  }
}
