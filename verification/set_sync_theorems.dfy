/** What set_sync promises, of every schedule of the system and whatever the others do. */
module SetSyncTheorems {
  import opened Counting
  import opened Channel
  import CS = ChannelSafety
  import opened ChannelTheorems
  import opened SetSync
  import opened SetSyncSafety
  import opened SetSyncProgress

  /** The sequential result. */
  ghost function MapUpto<O>(c: Work<O>): (r: seq<Option<O>>) {
    seq(c.len, x requires 0 <= x < c.len => Some(c.f(x)))
  }

  /** A finished output is the sequential map: every slot written, once, with its own value,
      after every job has counted down and exactly one job has seen the last count. */
  lemma FinishedIsMap<O>(c: Work<O>, s: System<O>)
    requires Inv(c, s) && s.poller.Finished?
    ensures s.poller.output == MapUpto(c) == s.buffer
    ensures forall x :: 0 <= x < c.len ==> s.writes[x] == 1
    ensures s.remaining == 0 && (forall j :: 0 <= j < |c.chunks| ==> s.done[j])
    ensures |c.chunks| > 0 ==> s.finals == 1
  {
    hide CS.Inv;
    AllDone(c, s);
    forall x | 0 <= x < c.len ensures s.buffer[x] == Some(c.f(x)) && s.writes[x] == 1 {
      assert Covered(c.chunks, x);
      var j :| 0 <= j < |c.chunks| && InChunk(c.chunks[j], x);
      assert SlotOk(c, s, j, x);
    }
  }

  lemma AllDone<O>(c: Work<O>, s: System<O>)
    requires Inv(c, s) && s.remaining == 0
    ensures forall j :: 0 <= j < |c.chunks| ==> s.done[j]
  {
    hide CS.Inv;
    forall j | 0 <= j < |c.chunks| ensures s.done[j] {
      SumAtLeast(s.done, j, Outstanding());
    }
  }

  lemma NoRunner<O>(c: Work<O>, s: System<O>, w: nat)
    requires Inv(c, s) && s.remaining == 0 && w < |s.worker|
    ensures !s.worker[w].Running?
  {
    hide CS.Inv;
    if s.worker[w].Running? {
      assert Held(s, w) == Some(s.worker[w].job);
      AllDone(c, s);
    }
  }

  /** Only a running job touches the output and the countdown. */
  lemma CallLeaves<O>(c: Work<O>, s: System<O>, w: nat)
    requires WellSized(c, s) && w < |s.worker| && !s.worker[w].Running?
    ensures var s' := WorkerStep(c, s, w);
            s'.buffer == s.buffer && s'.poller == s.poller && s'.done == s.done && s'.remaining == s.remaining
  {
    hide Advance;
  }

  lemma PollLeaves<O>(c: Work<O>, s: System<O>)
    requires WellSized(c, s)
    ensures var s' := PollStep(c, s); s'.buffer == s.buffer && s'.done == s.done && s'.remaining == s.remaining
    ensures s.poller.Finished? ==> PollStep(c, s) == s
  {
    hide Advance;
  }

  /** Once the future is ready no job touches the output, and the future stays ready. */
  lemma ReadyIsFinal<O>(c: Work<O>, s: System<O>, e: Event)
    requires Inv(c, s) && s.poller.Finished?
    ensures Next(c, s, e).buffer == s.buffer && Next(c, s, e).poller == s.poller
    ensures Next(c, s, e).done == s.done && Next(c, s, e).remaining == 0
  {
    hide CS.Inv, WorkerStep, PollStep;
    PollLeaves(c, s);
    if e.Act? && e.worker < |s.worker| {
      NoRunner(c, s, e.worker);
      CallLeaves(c, s, e.worker);
    }
  }

  lemma OnlyJobsWrite<O>(c: Work<O>, s: System<O>, e: Event)
    requires WellSized(c, s) && Next(c, s, e).buffer != s.buffer
    ensures e.Act? && e.worker < |s.worker| && s.worker[e.worker].Running?
  {
    PollLeaves(c, s);
    if e.Act? && e.worker < |s.worker| && !s.worker[e.worker].Running? {
      CallLeaves(c, s, e.worker);
    }
    hide PollStep, WorkerStep;
  }

  /** Every write a step makes is the running job's next slot, inside its chunk, until then empty. */
  lemma WritesStayInChunk<O>(c: Work<O>, s: System<O>, e: Event)
    requires Inv(c, s) && Next(c, s, e).buffer != s.buffer
    ensures e.Act? && e.worker < |s.worker| && s.worker[e.worker].Running? && s.worker[e.worker].job < |c.chunks|
    ensures var j := s.worker[e.worker].job; var x := c.chunks[j].base + s.worker[e.worker].written;
            && InChunk(c.chunks[j], x) && x < c.len && s.buffer[x] == None
            && Next(c, s, e).buffer == s.buffer[x := Some(c.f(x))]
  {
    hide CS.Inv, Roles, Lines, Counted, Staffed, Written, WakeKept, Tiles;
    OnlyJobsWrite(c, s, e);
    var w := e.worker;
    assert Held(s, w) == Some(s.worker[w].job);
    assert WorkerStep(c, s, w) == RunJob(c, s, w);
    hide WorkerStep, Taken;
    if s.worker[w].written < c.chunks[s.worker[w].job].len {
      WriteKeeps(c, s, w);
    }
  }

  /** What the outside world starts: a wake-up of the future, a send, a call for threads. */
  predicate Outside(e: Event) {
    e.Nudge? || e.OutCall? || e.OutEnforce?
  }

  /** Nothing can happen unless the outside world starts something. */
  ghost predicate Settled<O>(c: Work<O>, s: System<O>)
    requires WellSized(c, s)
  {
    forall e: Event :: !Outside(e) ==> Next(c, s, e) == s
  }

  /** The spawning loop has found the queue full. */
  ghost predicate SpawnPanics<O>(s: System<O>)
    requires |s.worker| < |s.chan.pc|
  {
    s.chan.pc[PollerThread(s)] == Crashed(QueueFull)
  }

  predicate NotThere(worker: Worker) {
    worker.Absent? || worker.Lost?
  }

  /** Every thread that is counted and not owed has been lost to somebody's panic. */
  ghost predicate Deserted<O>(s: System<O>) {
    forall w :: 0 <= w < |s.worker| ==> NotThere(s.worker[w])
  }

  lemma SettledPoller<O>(c: Work<O>, s: System<O>)
    requires Inv(c, s) && PollStep(c, s) == s
    ensures s.poller.Finished? || (s.poller.Parked? && !s.woken) || SpawnPanics(s)
    ensures s.chan.pc[PollerThread(s)].Ready? || SpawnPanics(s)
  {
    if s.poller.Sending? && !s.chan.pc[PollerThread(s)].Ready? {
      StuckAt(s.chan, PollerThread(s));
    }
    hide CS.Inv;
  }

  /** A worker that can do nothing more has left the pool, is lost, or is blocked in recv_all on a zero count. */
  lemma SettledWorker<O>(c: Work<O>, s: System<O>, w: nat)
    requires Inv(c, s) && w < |s.worker| && WorkerStep(c, s, w) == s
    ensures NotThere(s.worker[w]) || (s.worker[w].InAll? && s.chan.pc[w] == Waiting && s.chan.global == 0)
    ensures NotThere(s.worker[w]) ==> s.chan.pc[w].Ready?
  {
    if (s.worker[w].InImmediate? || s.worker[w].InAll?) && !s.chan.pc[w].Ready? {
      assert WorkerStep(c, s, w).chan == Advance(s.chan, w);
      StuckAt(s.chan, w);
    }
    hide CS.Inv;
    assert WorkerStep(c, s, w).worker[w] == s.worker[w];
  }

  /** A sender that can do nothing more is outside every call, or has panicked on its own account. */
  lemma SettledSender<O>(c: Work<O>, s: System<O>, t: nat)
    requires Inv(c, s) && |s.worker| < t < |s.chan.pc| && Next(c, s, OutStep(t - |s.worker| - 1)) == s
    ensures s.chan.pc[t].Ready? || (s.chan.pc[t].Crashed? && !CS.Loses(s.chan.pc[t].fault))
  {
    StuckAt(s.chan, t);
    assert SenderOk(s.chan.pc[t]);
  }

  lemma HireMoves<O>(c: Work<O>, s: System<O>, w: nat)
    requires WellSized(c, s) && w < |s.worker| && s.worker[w].Absent? && s.owed > 0
    ensures Next(c, s, Hire(w)) != s
  {
  }

  /** At rest no thread is owed, so that with a count of 1 or more somebody waits for messages. */
  lemma SettledStaff<O>(c: Work<O>, s: System<O>) returns (w: nat)
    requires Inv(c, s) && Settled(c, s) && s.count >= 1
    ensures w < |s.worker| && !s.worker[w].Absent?
  {
    hide CS.Inv;
    if s.owed > 0 {
      if forall v :: 0 <= v < |s.worker| ==> !s.worker[v].Absent? {
        SumConstant(s.worker, Present(), 1);
      } else {
        var v: nat :| v < |s.worker| && s.worker[v].Absent?;
        HireMoves(c, s, v);
      }
    }
    w := SumWitness(s.worker, Present());
  }

  lemma SettledThreads<O>(c: Work<O>, s: System<O>)
    requires Inv(c, s) && Settled(c, s) && !SpawnPanics(s)
    ensures s.poller.Finished? || (s.poller.Parked? && !s.woken)
    ensures forall w :: 0 <= w < |s.worker| ==>
              NotThere(s.worker[w]) || (s.worker[w].InAll? && s.chan.pc[w] == Waiting && s.chan.global == 0)
    ensures forall t :: 0 <= t < |s.chan.pc| ==> AtLeisure(s.chan.pc[t])
  {
    hide CS.Inv, PollStep, WorkerStep;
    assert Next(c, s, Poll) == s;
    SettledPoller(c, s);
    forall w | 0 <= w < |s.worker|
      ensures AtLeisure(s.chan.pc[w])
      ensures NotThere(s.worker[w]) || (s.worker[w].InAll? && s.chan.pc[w] == Waiting && s.chan.global == 0)
    {
      assert Next(c, s, Act(w)) == s;
      SettledWorker(c, s, w);
    }
    forall t | |s.worker| < t < |s.chan.pc| ensures AtLeisure(s.chan.pc[t]) {
      assert Next(c, s, OutStep(t - |s.worker| - 1)) == s;
      SettledSender(c, s, t);
    }
  }

  /** Outside every call, waiting for messages, or gone without a token. */
  ghost predicate AtLeisure(pc: Pc<Message>) {
    pc.Ready? || pc.Waiting? || (pc.Crashed? && !CS.Loses(pc.fault))
  }

  /** A system that can do nothing more has finished, unless its spawning loop found the queue full, or no
      thread is there: no job is left behind in the channel or half done, and the future has not missed
      its wake-up. */
  lemma SettledIsFinished<O>(c: Work<O>, s: System<O>)
    requires Inv(c, s) && Settled(c, s) && !SpawnPanics(s)
    requires |c.chunks| == 0 || !Deserted(s)
    ensures s.poller.Finished?
  {
    hide CS.Inv;
    SettledThreads(c, s);
    if s.poller.Parked? {
      if |c.chunks| > 0 {
        QueuesEmpty(s.chan);
        JobsAllTaken(c, s);
        forall j | 0 <= j < |c.chunks| ensures s.done[j] {
          ghost var held := Held(s, s.taker[j]);
        }
      }
      SumZero(s.done, Outstanding());
    }
  }

  /** At rest every job has been popped exactly once and has counted down, and no message of anybody is
      queued. */
  lemma SettledRanEachOnce<O>(c: Work<O>, s: System<O>)
    requires Inv(c, s) && Settled(c, s) && !SpawnPanics(s) && !Deserted(s)
    ensures |s.taker| == |c.chunks| && Jobs(s.chan.popped[JOB_LEVEL]) == Upto(|c.chunks|)
    ensures s.chan.queue == [[], []]
    ensures forall j :: 0 <= j < |c.chunks| ==> s.done[j]
  {
    hide CS.Inv;
    SettledIsFinished(c, s);
    AllDone(c, s);
    SettledThreads(c, s);
    QueuesEmpty(s.chan);
    JobsAllTaken(c, s);
  }

  // Threads are there unless somebody's panic has taken them.

  ghost predicate NoPanic(events: seq<Event>) {
    forall e :: e in events ==> !e.Panic?
  }

  ghost predicate NoneLost<O>(s: System<O>) {
    forall w :: 0 <= w < |s.worker| ==> !s.worker[w].Lost?
  }

  lemma NoneLostKept<O>(c: Work<O>, s: System<O>, e: Event)
    requires WellSized(c, s) && NoneLost(s) && !e.Panic?
    ensures NoneLost(Next(c, s, e))
  {
    hide Advance, Apply;
    if e.Act? && e.worker < |s.worker| {
      assert !WorkerStep(c, s, e.worker).worker[e.worker].Lost?;
      assert forall v :: 0 <= v < |s.worker| && v != e.worker ==> WorkerStep(c, s, e.worker).worker[v] == s.worker[v];
      hide WorkerStep;
    }
  }

  lemma {:induction false} NoneLostRun<O>(c: Work<O>, s: System<O>, events: seq<Event>)
    requires WellSized(c, s) && NoneLost(s) && NoPanic(events)
    ensures NoneLost(RunEvents(c, s, events))
    decreases |events|
  {
    hide Next, NoneLost;
    if events != [] {
      assert events[0] in events;
      NoneLostKept(c, s, events[0]);
      NoneLostRun(c, Next(c, s, events[0]), events[1..]);
    }
  }

  /** On a machine with a cpu, a system at rest that has jobs has a thread waiting, unless panics took all. */
  lemma SettledHasThread<O>(c: Work<O>, s: System<O>)
    requires Inv(c, s) && Settled(c, s) && !s.poller.Unpolled? && |c.chunks| > 0 && |s.worker| > 0 && NoneLost(s)
    ensures !Deserted(s)
  {
    hide CS.Inv;
    var w := SettledStaff(c, s);
    assert !NotThere(s.worker[w]);
  }

  /** No worker ever panics in a receive, whatever is sent; and the future only on a full queue. */
  lemma NoReceiveFails<O>(c: Work<O>, cpus: nat, senders: nat, capacity: nat, events: seq<Event>, t: nat)
    requires Tiles(c.chunks, c.len) && t <= cpus
    ensures var end := RunEvents(c, Launch(c, cpus, senders, capacity), events);
            end.chan.pc[t].Crashed? ==> t == cpus && SpawnPanics(end)
  {
    hide CS.Inv;
    LaunchKeeps(c, cpus, senders, capacity);
    EventsKeep(c, Launch(c, cpus, senders, capacity), events);
    var end := RunEvents(c, Launch(c, cpus, senders, capacity), events);
    if t < cpus { assert RoleOk(end.worker[t], end.chan.pc[t]); }
  }

  lemma QueuesEmpty(chan: Channel.State<Message>)
    requires CS.Inv(chan) && chan.global == 0 && |chan.queue| == LEVELS
    requires forall t :: 0 <= t < |chan.pc| ==> AtLeisure(chan.pc[t])
    ensures chan.queue == [[], []]
  {
    forall l: nat { SumZero(chan.pc, CS.AtSignal(l)); }
    forall l: nat { SumZero(chan.pc, CS.AtPop(l)); }
    SumZero(chan.pc, CS.Token());
    TotalFromZero(chan.local, 0);
    assert chan.queue[0] == [] && chan.queue[1] == [];
  }

  lemma JobsAllTaken<O>(c: Work<O>, s: System<O>)
    requires Inv(c, s) && (s.poller.Parked? || s.poller.Finished?) && s.chan.queue == [[], []]
    ensures |s.taker| == |c.chunks|
  {
    assert s.chan.pushed[1] == s.chan.popped[1] + s.chan.queue[1];
    assert s.chan.pushed[1] == s.chan.popped[1];
    assert |Upto(|s.taker|)| == |Upto(|c.chunks|)|;
  }

  // Whole runs.

  ghost function Effective<O>(c: Work<O>, s: System<O>, events: seq<Event>): nat
    requires WellSized(c, s)
    decreases |events|
  {
    if events == [] then 0
    else (if Next(c, s, events[0]) == s then 0 else 1) + Effective(c, Next(c, s, events[0]), events[1..])
  }

  /** How many steps an event from outside can give rise to. */
  ghost function Cost(e: Event, cpus: nat): nat {
    if e.Nudge? then 6 else if e.OutCall? then 25 else if e.OutEnforce? then 13 * cpus + 1 else 0
  }

  ghost function Costs(events: seq<Event>, cpus: nat): nat {
    if events == [] then 0 else Cost(events[0], cpus) + Costs(events[1..], cpus)
  }

  /** What comes from outside leaves the jobs' loads alone. */
  lemma LoadsStay<O>(c: Work<O>, s: System<O>, s': System<O>)
    requires WellSized(c, s) && WellSized(c, s') && Bounded(c, s)
    requires s' == s.(chan := s'.chan, count := s'.count, owed := s'.owed, woken := s'.woken)
    ensures Bounded(c, s') && Loads(c, s') == Loads(c, s)
  {
    assert forall j :: 0 <= j < |c.chunks| ==> Progress(c, s', j) == Progress(c, s, j);
  }

  lemma NudgeRaises<O>(c: Work<O>, s: System<O>)
    requires WellSized(c, s) && Bounded(c, s)
    ensures Bounded(c, s.(woken := true)) && Measure(c, s.(woken := true)) <= Measure(c, s) + 5
  {
    var s' := s.(woken := true);
    LoadsStay(c, s, s');
    assert Ranks(c, s') == Ranks(c, s);
    hide Loads, Ranks, TotalFrom, Strangers;
  }

  lemma EnforceRaises<O>(c: Work<O>, s: System<O>, comingSoon: nat)
    requires WellSized(c, s) && Bounded(c, s)
    ensures var s' := Raise(s, comingSoon); Bounded(c, s') && Measure(c, s') <= Measure(c, s) + 13 * |s.worker|
  {
    var s' := Raise(s, comingSoon);
    LoadsStay(c, s, s');
    assert Ranks(c, s') == Ranks(c, s);
    hide Loads, Ranks, TotalFrom, Strangers;
  }

  lemma CallRaises<O>(c: Work<O>, s: System<O>, k: nat, call: Call<Message>)
    requires WellSized(c, s) && Bounded(c, s) && call.Send?
    ensures var s' := OutMove(s, Start(SenderThread(s, k), call));
            WellSized(c, s') && Bounded(c, s') && Measure(c, s') <= Measure(c, s) + 24
  {
    var t := SenderThread(s, k);
    var s' := OutMove(s, Start(t, call));
    LoadsStay(c, s, s');
    if t < |s.chan.pc| && s.chan.pc[t].Ready? {
      RankMoved(c, s, s', t);
      assert s'.chan.queue == s.chan.queue;
      assert PollRank(c, s') == PollRank(c, s);
      hide Loads, Ranks, PollRank, TotalFrom, Others;
    }
  }

  lemma EventMeasured<O>(c: Work<O>, s: System<O>, e: Event)
    requires Inv(c, s)
    ensures var s' := Next(c, s, e);
            && Inv(c, s') && Bounded(c, s) && Bounded(c, s')
            && Measure(c, s') + (if s' == s then 0 else 1) <= Measure(c, s) + Cost(e, |s.worker|)
  {
    hide CS.Inv, WorkerStep, PollStep;
    NextKeeps(c, s, e);
    InvBounded(c, s);
    if e.Nudge? { NudgeRaises(c, s); }
    else if e.OutCall? { CallRaises(c, s, e.sender, Send(if e.idle then Idle else Foreign, e.level)); }
    else if e.OutEnforce? { EnforceRaises(c, s, e.comingSoon); }
    else if Next(c, s, e) != s { NextFalls(c, s, e); }
    hide Inv, Measure, Raise;
  }

  /** Of any run, the steps that have an effect are bounded by the work at its start and what the outside
      world adds to it. */
  lemma {:induction false} EveryRunIsFinite<O>(c: Work<O>, s: System<O>, events: seq<Event>)
    requires Inv(c, s)
    ensures Bounded(c, s) && Effective(c, s, events) <= Measure(c, s) + Costs(events, |s.worker|)
    decreases |events|
  {
    hide CS.Inv, Next;
    InvBounded(c, s);
    if events != [] {
      EventMeasured(c, s, events[0]);
      EveryRunIsFinite(c, Next(c, s, events[0]), events[1..]);
      hide Inv, Measure, Cost;
    }
  }

  /** Total correctness.  On any machine with a cpu, beginning with a pool without a thread, under every
      schedule, with threads that start, leave and are lost, and whatever anybody else sends: the jobs
      take a bounded number of steps; whenever nothing more can happen the future is ready, unless it
      found the queue full or foreign panics took every thread; and when it is ready its output is the
      sequential map, each slot having been written exactly once. */
  lemma SetSyncIsMap<O>(c: Work<O>, cpus: nat, senders: nat, capacity: nat, events: seq<Event>)
    requires Tiles(c.chunks, c.len) && cpus >= 1
    ensures var start := Launch(c, cpus, senders, capacity); var end := RunEvents(c, start, events);
            && Bounded(c, start) && Effective(c, start, events) <= Measure(c, start) + Costs(events, cpus)
            && (Settled(c, end) && !SpawnPanics(end) && (NoPanic(events) || !Deserted(end)) ==> end.poller.Finished?)
            && (end.poller.Finished? ==>
                  end.poller.output == MapUpto(c) && forall x :: 0 <= x < c.len ==> end.writes[x] == 1)
  {
    hide CS.Inv;
    var start := Launch(c, cpus, senders, capacity);
    var end := RunEvents(c, start, events);
    LaunchKeeps(c, cpus, senders, capacity);
    EventsKeep(c, start, events);
    EveryRunIsFinite(c, start, events);
    if NoPanic(events) { NoneLostRun(c, start, events); }
    hide Inv;
    if Settled(c, end) && !SpawnPanics(end) && (NoPanic(events) || !Deserted(end)) {
      assert PollStep(c, end) == end by { assert Next(c, end, Poll) == end; }
      SettledPoller(c, end);
      if |c.chunks| > 0 && NoPanic(events) { SettledHasThread(c, end); }
      SettledIsFinished(c, end);
    }
    if end.poller.Finished? { FinishedIsMap(c, end); }
  }

  // How often the future is polled.

  /** A poll begins only when the future has not been polled or has been woken since, and forgets that; the
      future is woken only by a nudge from outside or by the worker with the last job, which calls the waker of
      the latest poll exactly if it is registered. */
  lemma WakeRule<O>(c: Work<O>, s: System<O>, e: Event)
    requires WellSized(c, s)
    ensures var t := Next(c, s, e);
            && (t.polls != s.polls <==> e.Poll? && (s.poller.Unpolled? || (s.poller.Parked? && s.woken)))
            && (t.polls != s.polls ==> t.polls == s.polls + 1 && !t.woken)
            && (t.woken && !s.woken ==> e.Nudge? || (e.Act? && s.slot == Some(s.polls)))
            && (e.Act? && e.worker < |s.worker| && s.worker[e.worker].Waking? ==>
                  t.slot == None && (t.woken <==> s.woken || s.slot == Some(s.polls)))
            && (e.Nudge? ==> t == s.(woken := true))
  {
    hide Advance, Apply;
  }

  /** Without nudges a second poll can only be the last. */
  ghost predicate AtMostTwice<O>(s: System<O>) {
    && (s.woken ==> s.remaining == 0)
    && (s.poller.Unpolled? <==> s.polls == 0) && s.polls <= 2
    && (s.polls == 2 ==> s.remaining == 0 && (s.poller.Registering? || s.poller.Loading? || s.poller.Finished?))
  }

  lemma OnlyFalls<O>(c: Work<O>, s: System<O>, e: Event)
    requires WellSized(c, s)
    ensures Next(c, s, e).remaining <= s.remaining
  {
    hide Advance, Apply;
  }

  /** A final wake comes from a worker that has seen the counter at 1, and the counter does not underflow. */
  lemma WakeIsFinal<O>(c: Work<O>, s: System<O>)
    requires Inv(c, s)
    ensures s.remaining >= 0 && forall w :: 0 <= w < |s.worker| && s.worker[w].Waking? ==> s.remaining == 0
  {
  }

  lemma TwicePoll<O>(c: Work<O>, s: System<O>)
    requires WellSized(c, s) && AtMostTwice(s)
    ensures AtMostTwice(PollStep(c, s))
  {
    hide Advance, Apply;
  }

  lemma TwiceStep<O>(c: Work<O>, s: System<O>, e: Event)
    requires WellSized(c, s) && AtMostTwice(s) && !e.Nudge? && Next(c, s, e).remaining >= 0
    requires s.remaining >= 0 && forall w :: 0 <= w < |s.worker| && s.worker[w].Waking? ==> s.remaining == 0
    ensures AtMostTwice(Next(c, s, e))
  {
    hide Advance, Apply, PollStep;
    if e.Poll? { TwicePoll(c, s); } else { OnlyFalls(c, s, e); }
  }

  lemma TwiceKept<O>(c: Work<O>, s: System<O>, e: Event)
    requires Inv(c, s) && AtMostTwice(s) && !e.Nudge?
    ensures Inv(c, Next(c, s, e)) && AtMostTwice(Next(c, s, e))
  {
    NextKeeps(c, s, e);
    WakeIsFinal(c, s);
    WakeIsFinal(c, Next(c, s, e));
    assert WellSized(c, s);
    hide Inv, AtMostTwice, Next;
    TwiceStep(c, s, e);
  }

  lemma {:induction false} TwiceRun<O>(c: Work<O>, s: System<O>, events: seq<Event>)
    requires Inv(c, s) && AtMostTwice(s) && forall e :: e in events ==> !e.Nudge?
    ensures AtMostTwice(RunEvents(c, s, events))
    decreases |events|
  {
    hide CS.Inv, AtMostTwice, Next;
    if events != [] {
      TwiceKept(c, s, events[0]);
      TwiceRun(c, Next(c, s, events[0]), events[1..]);
    }
  }

  /** In no run without a nudge is the future polled more than twice, and it is polled a second time only when
      every job has counted down: it is woken once, and not for nothing. */
  lemma PolledAtMostTwice<O>(c: Work<O>, cpus: nat, senders: nat, capacity: nat, events: seq<Event>)
    requires Tiles(c.chunks, c.len) && forall e :: e in events ==> !e.Nudge?
    ensures var s := RunEvents(c, Launch(c, cpus, senders, capacity), events);
            s.polls <= 2 && (s.polls == 2 ==> s.remaining == 0)
  {
    hide CS.Inv;
    LaunchKeeps(c, cpus, senders, capacity);
    TwiceRun(c, Launch(c, cpus, senders, capacity), events);
    hide Inv;
  }
}
