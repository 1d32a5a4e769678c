/** Every step of the composed system brings it nearer its end, and the end is the finished
    output: total correctness of set_sync under every schedule. */
module SetSyncProgress {
  import opened Counting
  import opened Channel
  import CS = ChannelSafety
  import opened SetSync
  import opened SetSyncSafety

  // The measure.

  /** What a worker has left before it holds a job or blocks. */
  ghost function Rank(worker: Worker, pc: Pc<Message>): nat {
    match worker
    case Absent => 0
    case Lost => 0
    case Top => 12
    case Waking => 18
    case Busy => 14
    case Deciding => 14
    case Running(_, _) => 1
    case _ =>
      match pc
      case TakingImmediate(_) => 11
      case TryingLevel(_) => 10
      case Restoring => 9
      case Ready(None) => 8
      case Waiting => 7
      case Scanning(l) => if l <= LEVELS then 6 - l else 0
      case Popping(_) => 3
      case Ready(Some(m)) => if m.Job? then 2 else 15
      case _ => 0
  }

  /** What somebody else's send has left, and the handling of its message. */
  ghost function OutRank(pc: Pc<Message>): nat {
    match pc
    case Pushing(_, _) => 24
    case SignallingLocal(_) => 2
    case SignallingGlobal => 1
    case _ => 0
  }

  ghost function ThreadRank<O>(c: Work<O>, s: System<O>, t: nat): nat
    requires WellSized(c, s) && t < |s.chan.pc|
  {
    if t < |s.worker| then Rank(s.worker[t], s.chan.pc[t])
    else if t == PollerThread(s) then 0
    else OutRank(s.chan.pc[t])
  }

  ghost function Ranks<O>(c: Work<O>, s: System<O>): (r: seq<nat>)
    requires WellSized(c, s)
  {
    seq(|s.chan.pc|, t requires 0 <= t < |s.chan.pc| => ThreadRank(c, s, t))
  }

  /** The messages in a queue that are no job of this set. */
  ghost function Others(ms: seq<Message>): nat {
    if ms == [] then 0 else (if ms[0].Job? then 0 else 1) + Others(ms[1..])
  }

  lemma {:induction false} OthersAppend(ms: seq<Message>, m: Message)
    ensures Others(ms + [m]) == Others(ms) + if m.Job? then 0 else 1
  {
    if ms == [] {
      assert ms + [m] == [m] && [m][1..] == [];
    } else {
      assert (ms + [m])[1..] == ms[1..] + [m];
      OthersAppend(ms[1..], m);
    }
  }

  ghost function Strangers(chan: Channel.State<Message>): nat
    requires |chan.queue| == LEVELS
  {
    Others(chan.queue[0]) + Others(chan.queue[1])
  }

  /** A message that is no job counts from its push to its pop. */
  lemma StrangersMove(chan: Channel.State<Message>, t: nat)
    requires CS.Inv(chan) && t < |chan.pc| && |chan.queue| == LEVELS
    ensures var next := Advance(chan, t);
            if chan.pc[t].Pushing? && !next.pc[t].Crashed?
            then Strangers(next) == Strangers(chan) + if chan.pc[t].message.Job? then 0 else 1
            else if chan.pc[t].Popping?
            then next.pc[t].Ready? && next.pc[t].last.Some?
                 && Strangers(next) + (if next.pc[t].last.value.Job? then 0 else 1) == Strangers(chan)
            else Strangers(next) == Strangers(chan)
  {
    CS.TakenIsCounted(chan, t);
    CS.PcsKept(chan, t);
    if chan.pc[t].Pushing? && chan.pc[t].level < LEVELS {
      OthersAppend(chan.queue[chan.pc[t].level], chan.pc[t].message);
    }
    assert CS.PcShape(LEVELS, chan.pc[t]);
    hide CS.Inv;
  }

  /** What a job has left: its unwritten slots, and the return of its worker to the loop. */
  ghost function Loads<O>(c: Work<O>, s: System<O>): (r: seq<nat>)
    requires WellSized(c, s) && Bounded(c, s)
  {
    seq(|c.chunks|, j requires 0 <= j < |c.chunks| => Load(c, s, j))
  }

  ghost function Load<O>(c: Work<O>, s: System<O>, j: nat): nat
    requires WellSized(c, s) && j < |c.chunks| && Progress(c, s, j) <= c.chunks[j].len
  {
    if s.done[j] then 0 else 20 + c.chunks[j].len - Progress(c, s, j)
  }

  ghost predicate Bounded<O>(c: Work<O>, s: System<O>)
    requires WellSized(c, s)
  {
    forall j :: 0 <= j < |c.chunks| ==> Progress(c, s, j) <= c.chunks[j].len
  }

  ghost function PollRank<O>(c: Work<O>, s: System<O>): int
    requires WellSized(c, s)
  {
    var jobs := |c.chunks|;
    match s.poller
    case Unpolled => 6 * jobs + 6 + 13 * |s.worker|
    case Spawning(j) => 6 * (jobs - j) + 5
    case Sending(j) =>
      6 * (jobs - j) - 1 + (match s.chan.pc[PollerThread(s)]
                            case Pushing(_, _) => 5
                            case SignallingLocal(_) => 4
                            case SignallingGlobal => 3
                            case _ => 2)
    case Registering => 3
    case Loading => 2
    case Parked => 1
    case Finished(_) => 0
  }

  ghost function Measure<O>(c: Work<O>, s: System<O>): int
    requires WellSized(c, s) && Bounded(c, s)
  {
    PollRank(c, s) + TotalFrom(Ranks(c, s), 0) + TotalFrom(Loads(c, s), 0) + 20 * Strangers(s.chan)
    + 13 * s.owed + (if s.woken then 5 else 0)
  }

  lemma InvBounded<O>(c: Work<O>, s: System<O>)
    requires Inv(c, s)
    ensures Bounded(c, s) && Measure(c, s) >= 0
  {
    hide CS.Inv;
    forall j | 0 <= j < |c.chunks| ensures Progress(c, s, j) <= c.chunks[j].len {
      if j < |s.taker| && !s.done[j] { assert Held(s, s.taker[j]) == Some(j); }
    }
  }

  /** Only thread t's rank changed. */
  lemma RankMoved<O>(c: Work<O>, s: System<O>, s': System<O>, t: nat)
    requires WellSized(c, s) && WellSized(c, s') && t < |s.chan.pc| == |s'.chan.pc| && |s'.worker| == |s.worker|
    requires forall v :: 0 <= v < |s.worker| && v != t ==> s'.worker[v] == s.worker[v]
    requires forall v :: 0 <= v < |s.chan.pc| && v != t ==> s'.chan.pc[v] == s.chan.pc[v]
    ensures TotalFrom(Ranks(c, s'), 0) == TotalFrom(Ranks(c, s), 0) + ThreadRank(c, s', t) - ThreadRank(c, s, t)
  {
    assert Ranks(c, s') == Ranks(c, s)[t := ThreadRank(c, s', t)];
    TotalFromUpdate(Ranks(c, s), t, ThreadRank(c, s', t), 0);
  }

  /** Only job j's load changed. */
  lemma LoadMoved<O>(c: Work<O>, s: System<O>, s': System<O>, j: nat)
    requires WellSized(c, s) && WellSized(c, s') && Bounded(c, s) && Bounded(c, s') && j < |c.chunks|
    requires forall i :: 0 <= i < |c.chunks| && i != j ==> s'.done[i] == s.done[i] && Progress(c, s', i) == Progress(c, s, i)
    ensures TotalFrom(Loads(c, s'), 0) == TotalFrom(Loads(c, s), 0) + Load(c, s', j) - Load(c, s, j)
  {
    assert Loads(c, s') == Loads(c, s)[j := Load(c, s', j)];
    TotalFromUpdate(Loads(c, s), j, Load(c, s', j), 0);
  }

  // Every effective step lowers the measure.

  lemma ReceiveFalls(chan: Channel.State<Message>, w: nat, worker: Worker)
    requires CS.Inv(chan) && w < |chan.pc| && |chan.queue| == LEVELS
    requires (worker.InImmediate? || worker.InAll?) && RoleOk(worker, chan.pc[w]) && !chan.pc[w].Ready?
    ensures var next := Advance(chan, w);
            next == chan || Rank(worker, next.pc[w]) + 20 * Strangers(next) < Rank(worker, chan.pc[w]) + 20 * Strangers(chan)
  {
    CS.TakenIsCounted(chan, w);
    StrangersMove(chan, w);
    hide CS.Inv, Strangers;
  }

  ghost predicate CallMoved<O>(c: Work<O>, s: System<O>, s': System<O>, w: nat)
    requires WellSized(c, s) && WellSized(c, s')
  {
    && w < |s.worker| == |s'.worker| && |s.chan.pc| == |s'.chan.pc|
    && s' == s.(chan := s'.chan, worker := s.worker[w := s'.worker[w]], taker := s'.taker, ran := s'.ran)
    && (forall v :: 0 <= v < |s.chan.pc| && v != w ==> s'.chan.pc[v] == s.chan.pc[v])
    && (s'.worker[w].Running? ==> s'.worker[w].written == 0)
    && (s'.taker == s.taker || (s'.taker == s.taker + [w] && !s'.worker[w].Running?))
    && ThreadRank(c, s', w) + 20 * Strangers(s'.chan) < ThreadRank(c, s, w) + 20 * Strangers(s.chan)
  }

  lemma ReceiveMovesDown<O>(c: Work<O>, s: System<O>, w: nat)
    requires Inv(c, s) && w < |s.worker| && (s.worker[w].InImmediate? || s.worker[w].InAll?) && !s.chan.pc[w].Ready?
    requires Receive(c, s, w) != s
    ensures CallMoved(c, s, Receive(c, s, w), w)
  {
    hide CS.Inv, Advance, Strangers;
    ReceiveFalls(s.chan, w, s.worker[w]);
    ReceiveEffect(c, s, w);
  }

  lemma EnterMovesDown<O>(c: Work<O>, s: System<O>, w: nat)
    requires WellSized(c, s) && Roles(c, s) && w < |s.worker| && !s.worker[w].Running? && !s.worker[w].Waking?
    requires !s.worker[w].Absent? && !s.worker[w].Lost?
    requires (s.worker[w].InImmediate? || s.worker[w].InAll?) ==> s.chan.pc[w].Ready?
    ensures CallMoved(c, s, WorkerStep(c, s, w), w)
  {
    assert WorkerStep(c, s, w).chan.queue == s.chan.queue;
    hide Others;
  }

  /** Inside receive calls, on starting a job, and around something foreign, no progress of a job changes. */
  lemma CallFalls<O>(c: Work<O>, s: System<O>, w: nat)
    requires Inv(c, s) && w < |s.worker| && !s.worker[w].Running? && !s.worker[w].Waking?
    requires WorkerStep(c, s, w) != s
    ensures Inv(c, WorkerStep(c, s, w)) && Bounded(c, s) && Bounded(c, WorkerStep(c, s, w))
    ensures Measure(c, WorkerStep(c, s, w)) < Measure(c, s)
  {
    hide CS.Inv;
    assert !s.worker[w].Absent? && !s.worker[w].Lost?;
    hide WorkerStep;
    WorkerKeeps(c, s, w);
    InvBounded(c, s);
    InvBounded(c, WorkerStep(c, s, w));
    if (s.worker[w].InImmediate? || s.worker[w].InAll?) && !s.chan.pc[w].Ready? {
      ReceiveKeeps(c, s, w);
      ReceiveMovesDown(c, s, w);
    } else {
      EnterMovesDown(c, s, w);
    }
    CallRest(c, s, WorkerStep(c, s, w), w);
  }

  lemma CallRest<O>(c: Work<O>, s: System<O>, s': System<O>, w: nat)
    requires WellSized(c, s) && WellSized(c, s') && Bounded(c, s) && Bounded(c, s')
    requires |s.taker| <= |c.chunks| && Taken(c, s) && w < |s.worker| == |s'.worker| && !s.worker[w].Running?
    requires CallMoved(c, s, s', w)
    ensures Measure(c, s') < Measure(c, s)
  {
    RankMoved(c, s, s', w);
    assert Loads(c, s') == Loads(c, s);
    assert PollRank(c, s') == PollRank(c, s);
    hide Ranks, Loads, ThreadRank, PollRank, Strangers, TotalFrom, Taken;
  }

  /** A thread that leaves or is lost, or one that starts and is no longer owed. */
  lemma StaffFalls<O>(c: Work<O>, s: System<O>, e: Event)
    requires Inv(c, s) && (e.Leave? || e.Hire? || e.Panic?) && Next(c, s, e) != s
    ensures Inv(c, Next(c, s, e)) && Bounded(c, s) && Bounded(c, Next(c, s, e))
    ensures Measure(c, Next(c, s, e)) < Measure(c, s)
  {
    hide CS.Inv;
    StaffKeeps(c, s, e);
    var s' := Next(c, s, e);
    InvBounded(c, s);
    InvBounded(c, s');
    StaffMoves(c, s, e);
    hide Next, Inv;
    StaffRest(c, s, s', e.worker);
  }

  lemma StaffMoves<O>(c: Work<O>, s: System<O>, e: Event)
    requires WellSized(c, s) && (e.Leave? || e.Hire? || e.Panic?) && Next(c, s, e) != s
    ensures var s' := Next(c, s, e); var w := e.worker;
            && w < |s.worker| && !s.worker[w].Running? && |s'.worker| == |s.worker| && !s'.worker[w].Running?
            && s' == s.(worker := s.worker[w := s'.worker[w]], count := s'.count, owed := s'.owed, ran := s'.ran)
            && ThreadRank(c, s', w) + 13 * s'.owed < ThreadRank(c, s, w) + 13 * s.owed
  {
  }

  lemma StaffRest<O>(c: Work<O>, s: System<O>, s': System<O>, w: nat)
    requires WellSized(c, s) && WellSized(c, s') && Bounded(c, s) && Bounded(c, s')
    requires w < |s.worker| == |s'.worker| && !s.worker[w].Running? && !s'.worker[w].Running?
    requires s' == s.(worker := s.worker[w := s'.worker[w]], count := s'.count, owed := s'.owed, ran := s'.ran)
    requires ThreadRank(c, s', w) + 13 * s'.owed < ThreadRank(c, s, w) + 13 * s.owed
    ensures Measure(c, s') < Measure(c, s)
  {
    RankMoved(c, s, s', w);
    assert Loads(c, s') == Loads(c, s);
    assert PollRank(c, s') == PollRank(c, s);
    hide Ranks, Loads, ThreadRank, PollRank, Strangers, TotalFrom;
  }

  /** A step of somebody else's send. */
  lemma OutFalls<O>(c: Work<O>, s: System<O>, k: nat)
    requires Inv(c, s) && Next(c, s, OutStep(k)) != s
    ensures Inv(c, Next(c, s, OutStep(k))) && Bounded(c, s) && Bounded(c, Next(c, s, OutStep(k)))
    ensures Measure(c, Next(c, s, OutStep(k))) < Measure(c, s)
  {
    hide CS.Inv;
    var t := SenderThread(s, k);
    OutKeeps(c, s, k, Step(t));
    var s' := Next(c, s, OutStep(k));
    InvBounded(c, s);
    InvBounded(c, s');
    OutMovesDown(s.chan, t);
    assert s' == s.(chan := Advance(s.chan, t));
    hide Advance, Next;
    OutRest(c, s, s', t);
  }

  lemma OutMovesDown(chan: Channel.State<Message>, t: nat)
    requires CS.Inv(chan) && |chan.queue| == LEVELS && t < |chan.pc| && SenderOk(chan.pc[t]) && Advance(chan, t) != chan
    ensures var next := Advance(chan, t);
            && OutRank(next.pc[t]) + 20 * Strangers(next) < OutRank(chan.pc[t]) + 20 * Strangers(chan)
            && forall u :: 0 <= u < |chan.pc| && u != t ==> next.pc[u] == chan.pc[u]
  {
    StrangersMove(chan, t);
    hide CS.Inv, Strangers;
  }

  lemma OutRest<O>(c: Work<O>, s: System<O>, s': System<O>, t: nat)
    requires WellSized(c, s) && WellSized(c, s') && Bounded(c, s) && Bounded(c, s')
    requires |s.worker| < t < |s.chan.pc| == |s'.chan.pc| && s' == s.(chan := s'.chan)
    requires forall u :: 0 <= u < |s.chan.pc| && u != t ==> s'.chan.pc[u] == s.chan.pc[u]
    requires OutRank(s'.chan.pc[t]) + 20 * Strangers(s'.chan) < OutRank(s.chan.pc[t]) + 20 * Strangers(s.chan)
    ensures Measure(c, s') < Measure(c, s)
  {
    RankMoved(c, s, s', t);
    assert Loads(c, s') == Loads(c, s);
    assert PollRank(c, s') == PollRank(c, s);
    hide Ranks, Loads, PollRank, Strangers, TotalFrom, OutRank;
  }

  lemma JobFalls<O>(c: Work<O>, s: System<O>, w: nat)
    requires Inv(c, s) && w < |s.worker| && s.worker[w].Running?
    ensures Inv(c, WorkerStep(c, s, w)) && Bounded(c, s) && Bounded(c, WorkerStep(c, s, w))
    ensures Measure(c, WorkerStep(c, s, w)) < Measure(c, s)
  {
    hide CS.Inv;
    var s' := WorkerStep(c, s, w);
    WorkerKeeps(c, s, w);
    InvBounded(c, s);
    InvBounded(c, s');
    var Running(j, k) := s.worker[w];
    assert Held(s, w) == Some(j);
    if k < c.chunks[j].len { WriteKeeps(c, s, w); }
    JobRest(c, s, s', w);
  }

  lemma JobRest<O>(c: Work<O>, s: System<O>, s': System<O>, w: nat)
    requires WellSized(c, s) && WellSized(c, s') && Bounded(c, s) && Bounded(c, s')
    requires |s.taker| <= |c.chunks| && Taken(c, s) && w < |s.worker| && s.worker[w].Running?
    requires s' == RunJob(c, s, w)
    requires s.worker[w].written < c.chunks[s.worker[w].job].len ==>
               c.chunks[s.worker[w].job].base + s.worker[w].written < c.len
    ensures Measure(c, s') < Measure(c, s)
  {
    hide RunJob, TotalFrom, Strangers;
    var j := s.worker[w].job;
    assert Held(s, w) == Some(j);
    JobTrade(c, s, s', w);
    JobFrame(c, s, s', w);
    hide Taken, Held;
    RankMoved(c, s, s', w);
    LoadMoved(c, s, s', j);
    assert PollRank(c, s') == PollRank(c, s);
    hide Ranks, Loads, Load, ThreadRank, PollRank;
  }

  /** A write takes one from the job's load; the countdown takes at least 20, more than the worker's
      return to its loop adds. */
  lemma JobTrade<O>(c: Work<O>, s: System<O>, s': System<O>, w: nat)
    requires WellSized(c, s) && WellSized(c, s') && Bounded(c, s) && Bounded(c, s')
    requires |s.taker| <= |c.chunks| && Taken(c, s) && w < |s.worker| == |s'.worker| && s.worker[w].Running?
    requires s' == RunJob(c, s, w)
    requires s.worker[w].written < c.chunks[s.worker[w].job].len ==>
               c.chunks[s.worker[w].job].base + s.worker[w].written < c.len
    ensures ThreadRank(c, s', w) + Load(c, s', s.worker[w].job) < ThreadRank(c, s, w) + Load(c, s, s.worker[w].job)
    ensures s'.chan == s.chan && s'.poller == s.poller && s'.woken == s.woken && s'.owed == s.owed && |s'.worker| == |s.worker|
    ensures forall v :: 0 <= v < |s.worker| && v != w ==> s'.worker[v] == s.worker[v]
  {
    assert Held(s, w) == Some(s.worker[w].job);
  }

  lemma JobFrame<O>(c: Work<O>, s: System<O>, s': System<O>, w: nat)
    requires WellSized(c, s) && WellSized(c, s') && |s.taker| <= |c.chunks| && Taken(c, s)
    requires w < |s.worker| && s.worker[w].Running? && s' == RunJob(c, s, w)
    ensures forall i :: 0 <= i < |c.chunks| && i != s.worker[w].job ==>
              s'.done[i] == s.done[i] && Progress(c, s', i) == Progress(c, s, i)
  {
    assert Held(s, w) == Some(s.worker[w].job);
    forall i | 0 <= i < |c.chunks| && i != s.worker[w].job
      ensures s'.done[i] == s.done[i] && Progress(c, s', i) == Progress(c, s, i)
    {
      if i < |s.taker| && !s.done[i] { assert Held(s, s.taker[i]) == Some(i); }
    }
  }

  lemma WakeFalls<O>(c: Work<O>, s: System<O>, w: nat)
    requires Inv(c, s) && w < |s.worker| && s.worker[w].Waking?
    ensures Inv(c, WorkerStep(c, s, w)) && Bounded(c, s) && Bounded(c, WorkerStep(c, s, w))
    ensures Measure(c, WorkerStep(c, s, w)) < Measure(c, s)
  {
    hide CS.Inv;
    var s' := WorkerStep(c, s, w);
    WorkerKeeps(c, s, w);
    InvBounded(c, s);
    InvBounded(c, s');
    WakeRest(c, s, s', w);
  }

  lemma WakeRest<O>(c: Work<O>, s: System<O>, s': System<O>, w: nat)
    requires WellSized(c, s) && WellSized(c, s') && Bounded(c, s) && Bounded(c, s')
    requires w < |s.worker| == |s'.worker| && s.worker[w].Waking?
    requires s' == s.(woken := s'.woken, slot := s'.slot, waking := s'.waking, worker := s.worker[w := Top])
    ensures Measure(c, s') < Measure(c, s)
  {
    RankMoved(c, s, s', w);
    assert Loads(c, s') == Loads(c, s);
  }

  lemma PollFalls<O>(c: Work<O>, s: System<O>)
    requires Inv(c, s) && PollStep(c, s) != s
    ensures Inv(c, PollStep(c, s)) && Bounded(c, s) && Bounded(c, PollStep(c, s))
    ensures Measure(c, PollStep(c, s)) < Measure(c, s)
  {
    hide CS.Inv, Advance;
    var s' := PollStep(c, s);
    PollKeeps(c, s);
    InvBounded(c, s);
    InvBounded(c, s');
    if s.poller.Sending? && !s.chan.pc[PollerThread(s)].Ready? {
      SendFalls(c, s);
    } else {
      PollShape(c, s);
      PollRankFalls(c, s);
    }
    hide PollStep, Inv, PollRank, Strangers;
    PollRest(c, s, s');
  }

  lemma PollRest<O>(c: Work<O>, s: System<O>, s': System<O>)
    requires WellSized(c, s) && WellSized(c, s') && Bounded(c, s) && Bounded(c, s') && |s'.chan.pc| == |s.chan.pc|
    requires s' == s.(chan := s'.chan, count := s'.count, owed := s'.owed, poller := s'.poller, polls := s'.polls,
                      slot := s'.slot, woken := s'.woken)
    requires forall t :: 0 <= t < |s.chan.pc| && t != PollerThread(s) ==> s'.chan.pc[t] == s.chan.pc[t]
    requires Strangers(s'.chan) == Strangers(s.chan)
    requires PollRank(c, s') + 13 * s'.owed + (if s'.woken then 5 else 0) < PollRank(c, s) + 13 * s.owed + (if s.woken then 5 else 0)
    ensures Measure(c, s') < Measure(c, s)
  {
    RankMoved(c, s, s', PollerThread(s));
    assert Loads(c, s') == Loads(c, s);
    hide Ranks, Loads, PollRank, Strangers, TotalFrom;
  }

  lemma PollRankFalls<O>(c: Work<O>, s: System<O>)
    requires WellSized(c, s) && PollStep(c, s) != s && Roles(c, s)
    requires !(s.poller.Sending? && !s.chan.pc[PollerThread(s)].Ready?)
    ensures var s' := PollStep(c, s);
            && PollRank(c, s') + 13 * s'.owed + (if s'.woken then 5 else 0) < PollRank(c, s) + 13 * s.owed + (if s.woken then 5 else 0)
            && Strangers(s'.chan) == Strangers(s.chan)
            && forall t :: 0 <= t < |s.chan.pc| && t != PollerThread(s) ==> s'.chan.pc[t] == s.chan.pc[t]
  {
    assert PollStep(c, s).chan.queue == s.chan.queue;
    hide Others, Advance;
  }

  lemma SendFalls<O>(c: Work<O>, s: System<O>)
    requires Inv(c, s) && s.poller.Sending? && !s.chan.pc[PollerThread(s)].Ready? && PollStep(c, s) != s
    ensures var s' := PollStep(c, s);
            && PollRank(c, s') < PollRank(c, s) && s' == s.(chan := s'.chan)
            && Strangers(s'.chan) == Strangers(s.chan)
            && forall t :: 0 <= t < |s.chan.pc| && t != PollerThread(s) ==> s'.chan.pc[t] == s.chan.pc[t]
  {
    hide CS.Inv;
    assert !s.chan.pc[PollerThread(s)].Crashed?;
    StrangersMove(s.chan, PollerThread(s));
    SendMoves(s.chan, PollerThread(s), s.poller.job);
    hide Strangers, Taken, Written, Counted, WakeKept, Staffed;
  }

  lemma NextFalls<O>(c: Work<O>, s: System<O>, e: Event)
    requires Inv(c, s) && !e.Nudge? && !e.OutCall? && !e.OutEnforce? && Next(c, s, e) != s
    ensures Inv(c, Next(c, s, e)) && Bounded(c, s) && Bounded(c, Next(c, s, e))
    ensures Measure(c, Next(c, s, e)) < Measure(c, s)
  {
    hide CS.Inv, WorkerStep, PollStep;
    match e
    case Poll => PollFalls(c, s);
    case Leave(_) => StaffFalls(c, s, e);
    case Hire(_) => StaffFalls(c, s, e);
    case Panic(_) => StaffFalls(c, s, e);
    case OutStep(k) => OutFalls(c, s, k);
    case Act(w) =>
      if s.worker[w].Running? { JobFalls(c, s, w); }
      else if s.worker[w].Waking? { WakeFalls(c, s, w); }
      else { CallFalls(c, s, w); }
  }
}
