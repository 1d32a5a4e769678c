/** What every step of the composed system keeps: each job is in exactly one place, each slot is
    written by its own job in order, the counter is the number of jobs outstanding, no final
    wake-up is lost, and the pool keeps a thread; whatever else goes through the channel. */
module SetSyncSafety {
  import opened Counting
  import opened Channel
  import CS = ChannelSafety
  import opened SetSync

  /** The chunks lie one after another and cover [0, len). */
  ghost predicate Tiles(chunks: seq<Chunk>, len: nat) {
    && (forall j :: 0 <= j < |chunks| ==> chunks[j].base + chunks[j].len <= len)
    && (forall i, j :: 0 <= i < j < |chunks| ==> chunks[i].base + chunks[i].len <= chunks[j].base)
    && (forall x :: 0 <= x < len ==> Covered(chunks, x))
  }

  ghost predicate Covered(chunks: seq<Chunk>, x: nat) {
    exists j :: 0 <= j < |chunks| && InChunk(chunks[j], x)
  }

  ghost predicate InChunk(chunk: Chunk, x: nat) {
    chunk.base <= x < chunk.base + chunk.len
  }

  ghost function Upto(n: nat): (r: seq<nat>) {
    seq(n, i => i)
  }

  /** The jobs among the messages. */
  function Jobs(ms: seq<Message>): seq<nat> {
    if ms == [] then [] else (if ms[0].Job? then [ms[0].index] else []) + Jobs(ms[1..])
  }

  lemma {:induction false} JobsConcat(a: seq<Message>, b: seq<Message>)
    ensures Jobs(a + b) == Jobs(a) + Jobs(b)
  {
    if a == [] {
      assert a + b == b;
    } else {
      assert (a + b)[1..] == a[1..] + b;
      JobsConcat(a[1..], b);
      ghost var first := if a[0].Job? then [a[0].index] else [];
      assert Jobs(a + b) == first + Jobs(a[1..] + b);
      assert first + (Jobs(a[1..]) + Jobs(b)) == (first + Jobs(a[1..])) + Jobs(b);
    }
  }

  lemma JobsAppend(a: seq<Message>, m: Message)
    ensures Jobs(a + [m]) == Jobs(a) + if m.Job? then [m.index] else []
  {
    JobsConcat(a, [m]);
    assert [m][1..] == [];
  }

  // The parts of the invariant.

  ghost predicate RoleOk(worker: Worker, pc: Pc<Message>) {
    match worker
    case InImmediate => pc == TakingImmediate(0) || pc == TryingLevel(0) || pc.Restoring? || pc.Popping? || pc.Ready?
    case InAll => pc.Waiting? || pc.Scanning? || pc.Popping? || (pc.Ready? && pc.last.Some?)
    case Running(j, _) => pc == Ready(Some(Job(j)))
    case Waking => HasJob(pc)
    case Busy => pc == Ready(Some(Foreign))
    case Lost => pc == Ready(Some(Foreign))
    case Deciding => pc == Ready(Some(Idle))
    case _ => pc.Ready?
  }

  /** The future inside a send may have found the queue full. */
  ghost predicate PollerOk<O>(c: Work<O>, poller: Poller<O>, pc: Pc<Message>) {
    match poller
    case Spawning(j) => pc.Ready? && j <= |c.chunks|
    case Sending(j) =>
      && j < |c.chunks|
      && (pc == Pushing(Job(j), JOB_LEVEL) || pc == SignallingLocal(JOB_LEVEL) || pc == SignallingGlobal
          || pc == Ready(None) || pc == Crashed(QueueFull))
    case _ => pc.Ready?
  }

  /** The others only send, and send no job of this set. */
  ghost predicate SenderOk(pc: Pc<Message>) {
    || (pc.Pushing? && !pc.message.Job?)
    || pc.SignallingLocal? || pc.SignallingGlobal? || pc.Ready?
    || (pc.Crashed? && !pc.fault.NoElementFound? && !pc.fault.EmptyPop? && pc.fault != NoSuchLevel(true))
  }

  ghost predicate Roles<O>(c: Work<O>, s: System<O>)
    requires WellSized(c, s)
  {
    && (forall w :: 0 <= w < |s.worker| ==> RoleOk(s.worker[w], s.chan.pc[w]))
    && PollerOk(c, s.poller, s.chan.pc[PollerThread(s)])
    && (forall t :: |s.worker| < t < |s.chan.pc| ==> SenderOk(s.chan.pc[t]))
  }

  /** How many jobs have been pushed. */
  ghost function Sent<O>(c: Work<O>, s: System<O>): nat
    requires WellSized(c, s)
  {
    match s.poller
    case Unpolled => 0
    case Spawning(j) => j
    case Sending(j) => if s.chan.pc[PollerThread(s)].Pushing? || s.chan.pc[PollerThread(s)].Crashed? then j else j + 1
    case _ => |c.chunks|
  }

  /** Level 1 has had the first n jobs, in order, among other messages; level 0 has had none. */
  ghost predicate Carries(levels: seq<seq<Message>>, n: nat) {
    |levels| == LEVELS && Jobs(levels[0]) == [] && Jobs(levels[1]) == Upto(n)
  }

  ghost predicate Lines<O>(c: Work<O>, s: System<O>)
    requires WellSized(c, s)
  {
    && Carries(s.chan.pushed, Sent(c, s))
    && Carries(s.chan.popped, |s.taker|)
    && |s.taker| <= Sent(c, s) <= |c.chunks|
  }

  /** The job in a worker's hands: received, or running. */
  ghost function Held<O>(s: System<O>, w: nat): Option<nat>
    requires w < |s.worker| && w < |s.chan.pc|
  {
    match s.worker[w]
    case Running(j, _) => Some(j)
    case InImmediate => if HasJob(s.chan.pc[w]) then Some(s.chan.pc[w].last.value.index) else None
    case InAll => if HasJob(s.chan.pc[w]) then Some(s.chan.pc[w].last.value.index) else None
    case _ => None
  }

  /** A job popped and not counted down is held by the worker that popped it, and by no other. */
  ghost predicate Taken<O>(c: Work<O>, s: System<O>)
    requires WellSized(c, s) && |s.taker| <= |c.chunks|
  {
    && (forall w :: 0 <= w < |s.worker| && Held(s, w).Some? ==>
          var j := Held(s, w).value; j < |s.taker| && !s.done[j] && s.taker[j] == w)
    && (forall j :: 0 <= j < |s.taker| ==> s.taker[j] < |s.worker|)
    && (forall j :: 0 <= j < |s.taker| && !s.done[j] ==> Held(s, s.taker[j]) == Some(j))
    && (forall j :: |s.taker| <= j < |c.chunks| ==> !s.done[j])
    && (forall w :: 0 <= w < |s.worker| && s.worker[w].Running? ==>
          s.worker[w].job < |c.chunks| && s.worker[w].written <= c.chunks[s.worker[w].job].len)
  }

  ghost function Present(): Worker -> nat {
    (w: Worker) => if w.Absent? then 0 else 1
  }

  /** The counter counts the threads and those owed, is never more than the cpus, and is positive once
      the future has asked for threads for its jobs. */
  ghost predicate Staffed<O>(c: Work<O>, s: System<O>) {
    && s.count == s.owed + Sum(s.worker, Present())
    && s.count <= |s.worker|
    && (!s.poller.Unpolled? && |c.chunks| > 0 && |s.worker| > 0 ==> s.count >= 1)
  }

  ghost function Outstanding(): bool -> nat {
    (done: bool) => if done then 0 else 1
  }

  ghost predicate Counted<O>(s: System<O>) {
    && s.remaining == Sum(s.done, Outstanding())
    && s.finals == (if s.remaining == 0 && |s.done| > 0 then 1 else 0)
    && (forall w :: 0 <= w < |s.worker| ==> (s.worker[w].Waking? <==> s.waking == Some(w)))
    && (s.waking.Some? ==> s.remaining == 0 && s.waking.value < |s.worker|)
  }

  /** How many elements job j has written. */
  ghost function Progress<O>(c: Work<O>, s: System<O>, j: nat): nat
    requires WellSized(c, s) && j < |c.chunks|
  {
    if s.done[j] then c.chunks[j].len
    else if j < |s.taker| && s.taker[j] < |s.worker| && s.worker[s.taker[j]].Running? then s.worker[s.taker[j]].written
    else 0
  }

  ghost predicate SlotOk<O>(c: Work<O>, s: System<O>, j: nat, x: nat)
    requires WellSized(c, s) && j < |c.chunks| && x < c.len
  {
    && s.buffer[x] == (if x < c.chunks[j].base + Progress(c, s, j) then Some(c.f(x)) else None)
    && s.writes[x] == (if s.buffer[x].Some? then 1 else 0)
  }

  /** Within its chunk every job has written a prefix, each slot once and with its own value. */
  ghost predicate Written<O>(c: Work<O>, s: System<O>)
    requires WellSized(c, s)
  {
    forall j, x :: 0 <= j < |c.chunks| && 0 <= x < c.len && InChunk(c.chunks[j], x) ==> SlotOk(c, s, j, x)
  }

  /** Once the future is parked with nothing outstanding, its waker has been called or a worker
      is about to call it; the output is handed out only when nothing is outstanding. */
  ghost predicate WakeKept<O>(s: System<O>) {
    match s.poller
    case Loading => s.slot == Some(s.polls) || s.remaining == 0
    case Parked => (s.woken || s.slot == Some(s.polls)) && (s.remaining == 0 ==> s.woken || s.waking.Some?)
    case Finished(output) => s.remaining == 0 && output == s.buffer
    case _ => true
  }

  ghost predicate Inv<O>(c: Work<O>, s: System<O>) {
    && WellSized(c, s)
    && Tiles(c.chunks, c.len)
    && CS.Inv(s.chan)
    && Roles(c, s)
    && Lines(c, s)
    && Taken(c, s)
    && Counted(s)
    && Staffed(c, s)
    && Written(c, s)
    && WakeKept(s)
  }

  // Facts about the channel's own steps here.

  /** The oldest message of a level, and the level without it. */
  lemma OldestJob(chan: Channel.State<Message>, l: nat, p: nat, q: nat)
    requires CS.Inv(chan) && l < LEVELS == |chan.queue| && chan.queue[l] != []
    requires Carries(chan.pushed, p) && Carries(chan.popped, q)
    ensures chan.queue[l][0].Job? ==> l == 1 && chan.queue[l][0] == Job(q) && q < p
    ensures Carries(chan.popped[l := chan.popped[l] + [chan.queue[l][0]]], if chan.queue[l][0].Job? then q + 1 else q)
  {
    OldestFirst(chan.pushed[l], chan.popped[l], chan.queue[l]);
    if chan.queue[l][0].Job? && l == 1 {
      assert Jobs(chan.pushed[1])[q] == chan.queue[l][0].index;
      assert Upto(q + 1) == Upto(q) + [q];
    }
    hide CS.Inv, Jobs;
  }

  lemma OldestFirst(pushed: seq<Message>, popped: seq<Message>, queue: seq<Message>)
    requires pushed == popped + queue && queue != []
    ensures Jobs(popped + [queue[0]]) == Jobs(popped) + if queue[0].Job? then [queue[0].index] else []
    ensures Jobs(popped + [queue[0]]) <= Jobs(pushed)
  {
    assert pushed == (popped + [queue[0]]) + queue[1..];
    JobsConcat(popped + [queue[0]], queue[1..]);
    JobsAppend(popped, queue[0]);
  }

  /** A receive's atomic action: the next job in line comes out, or a message that is no job, or none. */
  lemma ReceiveMoves(chan: Channel.State<Message>, w: nat, p: nat, q: nat)
    requires CS.Inv(chan) && w < |chan.pc| && |chan.queue| == LEVELS
    requires Carries(chan.pushed, p) && Carries(chan.popped, q)
    requires !chan.pc[w].Ready? && !chan.pc[w].Pushing?
    ensures var next := Advance(chan, w);
            && next.pushed == chan.pushed
            && (forall u :: 0 <= u < |chan.pc| && u != w ==> next.pc[u] == chan.pc[u])
            && (if HasJob(next.pc[w])
                then next.pc[w] == Ready(Some(Job(q))) && q < p && Carries(next.popped, q + 1)
                else Carries(next.popped, q))
  {
    CS.TakenIsCounted(chan, w);
    CS.PcsKept(chan, w);
    if chan.pc[w].Popping? {
      assert CS.PcShape(LEVELS, chan.pc[w]);
      OldestJob(chan, chan.pc[w].level, p, q);
    }
    hide CS.Inv, Carries;
  }

  lemma ReceiveRole(chan: Channel.State<Message>, w: nat, worker: Worker)
    requires CS.Inv(chan) && w < |chan.pc| && RoleOk(worker, chan.pc[w]) && !chan.pc[w].Ready? && |chan.queue| == LEVELS
    ensures RoleOk(worker, Advance(chan, w).pc[w])
  {
    CS.TakenIsCounted(chan, w);
  }

  /** The sender's atomic action: a job appears exactly at the push, unless the queue is full. */
  lemma SendMoves(chan: Channel.State<Message>, t: nat, j: nat)
    requires CS.Inv(chan) && t < |chan.pc| && |chan.queue| == LEVELS
    requires chan.pc[t] == Pushing(Job(j), JOB_LEVEL) || chan.pc[t] == SignallingLocal(JOB_LEVEL) || chan.pc[t] == SignallingGlobal
    requires Carries(chan.pushed, if chan.pc[t].Pushing? then j else j + 1)
    ensures var next := Advance(chan, t);
            && next.popped == chan.popped
            && (forall u :: 0 <= u < |chan.pc| && u != t ==> next.pc[u] == chan.pc[u])
            && (if next.pc[t].Crashed? then Carries(next.pushed, j) else Carries(next.pushed, j + 1))
            && (next.pc[t].Crashed? <==> chan.pc[t].Pushing? && |chan.queue[JOB_LEVEL]| >= chan.capacity)
            && (next.pc[t] == SignallingLocal(JOB_LEVEL) || next.pc[t] == SignallingGlobal || next.pc[t] == Ready(None)
                || next.pc[t] == Crashed(QueueFull))
  {
    CS.PcsKept(chan, t);
    if chan.pc[t].Pushing? {
      JobsAppend(chan.pushed[1], Job(j));
      assert Upto(j + 1) == Upto(j) + [j];
    }
  }

  lemma OutStarts(chan: Channel.State<Message>, t: nat, call: Call<Message>)
    requires CS.Inv(chan) && |chan.queue| == LEVELS && call.Send? && !call.message.Job?
    ensures var next := Apply(chan, Start(t, call));
            && CS.Inv(next) && next.popped == chan.popped && next.pushed == chan.pushed
            && (forall u :: 0 <= u < |chan.pc| && u != t ==> next.pc[u] == chan.pc[u])
            && (t < |chan.pc| && SenderOk(chan.pc[t]) ==> SenderOk(next.pc[t]))
  {
    CS.ApplyKeeps(chan, Start(t, call));
    hide CS.Inv;
  }

  lemma SenderShape(chan: Channel.State<Message>, t: nat)
    requires CS.Inv(chan) && |chan.queue| == LEVELS && t < |chan.pc|
    ensures Channel.Shaped(chan) && CS.PcShape(LEVELS, chan.pc[t])
  {
  }

  lemma OutSteps(chan: Channel.State<Message>, t: nat, p: nat)
    requires Channel.Shaped(chan) && |chan.queue| == LEVELS && t < |chan.pc| && SenderOk(chan.pc[t])
    requires Carries(chan.pushed, p) && CS.PcShape(LEVELS, chan.pc[t])
    ensures var next := Advance(chan, t);
            && next.popped == chan.popped && Carries(next.pushed, p)
            && (forall u :: 0 <= u < |chan.pc| && u != t ==> next.pc[u] == chan.pc[u])
            && SenderOk(next.pc[t])
  {
    hide Carries;
    CS.PcsKept(chan, t);
    if chan.pc[t].Pushing? && chan.pc[t].level < LEVELS {
      CarriesPush(chan.pushed, chan.pc[t].level, chan.pc[t].message, p);
    }
  }

  lemma CarriesPush(pushed: seq<seq<Message>>, l: nat, m: Message, p: nat)
    requires Carries(pushed, p) && l < LEVELS && !m.Job?
    ensures l < |pushed| && Carries(pushed[l := pushed[l] + [m]], p)
  {
    JobsAppend(pushed[l], m);
  }

  /** Somebody else's action adds no job and takes no message. */
  lemma OutMoves(chan: Channel.State<Message>, t: nat, a: Channel.Action<Message>, p: nat)
    requires CS.Inv(chan) && |chan.queue| == LEVELS && a.thread == t && (t < |chan.pc| ==> SenderOk(chan.pc[t]))
    requires Carries(chan.pushed, p)
    requires a.Start? ==> a.call.Send? && !a.call.message.Job?
    ensures var next := Apply(chan, a);
            && CS.Inv(next) && next.popped == chan.popped && Carries(next.pushed, p)
            && (forall u :: 0 <= u < |chan.pc| && u != t ==> next.pc[u] == chan.pc[u])
            && (t < |chan.pc| ==> SenderOk(next.pc[t]))
  {
    hide CS.Inv, Carries, SenderOk, Advance;
    match a
    case Start(_, call) => OutStarts(chan, t, call);
    case Step(_) =>
      if t < |chan.pc| {
        CS.AdvanceKeeps(chan, t);
        SenderShape(chan, t);
        OutSteps(chan, t, p);
      }
  }

  // Frames: what a part of the invariant does not look at.

  lemma WrittenFrame<O>(c: Work<O>, s: System<O>, s': System<O>)
    requires WellSized(c, s) && WellSized(c, s') && Written(c, s)
    requires s'.buffer == s.buffer && s'.writes == s.writes
    requires forall j :: 0 <= j < |c.chunks| ==> Progress(c, s', j) == Progress(c, s, j)
    ensures Written(c, s')
  {
    forall j, x | 0 <= j < |c.chunks| && 0 <= x < c.len && InChunk(c.chunks[j], x) ensures SlotOk(c, s', j, x) {
      assert SlotOk(c, s, j, x);
    }
  }

  lemma TakenFrame<O>(c: Work<O>, s: System<O>, s': System<O>)
    requires WellSized(c, s) && WellSized(c, s') && |s.taker| <= |c.chunks| && Taken(c, s)
    requires s'.done == s.done && s'.taker == s.taker && |s'.worker| == |s.worker|
    requires forall w :: 0 <= w < |s.worker| ==> Held(s', w) == Held(s, w)
    requires forall w :: 0 <= w < |s.worker| && s'.worker[w].Running? ==> s'.worker[w] == s.worker[w]
    ensures Taken(c, s')
  {
  }

  /** Thread w's program counter in the channel, and the record of takers, are all that moved;
      a job came out exactly if a taker was recorded. */
  ghost predicate OnlyReceived<O>(s: System<O>, s': System<O>, w: nat) {
    && w < |s.worker| < |s.chan.pc| == |s'.chan.pc|
    && s' == s.(chan := s'.chan, taker := s'.taker)
    && (forall v :: 0 <= v < |s.chan.pc| && v != w ==> s'.chan.pc[v] == s.chan.pc[v])
    && (if HasJob(s'.chan.pc[w])
        then s'.taker == s.taker + [w] && s'.chan.pc[w] == Ready(Some(Job(|s.taker|)))
        else s'.taker == s.taker)
  }

  lemma ReceivedTaken<O>(c: Work<O>, s: System<O>, s': System<O>, w: nat)
    requires WellSized(c, s) && WellSized(c, s') && OnlyReceived(s, s', w)
    requires |s'.taker| <= |c.chunks| && Taken(c, s)
    requires (s.worker[w].InImmediate? || s.worker[w].InAll?) && Held(s, w) == None
    ensures Taken(c, s')
  {
    assert forall v :: 0 <= v < |s.worker| && v != w ==> Held(s', v) == Held(s, v);
    if |s'.taker| == |s.taker| {
      TakenFrame(c, s, s');
    }
  }

  lemma ReceivedWritten<O>(c: Work<O>, s: System<O>, s': System<O>, w: nat)
    requires WellSized(c, s) && WellSized(c, s') && OnlyReceived(s, s', w)
    requires !s.worker[w].Running? && Written(c, s)
    ensures Written(c, s')
  {
    WrittenFrame(c, s, s');
  }

  /** Putting the parts together. */
  lemma Assembled<O>(c: Work<O>, s: System<O>, s': System<O>)
    requires Inv(c, s) && WellSized(c, s')
    requires CS.Inv(s'.chan) && Roles(c, s') && Lines(c, s') && Taken(c, s')
    requires Counted(s') && Staffed(c, s') && Written(c, s') && WakeKept(s')
    ensures Inv(c, s')
  {
  }

  /** Only thread w moved, and neither it nor anything else touched the countdown or the waker. */
  lemma OthersFrame<O>(c: Work<O>, s: System<O>, s': System<O>, w: nat)
    requires WellSized(c, s) && WellSized(c, s') && Roles(c, s) && Counted(s) && WakeKept(s)
    requires w < |s.worker| == |s'.worker| && |s'.chan.pc| == |s.chan.pc| && !s.worker[w].Waking? && !s'.worker[w].Waking?
    requires s' == s.(chan := s'.chan, worker := s.worker[w := s'.worker[w]], count := s'.count, owed := s'.owed, ran := s'.ran, taker := s'.taker)
    requires forall v :: 0 <= v < |s.chan.pc| && v != w ==> s'.chan.pc[v] == s.chan.pc[v]
    requires RoleOk(s'.worker[w], s'.chan.pc[w])
    ensures Roles(c, s') && Counted(s') && WakeKept(s') && Sent(c, s') == Sent(c, s)
  {
  }

  /** Worker w came or went, or neither. */
  lemma StaffedFrame<O>(c: Work<O>, s: System<O>, s': System<O>, w: nat)
    requires Staffed(c, s) && w < |s.worker| == |s'.worker| && s'.worker == s.worker[w := s'.worker[w]]
    requires s'.poller == s.poller
    requires s'.count + s.owed + Present()(s.worker[w]) == s.count + s'.owed + Present()(s'.worker[w])
    requires s'.count <= |s.worker| && (s.count >= 1 ==> s'.count >= 1)
    ensures Staffed(c, s')
  {
    SumUpdate(s.worker, w, s'.worker[w], Present());
  }

  // The workers' steps.

  /** A step of a worker with no job in hand: into a receive call, into or out of something foreign, or
      into or out of the pool. */
  lemma FreeKeeps<O>(c: Work<O>, s: System<O>, s': System<O>, w: nat)
    requires Inv(c, s) && WellSized(c, s') && w < |s.worker| == |s'.worker| && |s'.chan.pc| == |s.chan.pc|
    requires s' == s.(chan := s'.chan, worker := s.worker[w := s'.worker[w]], count := s'.count, owed := s'.owed, ran := s'.ran)
    requires forall v :: 0 <= v < |s.chan.pc| && v != w ==> s'.chan.pc[v] == s.chan.pc[v]
    requires s'.chan.pushed == s.chan.pushed && s'.chan.popped == s.chan.popped && CS.Inv(s'.chan)
    requires Held(s, w) == None == Held(s', w) && !s.worker[w].Running? && !s'.worker[w].Running?
    requires !s.worker[w].Waking? && !s'.worker[w].Waking? && RoleOk(s'.worker[w], s'.chan.pc[w])
    requires Staffed(c, s')
    ensures Inv(c, s')
  {
    hide CS.Inv;
    OthersFrame(c, s, s', w);
    EnteredTaken(c, s, s', w);
    Assembled(c, s, s');
  }

  /** Entering a receive call, from the top of the loop or after a recv_immediate in vain. */
  lemma EnterKeeps<O>(c: Work<O>, s: System<O>, w: nat)
    requires Inv(c, s) && w < |s.worker|
    requires s.worker[w].Top? || (s.worker[w].InImmediate? && s.chan.pc[w] == Ready(None))
    ensures Inv(c, WorkerStep(c, s, w))
  {
    var call: Call<Message> := if s.worker[w].Top? then RecvImmediate(0) else RecvAll;
    CS.StartKeeps(s.chan, w, call);
    hide CS.Inv;
    var s' := WorkerStep(c, s, w);
    assert s'.chan == Apply(s.chan, Start(w, call));
    StaffedFrame(c, s, s', w);
    FreeKeeps(c, s, s', w);
  }

  /** Into or out of something foreign. */
  lemma ForeignKeeps<O>(c: Work<O>, s: System<O>, w: nat)
    requires Inv(c, s) && w < |s.worker| && s.chan.pc[w].Ready?
    requires s.worker[w].Busy? || s.worker[w].Deciding?
             || ((s.worker[w].InImmediate? || s.worker[w].InAll?) && s.chan.pc[w].last.Some? && !s.chan.pc[w].last.value.Job?)
    ensures Inv(c, WorkerStep(c, s, w))
  {
    hide CS.Inv;
    var s' := WorkerStep(c, s, w);
    StaffedFrame(c, s, s', w);
    FreeKeeps(c, s, s', w);
  }

  /** A thread leaves, never the last one; or one that was owed starts; or one is lost. */
  lemma StaffKeeps<O>(c: Work<O>, s: System<O>, e: Event)
    requires Inv(c, s) && (e.Leave? || e.Hire? || e.Panic?)
    ensures Inv(c, Next(c, s, e))
  {
    hide CS.Inv;
    var s' := Next(c, s, e);
    if s' != s {
      StaffMoves(c, s, e);
      hide Tiles, Roles, Lines, Taken, Counted, Staffed, Written, WakeKept, Next, Held, RoleOk;
      FreeKeeps(c, s, s', e.worker);
    }
  }

  lemma StaffMoves<O>(c: Work<O>, s: System<O>, e: Event)
    requires WellSized(c, s) && Roles(c, s) && Staffed(c, s) && (e.Leave? || e.Hire? || e.Panic?) && Next(c, s, e) != s
    ensures var s' := Next(c, s, e); var w := e.worker;
            && w < |s.worker| == |s'.worker| && WellSized(c, s') && s'.chan == s.chan
            && s' == s.(worker := s.worker[w := s'.worker[w]], count := s'.count, owed := s'.owed, ran := s'.ran)
            && Held(s, w) == None == Held(s', w) && !s.worker[w].Running? && !s'.worker[w].Running?
            && !s.worker[w].Waking? && !s'.worker[w].Waking? && RoleOk(s'.worker[w], s'.chan.pc[w])
            && Staffed(c, s')
  {
    StaffedFrame(c, s, Next(c, s, e), e.worker);
  }

  lemma EnteredTaken<O>(c: Work<O>, s: System<O>, s': System<O>, w: nat)
    requires WellSized(c, s) && WellSized(c, s') && |s.taker| <= |c.chunks| && w < |s.worker| == |s'.worker|
    requires Taken(c, s) && Written(c, s)
    requires s' == s.(chan := s'.chan, worker := s.worker[w := s'.worker[w]], count := s'.count, owed := s'.owed, ran := s'.ran)
    requires forall v :: 0 <= v < |s.worker| && v != w ==> s'.chan.pc[v] == s.chan.pc[v]
    requires Held(s, w) == None == Held(s', w) && !s.worker[w].Running? && !s'.worker[w].Running?
    ensures Taken(c, s') && Written(c, s')
  {
    assert forall v :: 0 <= v < |s.worker| && v != w ==> Held(s', v) == Held(s, v);
    TakenFrame(c, s, s');
    WrittenFrame(c, s, s');
  }

  /** A received job starts to run. */
  lemma BeginKeeps<O>(c: Work<O>, s: System<O>, w: nat)
    requires Inv(c, s) && w < |s.worker| && (s.worker[w].InImmediate? || s.worker[w].InAll?) && HasJob(s.chan.pc[w])
    ensures Inv(c, WorkerStep(c, s, w))
  {
    hide CS.Inv;
    var s' := WorkerStep(c, s, w);
    assert Held(s, w).Some? && Held(s', w) == Held(s, w);
    BegunTaken(c, s, s', w);
    OthersFrame(c, s, s', w);
    StaffedFrame(c, s, s', w);
    Assembled(c, s, s');
  }

  lemma BegunTaken<O>(c: Work<O>, s: System<O>, s': System<O>, w: nat)
    requires WellSized(c, s) && WellSized(c, s') && |s.taker| <= |c.chunks| && w < |s.worker|
    requires Taken(c, s) && Written(c, s) && !s.worker[w].Running? && Held(s, w).Some?
    requires s' == s.(worker := s.worker[w := Running(Held(s, w).value, 0)])
    ensures Taken(c, s') && Written(c, s')
  {
    assert forall v :: 0 <= v < |s.worker| ==> Held(s', v) == Held(s, v);
    WrittenFrame(c, s, s');
  }

  lemma ReceiveEffect<O>(c: Work<O>, s: System<O>, w: nat)
    requires WellSized(c, s) && CS.Inv(s.chan) && Roles(c, s) && Lines(c, s)
    requires w < |s.worker| && (s.worker[w].InImmediate? || s.worker[w].InAll?) && !s.chan.pc[w].Ready?
    ensures var s' := Receive(c, s, w);
            && OnlyReceived(s, s', w) && RoleOk(s.worker[w], s'.chan.pc[w])
            && CS.Inv(s'.chan) && Lines(c, s')
  {
    hide CS.Inv, Advance;
    CS.AdvanceKeeps(s.chan, w);
    ReceiveMoves(s.chan, w, Sent(c, s), |s.taker|);
    ReceiveRole(s.chan, w, s.worker[w]);
  }

  /** One atomic action inside a receive call. */
  lemma ReceiveKeeps<O>(c: Work<O>, s: System<O>, w: nat)
    requires Inv(c, s) && w < |s.worker| && (s.worker[w].InImmediate? || s.worker[w].InAll?)
    requires !s.chan.pc[w].Ready?
    ensures Inv(c, WorkerStep(c, s, w)) && WorkerStep(c, s, w) == Receive(c, s, w)
  {
    hide CS.Inv;
    var s' := Receive(c, s, w);
    assert WorkerStep(c, s, w) == s';
    ReceiveEffect(c, s, w);
    hide Receive;
    OthersFrame(c, s, s', w);
    ReceivedWritten(c, s, s', w);
    ReceivedTaken(c, s, s', w);
    StaffedFrame(c, s, s', w);
    Assembled(c, s, s');
  }

  // Running a job.

  /** Different chunks share no slot. */
  lemma ChunksDisjoint(chunks: seq<Chunk>, len: nat, i: nat, j: nat, x: nat)
    requires Tiles(chunks, len) && i < |chunks| && j < |chunks|
    requires InChunk(chunks[i], x) && InChunk(chunks[j], x)
    ensures i == j
  {
  }

  /** The slot a running job writes next. */
  lemma NextSlot<O>(c: Work<O>, s: System<O>, w: nat)
    requires Inv(c, s) && w < |s.worker| && s.worker[w].Running?
    requires s.worker[w].written < c.chunks[s.worker[w].job].len
    ensures s.worker[w].job < |c.chunks| && s.remaining > 0
    ensures var x := c.chunks[s.worker[w].job].base + s.worker[w].written;
            && x < c.len && s.buffer[x] == None && InChunk(c.chunks[s.worker[w].job], x)
            && WorkerStep(c, s, w) == s.(buffer := s.buffer[x := Some(c.f(x))], writes := s.writes[x := s.writes[x] + 1],
                                         worker := s.worker[w := Running(s.worker[w].job, s.worker[w].written + 1)])
  {
    hide CS.Inv, Lines, WakeKept, Staffed, Roles, WorkerStep;
    var Running(j, k) := s.worker[w];
    var x := c.chunks[j].base + k;
    assert Held(s, w) == Some(j);
    assert InChunk(c.chunks[j], x) && SlotOk(c, s, j, x);
    SumAtLeast(s.done, j, Outstanding());
    hide Taken, Written, Tiles, Counted;
    WriteStep(c, s, w);
  }

  lemma WriteStep<O>(c: Work<O>, s: System<O>, w: nat)
    requires WellSized(c, s) && w < |s.worker| && s.worker[w].Running? && s.worker[w].job < |c.chunks|
    requires s.worker[w].written < c.chunks[s.worker[w].job].len
    requires c.chunks[s.worker[w].job].base + s.worker[w].written < c.len
    ensures var x := c.chunks[s.worker[w].job].base + s.worker[w].written;
            WorkerStep(c, s, w) == s.(buffer := s.buffer[x := Some(c.f(x))], writes := s.writes[x := s.writes[x] + 1],
                                      worker := s.worker[w := Running(s.worker[w].job, s.worker[w].written + 1)])
  {
  }

  /** One write of the loop: the slot was empty, belongs to this job's chunk, and gets its value. */
  lemma WriteKeeps<O>(c: Work<O>, s: System<O>, w: nat)
    requires Inv(c, s) && w < |s.worker| && s.worker[w].Running?
    requires s.worker[w].written < c.chunks[s.worker[w].job].len
    ensures Inv(c, WorkerStep(c, s, w))
    ensures s.worker[w].job < |c.chunks|
    ensures var x := c.chunks[s.worker[w].job].base + s.worker[w].written;
            && x < c.len && s.buffer[x] == None && InChunk(c.chunks[s.worker[w].job], x)
            && WorkerStep(c, s, w).buffer == s.buffer[x := Some(c.f(x))]
  {
    NextSlot(c, s, w);
    hide CS.Inv, WorkerStep, Taken, Written, Tiles, Roles, Lines, Counted, WakeKept, Staffed;
    var s' := WorkerStep(c, s, w);
    WriteKeepsSlots(c, s, s', w);
    WriteRest(c, s, s', w);
    StaffedFrame(c, s, s', w);
    Assembled(c, s, s');
  }

  lemma WriteRest<O>(c: Work<O>, s: System<O>, s': System<O>, w: nat)
    requires WellSized(c, s) && WellSized(c, s') && Roles(c, s) && Lines(c, s) && Counted(s) && WakeKept(s)
    requires s.remaining > 0 && w < |s.worker| == |s'.worker| && s.worker[w].Running? && s'.worker[w].Running? && s'.worker[w].job == s.worker[w].job
    requires s' == s.(buffer := s'.buffer, writes := s'.writes, worker := s.worker[w := s'.worker[w]])
    ensures Roles(c, s') && Lines(c, s') && Counted(s') && WakeKept(s')
  {
  }

  lemma WriteKeepsSlots<O>(c: Work<O>, s: System<O>, s': System<O>, w: nat)
    requires WellSized(c, s) && WellSized(c, s') && Tiles(c.chunks, c.len) && |s.taker| <= |c.chunks|
    requires Taken(c, s) && Written(c, s) && w < |s.worker| && s.worker[w].Running?
    requires s.worker[w].written < c.chunks[s.worker[w].job].len
    requires var x := c.chunks[s.worker[w].job].base + s.worker[w].written;
             && x < c.len
             && s' == s.(buffer := s.buffer[x := Some(c.f(x))], writes := s.writes[x := s.writes[x] + 1],
                         worker := s.worker[w := Running(s.worker[w].job, s.worker[w].written + 1)])
    ensures Taken(c, s') && Written(c, s')
  {
    var Running(j, k) := s.worker[w];
    assert Held(s, w) == Some(j);
    assert forall v :: 0 <= v < |s.worker| ==> Held(s', v) == Held(s, v);
    forall i, y | 0 <= i < |c.chunks| && 0 <= y < c.len && InChunk(c.chunks[i], y) ensures SlotOk(c, s', i, y) {
      assert SlotOk(c, s, i, y);
      if i != j && i < |s.taker| && !s.done[i] {
        assert Held(s, s.taker[i]) == Some(i);
      }
      if y == c.chunks[j].base + k {
        ChunksDisjoint(c.chunks, c.len, i, j, y);
      }
    }
  }

  /** The countdown after the last write. */
  lemma CountKeeps<O>(c: Work<O>, s: System<O>, w: nat)
    requires Inv(c, s) && w < |s.worker| && s.worker[w].Running?
    requires s.worker[w].written >= c.chunks[s.worker[w].job].len
    ensures Inv(c, WorkerStep(c, s, w))
    ensures s.remaining > 0 && !s.done[s.worker[w].job]
    ensures WorkerStep(c, s, w).done == s.done[s.worker[w].job := true]
  {
    hide CS.Inv;
    var Running(j, k) := s.worker[w];
    var s' := WorkerStep(c, s, w);
    assert Held(s, w) == Some(j);
    SumUpdate(s.done, j, true, Outstanding());
    SumAtLeast(s.done, j, Outstanding());
    CountKeepsSlots(c, s, s', w);
    CountRest(c, s, s', w);
    StaffedFrame(c, s, s', w);
    Assembled(c, s, s');
  }

  lemma CountRest<O>(c: Work<O>, s: System<O>, s': System<O>, w: nat)
    requires WellSized(c, s) && WellSized(c, s') && Roles(c, s) && Lines(c, s) && Counted(s) && WakeKept(s)
    requires w < |s.worker| && s.worker[w].Running? && s.worker[w].job < |c.chunks| && s.remaining > 0
    requires s' == s.(remaining := s.remaining - 1, done := s.done[s.worker[w].job := true],
                      worker := s.worker[w := if s.remaining == 1 then Waking else Top],
                      waking := if s.remaining == 1 then Some(w) else s.waking,
                      finals := if s.remaining == 1 then s.finals + 1 else s.finals)
    requires s'.remaining == Sum(s'.done, Outstanding())
    ensures Roles(c, s') && Lines(c, s') && Counted(s') && WakeKept(s')
  {
  }

  lemma CountKeepsSlots<O>(c: Work<O>, s: System<O>, s': System<O>, w: nat)
    requires WellSized(c, s) && WellSized(c, s') && |s.taker| <= |c.chunks|
    requires Taken(c, s) && Written(c, s) && w < |s.worker| == |s'.worker| && s.worker[w].Running?
    requires s.worker[w].written >= c.chunks[s.worker[w].job].len
    requires s'.worker[w].Top? || s'.worker[w].Waking?
    requires s' == s.(remaining := s'.remaining, done := s.done[s.worker[w].job := true], waking := s'.waking,
                      finals := s'.finals, worker := s.worker[w := s'.worker[w]])
    ensures Taken(c, s') && Written(c, s')
  {
    var Running(j, k) := s.worker[w];
    assert Held(s, w) == Some(j) && Held(s', w) == None;
    assert forall v :: 0 <= v < |s.worker| && v != w ==> Held(s', v) == Held(s, v);
    forall i, y | 0 <= i < |c.chunks| && 0 <= y < c.len && InChunk(c.chunks[i], y) ensures SlotOk(c, s', i, y) {
      assert SlotOk(c, s, i, y);
      if i != j && i < |s.taker| && !s.done[i] {
        assert Held(s, s.taker[i]) == Some(i);
      }
    }
  }

  /** The last job's worker calls wake. */
  lemma WakeKeeps<O>(c: Work<O>, s: System<O>, w: nat)
    requires Inv(c, s) && w < |s.worker| && s.worker[w].Waking?
    ensures Inv(c, WorkerStep(c, s, w))
  {
    hide CS.Inv;
    var s' := WorkerStep(c, s, w);
    WokenTaken(c, s, s', w);
    WokenRest(c, s, s', w);
    StaffedFrame(c, s, s', w);
    Assembled(c, s, s');
  }

  lemma WokenRest<O>(c: Work<O>, s: System<O>, s': System<O>, w: nat)
    requires WellSized(c, s) && WellSized(c, s') && Roles(c, s) && Lines(c, s) && Counted(s) && WakeKept(s)
    requires w < |s.worker| && s.worker[w].Waking?
    requires s' == s.(woken := s.woken || s.slot == Some(s.polls), slot := None, waking := None, worker := s.worker[w := Top])
    ensures Roles(c, s') && Lines(c, s') && Counted(s') && WakeKept(s')
  {
  }

  lemma WokenTaken<O>(c: Work<O>, s: System<O>, s': System<O>, w: nat)
    requires WellSized(c, s) && WellSized(c, s') && |s.taker| <= |c.chunks| && w < |s.worker| && s.worker[w].Waking?
    requires Taken(c, s) && Written(c, s)
    requires s' == s.(woken := s'.woken, slot := s'.slot, waking := s'.waking, worker := s.worker[w := Top])
    ensures Taken(c, s') && Written(c, s')
  {
    assert forall v :: 0 <= v < |s.worker| ==> Held(s', v) == Held(s, v);
    TakenFrame(c, s, s');
    WrittenFrame(c, s, s');
  }

  lemma WorkerKeeps<O>(c: Work<O>, s: System<O>, w: nat)
    requires Inv(c, s) && w < |s.worker|
    ensures Inv(c, WorkerStep(c, s, w))
  {
    hide CS.Inv;
    match s.worker[w]
    case Absent =>
    case Lost =>
    case Top => EnterKeeps(c, s, w);
    case Running(j, k) =>
      assert Held(s, w) == Some(j);
      if k < c.chunks[j].len { WriteKeeps(c, s, w); } else { CountKeeps(c, s, w); }
    case Waking => WakeKeeps(c, s, w);
    case Busy => ForeignKeeps(c, s, w);
    case Deciding => ForeignKeeps(c, s, w);
    case _ =>
      if !s.chan.pc[w].Ready? { ReceiveKeeps(c, s, w); }
      else if s.chan.pc[w].last == None { EnterKeeps(c, s, w); }
      else if HasJob(s.chan.pc[w]) { BeginKeeps(c, s, w); }
      else { ForeignKeeps(c, s, w); }
  }

  // The future's steps, and the others'.

  lemma PollFrame<O>(c: Work<O>, s: System<O>, s': System<O>)
    requires WellSized(c, s) && WellSized(c, s') && |s.taker| <= |c.chunks| && Taken(c, s) && Written(c, s)
    requires s' == s.(chan := s'.chan, count := s'.count, owed := s'.owed, poller := s'.poller, polls := s'.polls,
                      slot := s'.slot, woken := s'.woken)
    requires forall w :: 0 <= w < |s.worker| ==> s'.chan.pc[w] == s.chan.pc[w]
    ensures Taken(c, s') && Written(c, s')
  {
    assert forall v :: 0 <= v < |s.worker| ==> Held(s', v) == Held(s, v);
    TakenFrame(c, s, s');
    WrittenFrame(c, s, s');
  }

  /** Only the channel, beyond the workers' program counters, and the thread counts changed. */
  lemma OutFrame<O>(c: Work<O>, s: System<O>, s': System<O>)
    requires Inv(c, s) && WellSized(c, s')
    requires s' == s.(chan := s'.chan, count := s'.count, owed := s'.owed)
    requires forall w :: 0 <= w < |s.worker| ==> s'.chan.pc[w] == s.chan.pc[w]
    requires CS.Inv(s'.chan) && Roles(c, s') && Lines(c, s') && Staffed(c, s')
    ensures Inv(c, s')
  {
    assert |s.taker| <= |c.chunks|;
    hide CS.Inv, Roles, Lines, Staffed;
    PollFrame(c, s, s');
  }

  /** Calls for threads raise the count by what they owe, up to the cpus. */
  lemma RaiseKeeps<O>(c: Work<O>, s: System<O>, comingSoon: nat)
    requires Staffed(c, s)
    ensures Staffed(c, Raise(s, comingSoon))
    ensures comingSoon > 0 && |s.worker| > 0 ==> Raise(s, comingSoon).count >= 1
  {
  }

  lemma SendKeeps<O>(c: Work<O>, s: System<O>)
    requires Inv(c, s) && s.poller.Sending? && !s.chan.pc[PollerThread(s)].Ready?
    ensures Inv(c, PollStep(c, s))
    ensures Advance(s.chan, PollerThread(s)).pc[PollerThread(s)].Crashed? ==>
              s.chan.pc[PollerThread(s)].Crashed?
              || (s.chan.pc[PollerThread(s)].Pushing? && |s.chan.queue[JOB_LEVEL]| >= s.chan.capacity)
  {
    hide CS.Inv, Taken, Written, Counted, WakeKept, Tiles;
    var me := PollerThread(s);
    var s' := s.(chan := Advance(s.chan, me));
    assert PollStep(c, s) == s';
    if !s.chan.pc[me].Crashed? {
      hide Advance, PollStep;
      CS.AdvanceKeeps(s.chan, me);
      SendMoves(s.chan, me, s.poller.job);
      assert Roles(c, s') && Lines(c, s');
      OutFrame(c, s, s');
    }
  }

  lemma PollShape<O>(c: Work<O>, s: System<O>)
    requires WellSized(c, s)
    requires s.poller.Spawning? ==> s.chan.pc[PollerThread(s)].Ready?
    requires !(s.poller.Sending? && !s.chan.pc[PollerThread(s)].Ready?)
    ensures var s' := PollStep(c, s);
            && s' == s.(chan := s'.chan, count := s'.count, owed := s'.owed, poller := s'.poller, polls := s'.polls,
                        slot := s'.slot, woken := s'.woken)
            && (forall w :: 0 <= w < |s.worker| ==> s'.chan.pc[w] == s.chan.pc[w])
            && (s'.chan == s.chan || (s.poller.Spawning? && s.poller.next < |c.chunks|
                 && s'.chan == Apply(s.chan, Start(PollerThread(s), Send(Job(s.poller.next), JOB_LEVEL)))))
  {
  }

  lemma PollRoles<O>(c: Work<O>, s: System<O>)
    requires WellSized(c, s) && Roles(c, s) && Lines(c, s)
    requires !(s.poller.Sending? && !s.chan.pc[PollerThread(s)].Ready?)
    ensures var s' := PollStep(c, s); Roles(c, s') && Lines(c, s')
  {
    hide Carries;
  }

  lemma PollWakes<O>(c: Work<O>, s: System<O>)
    requires WellSized(c, s) && Counted(s) && WakeKept(s)
    requires !(s.poller.Sending? && !s.chan.pc[PollerThread(s)].Ready?)
    ensures var s' := PollStep(c, s); Counted(s') && WakeKept(s')
  {
    hide Advance, Apply;
  }

  lemma PollStaffed<O>(c: Work<O>, s: System<O>)
    requires WellSized(c, s) && Staffed(c, s)
    requires !(s.poller.Sending? && !s.chan.pc[PollerThread(s)].Ready?)
    ensures Staffed(c, PollStep(c, s))
  {
    RaiseKeeps(c, s, |c.chunks|);
    hide Advance;
  }

  lemma PollKeeps<O>(c: Work<O>, s: System<O>)
    requires Inv(c, s)
    ensures Inv(c, PollStep(c, s))
  {
    if s.poller.Sending? && !s.chan.pc[PollerThread(s)].Ready? {
      SendKeeps(c, s);
    } else {
      hide CS.Inv;
      if s.poller.Spawning? && s.poller.next < |c.chunks| {
        CS.StartKeeps(s.chan, PollerThread(s), Send(Job(s.poller.next), JOB_LEVEL));
      }
      PollShape(c, s);
      PollRoles(c, s);
      PollWakes(c, s);
      PollStaffed(c, s);
      hide PollStep, Roles, Lines, Counted, WakeKept, Staffed, Taken, Written;
      var s' := PollStep(c, s);
      PollFrame(c, s, s');
      Assembled(c, s, s');
    }
  }

  /** Somebody else's send, or call for threads. */
  lemma OutKeeps<O>(c: Work<O>, s: System<O>, k: nat, a: Channel.Action<Message>)
    requires Inv(c, s) && a.thread == SenderThread(s, k)
    requires a.Start? ==> a.call.Send? && !a.call.message.Job?
    ensures Inv(c, OutMove(s, a))
  {
    var s' := OutMove(s, a);
    OutMoves(s.chan, SenderThread(s, k), a, Sent(c, s));
    hide CS.Inv, Apply, Taken, Written, Counted, WakeKept;
    assert Sent(c, s') == Sent(c, s);
    OutFrame(c, s, s');
  }

  lemma RaisedKeeps<O>(c: Work<O>, s: System<O>, comingSoon: nat)
    requires Inv(c, s)
    ensures Inv(c, Raise(s, comingSoon))
  {
    hide CS.Inv;
    var s' := Raise(s, comingSoon);
    RaiseKeeps(c, s, comingSoon);
    hide Staffed, Taken, Written, Counted, WakeKept;
    OutFrame(c, s, s');
  }

  lemma NextKeeps<O>(c: Work<O>, s: System<O>, e: Event)
    requires Inv(c, s)
    ensures Inv(c, Next(c, s, e))
  {
    hide CS.Inv;
    match e
    case Poll => PollKeeps(c, s);
    case Act(w) => if w < |s.worker| { WorkerKeeps(c, s, w); }
    case Leave(w) => StaffKeeps(c, s, e);
    case Hire(w) => StaffKeeps(c, s, e);
    case Panic(w) => StaffKeeps(c, s, e);
    case OutCall(k, idle, level) => OutKeeps(c, s, k, Start(SenderThread(s, k), Send(if idle then Idle else Foreign, level)));
    case OutStep(k) => OutKeeps(c, s, k, Step(SenderThread(s, k)));
    case OutEnforce(comingSoon) => RaisedKeeps(c, s, comingSoon);
    case Nudge =>
      PollFrame(c, s, s.(woken := true));
      Assembled(c, s, s.(woken := true));
  }

  lemma LaunchKeeps<O>(c: Work<O>, cpus: nat, senders: nat, capacity: nat)
    requires Tiles(c.chunks, c.len)
    ensures Inv(c, Launch(c, cpus, senders, capacity))
  {
    hide CS.Inv, Roles, Lines, Taken, Counted, Staffed, Written, WakeKept, Tiles;
    CS.InitKeeps<Message>(LEVELS, cpus + 1 + senders, capacity);
    LaunchStaffed(c, cpus, senders, capacity);
    LaunchLines(c, cpus, senders, capacity);
    LaunchRoles(c, cpus, senders, capacity);
  }

  lemma LaunchStaffed<O>(c: Work<O>, cpus: nat, senders: nat, capacity: nat)
    ensures var s := Launch(c, cpus, senders, capacity);
            Staffed(c, s) && s.remaining == Sum(s.done, Outstanding())
  {
    var s := Launch(c, cpus, senders, capacity);
    SumConstant(s.done, Outstanding(), 1);
    SumZero(s.worker, Present());
  }

  lemma LaunchRoles<O>(c: Work<O>, cpus: nat, senders: nat, capacity: nat)
    requires Launch(c, cpus, senders, capacity).remaining == Sum(Launch(c, cpus, senders, capacity).done, Outstanding())
    ensures var s := Launch(c, cpus, senders, capacity); Taken(c, s) && Roles(c, s) && Counted(s) && WakeKept(s)
  {
  }

  lemma LaunchLines<O>(c: Work<O>, cpus: nat, senders: nat, capacity: nat)
    ensures var s := Launch(c, cpus, senders, capacity); Lines(c, s) && Written(c, s)
  {
    var s := Launch(c, cpus, senders, capacity);
    assert Upto(0) == [];
    assert Carries(s.chan.pushed, 0) && Carries(s.chan.popped, 0);
    forall j, x | 0 <= j < |c.chunks| && 0 <= x < c.len && InChunk(c.chunks[j], x) ensures SlotOk(c, s, j, x) {}
  }

  lemma {:induction false} EventsKeep<O>(c: Work<O>, s: System<O>, events: seq<Event>)
    requires Inv(c, s)
    ensures Inv(c, RunEvents(c, s, events))
    decreases |events|
  {
    hide CS.Inv;
    if events != [] {
      NextKeeps(c, s, events[0]);
      EventsKeep(c, Next(c, s, events[0]), events[1..]);
    }
  }
}
