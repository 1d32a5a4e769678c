/** set_sync over the thread pool over the channel, as one step system: the future that spawns
    and awaits the jobs, the workers in their receive loop, the jobs' individual writes into the
    output, the countdown and the waker; beside them, everybody else who uses the same pool.
    Channel thread w is the worker in slot w of the pool; the future is polled by the thread after
    the last slot; the threads after that one are the others' senders. */
module SetSync {
  import opened Counting
  import opened Words
  import opened Channel
  import ThreadPolicy

  /** What one job writes: `len` slots from `base` on. */
  datatype Chunk = Chunk(base: nat, len: nat)

  datatype Work<O> = Work(f: nat -> O, chunks: seq<Chunk>, len: nat)

  /** A job of this set; the timer's message to the workers; or any other job or future. */
  datatype Message = Job(index: nat) | Idle | Foreign

  /** A worker's place in its loop.  In a receive call the channel's program counter says where.
      Busy runs something foreign; Deciding has an Idle message; a thread is Lost, and still counted, when
      something foreign has panicked on it. */
  datatype Worker =
    | Absent
    | Top
    | InImmediate
    | InAll
    | Running(job: nat, written: nat)
    | Waking
    | Busy
    | Deciding
    | Lost

  /** The future's place: inside its first poll, inside a later part of a poll, or between polls. */
  datatype Poller<O> =
    | Unpolled
    | Spawning(next: nat)
    | Sending(job: nat)
    | Registering
    | Loading
    | Parked
    | Finished(output: seq<Option<O>>)

  /** `slot` is the AtomicWaker: the poll whose waker it holds.  `woken` says whether the waker of
      the latest poll has been called.  `count` is the thread counter; `owed`, the threads that have
      been counted and not yet started.  Histories: `done`, the jobs that have counted down;
      `taker`, who popped each job; `ran`, how many foreign messages workers have run; `waking`, the
      worker about to call wake; `finals`, how many jobs saw the counter at 1; `writes`, how often each
      slot was written. */
  datatype System<O> = System(
    chan: Channel.State<Message>,
    worker: seq<Worker>,
    count: nat,
    owed: nat,
    poller: Poller<O>,
    polls: nat,
    slot: Option<nat>,
    woken: bool,
    remaining: int,
    buffer: seq<Option<O>>,
    done: seq<bool>,
    taker: seq<nat>,
    ran: nat,
    waking: Option<nat>,
    finals: nat,
    writes: seq<nat>)

  /** Leave is an idle worker's departure, Hire the start of a thread, and Panic the end of one.  The others call send,
      take its atomic actions, and enforce the thread policy for themselves.  Nudge is a wake-up of
      the future that no job caused. */
  datatype Event =
    | Poll
    | Act(worker: nat)
    | Leave(worker: nat)
    | Hire(worker: nat)
    | Panic(worker: nat)
    | OutCall(sender: nat, idle: bool, level: nat)
    | OutStep(sender: nat)
    | OutEnforce(comingSoon: nat)
    | Nudge

  const LEVELS: nat := 2
  const JOB_LEVEL: nat := 1

  /** A pool without a thread yet, on a machine with `cpus` cpus. */
  function Launch<O>(c: Work<O>, cpus: nat, senders: nat, capacity: nat): System<O> {
    System(Channel.Init(LEVELS, cpus + 1 + senders, capacity), seq(cpus, _ => Absent), 0, 0, Unpolled, 0, None, false,
           |c.chunks|, seq(c.len, _ => None), seq(|c.chunks|, _ => false), [], 0, None, 0, seq(c.len, _ => 0))
  }

  ghost predicate WellSized<O>(c: Work<O>, s: System<O>) {
    && Channel.Shaped(s.chan)
    && |s.worker| < |s.chan.pc|
    && |s.chan.queue| == LEVELS
    && |s.buffer| == c.len && |s.writes| == c.len && |s.done| == |c.chunks|
  }

  function PollerThread<O>(s: System<O>): nat { |s.worker| }

  function SenderThread<O>(s: System<O>, k: nat): nat { |s.worker| + 1 + k }

  /** A worker inside a receive call takes the call's next atomic action. */
  ghost function Receive<O>(c: Work<O>, s: System<O>, w: nat): (r: System<O>)
    requires WellSized(c, s) && w < |s.worker|
    ensures WellSized(c, r) && |r.worker| == |s.worker|
  {
    var chan := Advance(s.chan, w);
    s.(chan := chan, taker := if HasJob(chan.pc[w]) then s.taker + [w] else s.taker)
  }

  predicate HasJob(pc: Pc<Message>) {
    pc.Ready? && pc.last.Some? && pc.last.value.Job?
  }

  /** One write of job_creator's loop, or, after the last one, the countdown. */
  ghost function RunJob<O>(c: Work<O>, s: System<O>, w: nat): (r: System<O>)
    requires WellSized(c, s) && w < |s.worker| && s.worker[w].Running?
    ensures WellSized(c, r) && |r.worker| == |s.worker|
  {
    var Running(j, k) := s.worker[w];
    if j >= |c.chunks| then s
    else if k < c.chunks[j].len then
      var x := c.chunks[j].base + k;
      if x >= c.len then s
      else s.(buffer := s.buffer[x := Some(c.f(x))],
              writes := s.writes[x := s.writes[x] + 1],
              worker := s.worker[w := Running(j, k + 1)])
    else
      s.(remaining := s.remaining - 1,
         done := s.done[j := true],
         worker := s.worker[w := if s.remaining == 1 then Waking else Top],
         waking := if s.remaining == 1 then Some(w) else s.waking,
         finals := if s.remaining == 1 then s.finals + 1 else s.finals)
  }

  /** What a worker does with a message. */
  function Taking(m: Message): Worker {
    match m
    case Job(j) => Running(j, 0)
    case Idle => Deciding
    case Foreign => Busy
  }

  ghost function WorkerStep<O>(c: Work<O>, s: System<O>, w: nat): (r: System<O>)
    requires WellSized(c, s) && w < |s.worker|
    ensures WellSized(c, r) && |r.worker| == |s.worker|
  {
    match s.worker[w]
    case Absent => s
    case Lost => s
    case Top =>
      s.(chan := Apply(s.chan, Start(w, RecvImmediate(0))), worker := s.worker[w := InImmediate])
    case InImmediate =>
      if s.chan.pc[w].Ready? then
        match s.chan.pc[w].last
        case Some(m) => s.(worker := s.worker[w := Taking(m)])
        case None => s.(chan := Apply(s.chan, Start(w, RecvAll)), worker := s.worker[w := InAll])
      else Receive(c, s, w)
    case InAll =>
      if s.chan.pc[w].Ready? then
        match s.chan.pc[w].last
        case Some(m) => s.(worker := s.worker[w := Taking(m)])
        case None => s
      else Receive(c, s, w)
    case Running(_, _) => RunJob(c, s, w)
    case Waking =>
      s.(woken := s.woken || s.slot == Some(s.polls), slot := None, waking := None, worker := s.worker[w := Top])
    case Busy => s.(worker := s.worker[w := Top], ran := s.ran + 1)
    case Deciding => s.(worker := s.worker[w := Top])
  }

  /** The count goes up to the number of cpus or of jobs coming soon, whichever is less. */
  function Raise<O>(s: System<O>, comingSoon: nat): System<O> {
    var proposed := Min(comingSoon, |s.worker|);
    if s.count >= proposed then s else s.(count := proposed, owed := s.owed + (proposed - s.count))
  }

  /** The future's next atomic action.  Parked, it is polled again once it has been woken. */
  ghost function PollStep<O>(c: Work<O>, s: System<O>): (r: System<O>)
    requires WellSized(c, s)
    ensures WellSized(c, r) && |r.worker| == |s.worker|
  {
    var me := PollerThread(s);
    match s.poller
    case Unpolled => Raise(s, |c.chunks|).(poller := Spawning(0), polls := s.polls + 1, woken := false)
    case Spawning(j) =>
      if j < |c.chunks| then
        s.(chan := Apply(s.chan, Start(me, Send(Job(j), JOB_LEVEL))), poller := Sending(j))
      else s.(poller := Registering)
    case Sending(j) =>
      if s.chan.pc[me].Ready? then s.(poller := Spawning(j + 1))
      else s.(chan := Advance(s.chan, me))
    case Registering => s.(slot := Some(s.polls), poller := Loading)
    case Loading => if s.remaining == 0 then s.(poller := Finished(s.buffer)) else s.(poller := Parked)
    case Parked => if s.woken then s.(poller := Registering, polls := s.polls + 1, woken := false) else s
    case Finished(_) => s
  }

  /** A step of somebody else's send. */
  function OutMove<O>(s: System<O>, a: Channel.Action<Message>): System<O>
    requires Channel.Shaped(s.chan)
  {
    s.(chan := Apply(s.chan, a))
  }

  ghost function Next<O>(c: Work<O>, s: System<O>, e: Event): (r: System<O>)
    requires WellSized(c, s)
    ensures WellSized(c, r) && |r.worker| == |s.worker|
  {
    match e
    case Poll => PollStep(c, s)
    case Act(w) => if w < |s.worker| then WorkerStep(c, s, w) else s
    case Leave(w) =>
      if w < |s.worker| && s.worker[w].Deciding? && s.count > ThreadPolicy.MIN_THREADS
      then s.(worker := s.worker[w := Absent], count := s.count - 1) else s
    case Hire(w) =>
      if w < |s.worker| && s.worker[w].Absent? && s.owed > 0
      then s.(worker := s.worker[w := Top], owed := s.owed - 1) else s
    case Panic(w) =>
      if w < |s.worker| && s.worker[w].Busy? then s.(worker := s.worker[w := Lost], ran := s.ran + 1) else s
    case OutCall(k, idle, level) => OutMove(s, Start(SenderThread(s, k), Send(if idle then Idle else Foreign, level)))
    case OutStep(k) => OutMove(s, Step(SenderThread(s, k)))
    case OutEnforce(comingSoon) => Raise(s, comingSoon)
    case Nudge => s.(woken := true)
  }

  ghost function RunEvents<O>(c: Work<O>, s: System<O>, events: seq<Event>): (r: System<O>)
    requires WellSized(c, s)
    ensures WellSized(c, r) && |r.worker| == |s.worker|
    decreases |events|
  {
    if events == [] then s else RunEvents(c, Next(c, s, events[0]), events[1..])
  }
}
