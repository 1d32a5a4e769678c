/** The hierarchical channel as a step system: any number of threads, each inside at most
    one call, one atomic action per push, pop, semaphore signal or semaphore decrement. */
module Channel {
  import opened Counting

  /** The ways a call can panic. */
  datatype Fault =
    | NoElementFound             // recv_all scanned every level in vain
    | EmptyPop                   // pop().unwrap() on an empty queue
    | QueueFull                  // the assertion after push
    | NoSuchLevel(lost: bool)    // shared[level] out of range; lost: a global token was held

  /** Where a thread is: outside every call (with what the last receive returned),
      or about to perform the named atomic action. */
  datatype Pc<M> =
    | Ready(last: Option<M>)
    | Pushing(message: M, level: nat)
    | SignallingLocal(level: nat)
    | SignallingGlobal
    | TakingImmediate(level: nat)
    | TryingLevel(level: nat)
    | Restoring
    | Waiting
    | Scanning(level: nat)
    | Popping(level: nat)
    | Crashed(fault: Fault)

  datatype Call<M> = Send(message: M, level: nat) | RecvImmediate(level: nat) | RecvAll

  datatype Action<M> = Start(thread: nat, call: Call<M>) | Step(thread: nat)

  /** `pushed` and `inbox` are histories: what was ever pushed on each level, and what each
      thread has received; `popped` is what was ever popped from each level. */
  datatype State<M> = State(
    queue: seq<seq<M>>,
    local: seq<nat>,
    global: nat,
    pc: seq<Pc<M>>,
    capacity: nat,
    pushed: seq<seq<M>>,
    popped: seq<seq<M>>,
    inbox: seq<seq<M>>)

  function Init<M>(levels: nat, threads: nat, capacity: nat): State<M> {
    State(seq(levels, _ => []), seq(levels, _ => 0), 0, seq(threads, _ => Ready(None)), capacity,
          seq(levels, _ => []), seq(levels, _ => []), seq(threads, _ => []))
  }

  function Entry<M>(call: Call<M>): Pc<M> {
    match call
    case Send(m, level) => Pushing(m, level)
    case RecvImmediate(level) => TakingImmediate(level)
    case RecvAll => Waiting
  }

  /** The arrays have one entry per level, or per thread. */
  predicate Shaped<M>(s: State<M>) {
    && |s.local| == |s.queue| && |s.pushed| == |s.queue| && |s.popped| == |s.queue|
    && |s.inbox| == |s.pc|
  }

  /** The next atomic action of thread t; a thread outside every call, blocked in
      wait_forever or crashed does nothing. */
  function Advance<M>(s: State<M>, t: nat): (r: State<M>)
    requires Shaped(s) && t < |s.pc|
    ensures Shaped(r) && |r.pc| == |s.pc| && |r.queue| == |s.queue|
  {
    match s.pc[t]
    case Ready(_) => s
    case Crashed(_) => s
    case Pushing(m, level) =>
      if level >= |s.queue| then s.(pc := s.pc[t := Crashed(NoSuchLevel(false))])
      else if |s.queue[level]| >= s.capacity then s.(pc := s.pc[t := Crashed(QueueFull)])
      else s.(queue := s.queue[level := s.queue[level] + [m]],
              pushed := s.pushed[level := s.pushed[level] + [m]],
              pc := s.pc[t := SignallingLocal(level)])
    case SignallingLocal(level) =>
      if level >= |s.queue| then s
      else s.(local := s.local[level := s.local[level] + 1], pc := s.pc[t := SignallingGlobal])
    case SignallingGlobal =>
      s.(global := s.global + 1, pc := s.pc[t := Ready(None)])
    case TakingImmediate(level) =>
      if s.global == 0 then s.(pc := s.pc[t := Ready(None)])
      else s.(global := s.global - 1, pc := s.pc[t := TryingLevel(level)])
    case TryingLevel(level) =>
      if level >= |s.queue| then s.(pc := s.pc[t := Crashed(NoSuchLevel(true))])
      else if s.local[level] == 0 then s.(pc := s.pc[t := Restoring])
      else s.(local := s.local[level := s.local[level] - 1], pc := s.pc[t := Popping(level)])
    case Restoring =>
      s.(global := s.global + 1, pc := s.pc[t := Ready(None)])
    case Waiting =>
      if s.global == 0 then s
      else s.(global := s.global - 1, pc := s.pc[t := Scanning(0)])
    case Scanning(level) =>
      if level >= |s.queue| then s.(pc := s.pc[t := Crashed(NoElementFound)])
      else if s.local[level] == 0 then s.(pc := s.pc[t := Scanning(level + 1)])
      else s.(local := s.local[level := s.local[level] - 1], pc := s.pc[t := Popping(level)])
    case Popping(level) =>
      if level >= |s.queue| then s
      else if s.queue[level] == [] then s.(pc := s.pc[t := Crashed(EmptyPop)])
      else
        var m := s.queue[level][0];
        s.(queue := s.queue[level := s.queue[level][1..]],
           popped := s.popped[level := s.popped[level] + [m]],
           inbox := s.inbox[t := s.inbox[t] + [m]],
           pc := s.pc[t := Ready(Some(m))])
  }

  /** One action; an action that is not possible leaves the state alone. */
  function Apply<M>(s: State<M>, a: Action<M>): (r: State<M>)
    requires Shaped(s)
    ensures Shaped(r) && |r.pc| == |s.pc| && |r.queue| == |s.queue|
  {
    if a.thread >= |s.pc| then s
    else
      match a
      case Start(t, call) => if s.pc[t].Ready? then s.(pc := s.pc[t := Entry(call)]) else s
      case Step(t) => Advance(s, t)
  }

  function Run<M>(s: State<M>, actions: seq<Action<M>>): (r: State<M>)
    requires Shaped(s)
    ensures Shaped(r) && |r.pc| == |s.pc| && |r.queue| == |s.queue|
    decreases |actions|
  {
    if actions == [] then s else Run(Apply(s, actions[0]), actions[1..])
  }

  lemma {:induction false} RunConcat<M>(s: State<M>, a: seq<Action<M>>, b: seq<Action<M>>)
    requires Shaped(s)
    ensures Run(s, a + b) == Run(Run(s, a), b)
    decreases |a|
  {
    if a == [] {
      assert a + b == b;
    } else {
      assert (a + b)[1..] == a[1..] + b;
      RunConcat(Apply(s, a[0]), a[1..], b);
    }
  }

  lemma {:induction false} RunCapacity<M>(s: State<M>, actions: seq<Action<M>>)
    requires Shaped(s)
    ensures Run(s, actions).capacity == s.capacity
    decreases |actions|
  {
    if actions != [] {
      RunCapacity(Apply(s, actions[0]), actions[1..]);
    }
  }
}
