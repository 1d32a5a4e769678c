/** Launching and stopping block_party's worker: any number of futures, each submitting its task once,
    the thread_launched flag, and a channel of capacity one that makes senders wait. */
module PartyLaunch {
  import opened Counting

  /** A future: not polled yet; blocked in its send or about to send; about to swap the flag; about to
      launch a worker or to wake the side channel; done submitting. */
  datatype Future = Idle | Sending | Swapping | Launching | SideWaking | Submitted

  /** A worker with its tasks; one that has decided to stop and not yet cleared the flag; one that has gone. */
  datatype Worker = Serving(tasks: seq<nat>) | Stopping | Gone

  /** Task f is the one of future f.  Histories: `answered`, the tasks completed; `woke`, how often the side
      channel was woken. */
  datatype State = State(flag: bool, queue: seq<nat>, futures: seq<Future>, workers: seq<Worker>, answered: seq<nat>, woke: nat)

  datatype Event =
    | Submit(f: nat) | Send(f: nat) | Swap(f: nat) | Launch(f: nat) | SideWake(f: nat)
    | Take(w: nat) | Complete(w: nat, choice: nat) | TimeOut(w: nat) | Clear(w: nat)

  /** The channel's bound: with a message in it, senders wait. */
  const CAPACITY: nat := 1

  function Init(futures: nat): State {
    State(false, [], seq(futures, _ => Idle), [], [], 0)
  }

  predicate Is(s: State, f: nat, p: Future) {
    f < |s.futures| && s.futures[f] == p
  }

  function Set(s: State, f: nat, p: Future): State
    requires f < |s.futures|
  {
    s.(futures := s.futures[f := p])
  }

  predicate Serves(s: State, w: nat) {
    w < |s.workers| && s.workers[w].Serving?
  }

  function Apply(s: State, e: Event): State {
    match e
    case Submit(f) => if Is(s, f, Idle) then Set(s, f, Sending) else s
    case Send(f) =>
      if Is(s, f, Sending) && |s.queue| < CAPACITY then Set(s, f, Swapping).(queue := s.queue + [f]) else s
    case Swap(f) =>
      if Is(s, f, Swapping) then Set(s, f, if s.flag then SideWaking else Launching).(flag := true) else s
    case Launch(f) =>
      if Is(s, f, Launching) then Set(s, f, Submitted).(workers := s.workers + [Serving([])]) else s
    case SideWake(f) => if Is(s, f, SideWaking) then Set(s, f, Submitted).(woke := s.woke + 1) else s
    case Take(w) =>
      if Serves(s, w) && s.queue != []
      then s.(queue := s.queue[1..], workers := s.workers[w := Serving(s.workers[w].tasks + [s.queue[0]])]) else s
    case Complete(w, choice) =>
      if Serves(s, w) && choice < |s.workers[w].tasks|
      then
        var tasks := s.workers[w].tasks;
        s.(workers := s.workers[w := Serving(tasks[..choice] + tasks[choice + 1..])], answered := s.answered + [tasks[choice]])
      else s
    case TimeOut(w) =>
      if w < |s.workers| && s.workers[w] == Serving([]) && s.queue == []
      then s.(workers := s.workers[w := Stopping]) else s
    case Clear(w) =>
      if w < |s.workers| && s.workers[w] == Stopping then s.(flag := false, workers := s.workers[w := Gone]) else s
  }

  function Run(s: State, events: seq<Event>): State
    decreases |events|
  {
    if events == [] then s else Run(Apply(s, events[0]), events[1..])
  }

  ghost function At(p: Future): Future -> nat {
    (q: Future) => if q == p then 1 else 0
  }

  ghost function Living(): Worker -> nat {
    (w: Worker) => if w.Gone? then 0 else 1
  }

  ghost function ServingNow(): Worker -> nat {
    (w: Worker) => if w.Serving? then 1 else 0
  }

  /** The flag is set exactly while one worker is claimed for launch or has not yet cleared it. */
  ghost predicate Inv(s: State) {
    && Sum(s.futures, At(Launching)) + Sum(s.workers, Living()) == (if s.flag then 1 else 0)
    && |s.queue| <= CAPACITY
  }

  function FutureOf(e: Event): Option<nat> {
    match e
    case Submit(f) => Some(f)
    case Send(f) => Some(f)
    case Swap(f) => Some(f)
    case Launch(f) => Some(f)
    case SideWake(f) => Some(f)
    case _ => None
  }

  lemma ApplyInv(s: State, e: Event)
    requires Inv(s)
    ensures Inv(Apply(s, e))
  {
    var s' := Apply(s, e);
    if FutureOf(e).Some? {
      if e.f < |s.futures| { SumUpdate(s.futures, e.f, s'.futures[e.f], At(Launching)); }
      SumAppend(s.workers, Serving([]), Living());
    } else if e.w < |s.workers| {
      SumUpdate(s.workers, e.w, s'.workers[e.w], Living());
      SumAtLeast(s.workers, e.w, Living());
    }
  }

  lemma {:induction false} RunInv(s: State, events: seq<Event>)
    requires Inv(s)
    ensures Inv(Run(s, events))
    decreases |events|
  {
    if events != [] {
      ApplyInv(s, events[0]);
      RunInv(Apply(s, events[0]), events[1..]);
    }
  }

  lemma InitInv(futures: nat)
    ensures Inv(Init(futures)) && Attended(Init(futures)) && Placed(Init(futures))
  {
    SumZero(Init(futures).futures, At(Launching));
  }

  /** Two workers never serve a pool at once, and none lives while the flag is clear. */
  lemma OneWorker(futures: nat, events: seq<Event>, v: nat, w: nat)
    requires var s := Run(Init(futures), events);
             v < |s.workers| && w < |s.workers| && !s.workers[v].Gone? && !s.workers[w].Gone?
    ensures v == w && Run(Init(futures), events).flag
  {
    InitInv(futures);
    RunInv(Init(futures), events);
    OnlyLiving(Run(Init(futures), events), v, w);
  }

  lemma OnlyLiving(s: State, v: nat, w: nat)
    requires Inv(s) && v < |s.workers| && w < |s.workers| && !s.workers[v].Gone? && !s.workers[w].Gone?
    ensures v == w && s.flag && Sum(s.futures, At(Launching)) == 0
  {
    SumAtLeast(s.workers, v, Living());
    if v < w { SumAtLeastTwo(s.workers, v, w, Living()); }
    if w < v { SumAtLeastTwo(s.workers, w, v, Living()); }
  }

  // Every task is in one place.

  function TasksOf(workers: seq<Worker>): (r: seq<seq<nat>>)
    ensures |r| == |workers|
  {
    seq(|workers|, i requires 0 <= i < |workers| => if workers[i].Serving? then workers[i].tasks else [])
  }

  /** Where the tasks are: in the channel, with a worker, or answered. */
  ghost function Located(s: State): multiset<nat> {
    multiset(s.queue) + Bag(TasksOf(s.workers)) + multiset(s.answered)
  }

  predicate Sent(s: State, f: nat) {
    f < |s.futures| && !s.futures[f].Idle? && !s.futures[f].Sending?
  }

  /** A task that was sent is in one place, once, and no other task is anywhere. */
  ghost predicate Placed(s: State) {
    forall f: nat :: Located(s)[f] == if Sent(s, f) then 1 else 0
  }

  lemma FutureMoves(s: State, e: Event)
    requires FutureOf(e).Some? && !e.Launch?
    ensures Located(Apply(s, e)) == Located(s) + if e.Send? && Apply(s, e) != s then multiset{e.f} else multiset{}
  {
    var s' := Apply(s, e);
    assert s'.workers == s.workers && s'.answered == s.answered;
    if e.Send? && s' != s {
      assert multiset(s'.queue) == multiset(s.queue) + multiset{e.f};
    } else {
      assert s'.queue == s.queue;
    }
    hide Apply, Bag, TasksOf;
  }

  lemma LaunchMoves(s: State, f: nat)
    ensures Located(Apply(s, Launch(f))) == Located(s)
  {
    var s' := Apply(s, Launch(f));
    if s' != s {
      assert TasksOf(s'.workers) == TasksOf(s.workers) + [[]];
      BagPush(TasksOf(s.workers));
    }
  }

  lemma WorkerMoves(s: State, e: Event)
    requires FutureOf(e) == None
    ensures Located(Apply(s, e)) == Located(s)
  {
    var s' := Apply(s, e);
    if s' != s {
      if e.Take? { TakeMoves(s, e.w); }
      else if e.Complete? { CompleteMoves(s, e.w, e.choice); }
      else { assert TasksOf(s'.workers) == TasksOf(s.workers); }
    }
  }

  /** Only a send puts a new task anywhere. */
  lemma LocatedMoves(s: State, e: Event)
    ensures Located(Apply(s, e)) == Located(s) + if e.Send? && Apply(s, e) != s then multiset{e.f} else multiset{}
  {
    if FutureOf(e) == None { WorkerMoves(s, e); }
    else if e.Launch? { LaunchMoves(s, e.f); }
    else { FutureMoves(s, e); }
    hide Apply, Located;
  }

  lemma SentMoves(s: State, e: Event, f: nat)
    ensures Sent(Apply(s, e), f) <==> Sent(s, f) || (e == Send(f) && Apply(s, e) != s)
    ensures e == Send(f) && Apply(s, e) != s ==> !Sent(s, f)
  {
  }

  lemma PlacedKept(s: State, e: Event)
    requires Placed(s)
    ensures Placed(Apply(s, e))
  {
    LocatedMoves(s, e);
    forall f: nat ensures Located(Apply(s, e))[f] == if Sent(Apply(s, e), f) then 1 else 0 {
      SentMoves(s, e, f);
      hide Apply, Located, Sent;
    }
  }

  lemma {:induction false} BagPush(ss: seq<seq<nat>>)
    ensures Bag(ss + [[]]) == Bag(ss)
  {
    if ss == [] {
      assert ss + [[]] == [[]];
      assert (ss + [[]])[1..] == [];
    } else {
      assert (ss + [[]])[1..] == ss[1..] + [[]];
      BagPush(ss[1..]);
    }
  }

  /** Worker w's tasks are replaced. */
  lemma TasksReplaced(s: State, s': State, w: nat, tasks: seq<nat>)
    requires Serves(s, w) && s'.workers == s.workers[w := Serving(tasks)]
    ensures forall f: nat ::
              Bag(TasksOf(s'.workers))[f] + multiset(s.workers[w].tasks)[f] == Bag(TasksOf(s.workers))[f] + multiset(tasks)[f]
  {
    assert TasksOf(s'.workers) == TasksOf(s.workers)[w := tasks];
    BagUpdate(TasksOf(s.workers), w, tasks);
    var left := Bag(TasksOf(s'.workers)) + multiset(s.workers[w].tasks);
    var right := Bag(TasksOf(s.workers)) + multiset(tasks);
    forall f: nat
      ensures Bag(TasksOf(s'.workers))[f] + multiset(s.workers[w].tasks)[f] == Bag(TasksOf(s.workers))[f] + multiset(tasks)[f]
    {
      assert left[f] == right[f];
    }
  }

  lemma TakeMoves(s: State, w: nat)
    requires Serves(s, w) && s.queue != []
    ensures Located(Apply(s, Take(w))) == Located(s)
  {
    var s' := Apply(s, Take(w));
    var tasks, m := s.workers[w].tasks, s.queue[0];
    TasksReplaced(s, s', w, tasks + [m]);
    OneMoved(s.queue, tasks);
    assert s'.queue == s.queue[1..] && s'.answered == s.answered;
    hide Bag, TasksOf, Apply;
    forall f: nat ensures Located(s')[f] == Located(s)[f] {}
  }

  lemma CompleteMoves(s: State, w: nat, choice: nat)
    requires Serves(s, w) && choice < |s.workers[w].tasks|
    ensures Located(Apply(s, Complete(w, choice))) == Located(s)
  {
    var s' := Apply(s, Complete(w, choice));
    var tasks := s.workers[w].tasks;
    var rest := tasks[..choice] + tasks[choice + 1..];
    TasksReplaced(s, s', w, rest);
    OneOut(tasks, choice);
    assert multiset(s'.answered) == multiset(s.answered) + multiset{tasks[choice]};
    hide Bag, TasksOf, Apply;
    forall f: nat ensures Located(s')[f] == Located(s)[f] {}
  }

  lemma OneMoved(queue: seq<nat>, tasks: seq<nat>)
    requires queue != []
    ensures multiset(tasks + [queue[0]]) == multiset(tasks) + multiset{queue[0]}
    ensures multiset(queue) == multiset{queue[0]} + multiset(queue[1..])
  {
    assert queue == [queue[0]] + queue[1..];
  }

  lemma OneOut(tasks: seq<nat>, choice: nat)
    requires choice < |tasks|
    ensures multiset(tasks) == multiset(tasks[..choice] + tasks[choice + 1..]) + multiset{tasks[choice]}
  {
    assert tasks == tasks[..choice] + [tasks[choice]] + tasks[choice + 1..];
  }

  // Which submissions are sure to be served.

  /** Nothing can happen unless another future submits. */
  ghost predicate AtRest(s: State) {
    forall e: Event :: !e.Submit? ==> Apply(s, e) == s
  }

  /** How many futures and workers will still see to a message in the channel. */
  ghost function Carers(s: State): nat {
    Sum(s.futures, At(Swapping)) + Sum(s.futures, At(Launching)) + Sum(s.workers, ServingNow())
  }

  ghost predicate Attended(s: State) {
    s.queue != [] ==> Carers(s) > 0
  }

  ghost predicate SomeoneStopping(s: State) {
    exists w :: 0 <= w < |s.workers| && s.workers[w] == Stopping
  }

  /** The swap of a submission happens while a worker is between its decision and the store. */
  ghost predicate Unlucky(s: State, e: Event) {
    e.Swap? && Is(s, e.f, Swapping) && SomeoneStopping(s)
  }

  ghost predicate Lucky(s: State, events: seq<Event>)
    decreases |events|
  {
    events == [] || (!Unlucky(s, events[0]) && Lucky(Apply(s, events[0]), events[1..]))
  }

  /** A swap that finds the flag set, and nobody stopping, finds a worker serving or being launched. */
  lemma SwapFindsWorker(s: State)
    requires Inv(s) && s.flag && !SomeoneStopping(s)
    ensures Sum(s.futures, At(Launching)) + Sum(s.workers, ServingNow()) > 0
  {
    if Sum(s.futures, At(Launching)) == 0 {
      var w := SumWitness(s.workers, Living());
      assert s.workers[w] != Stopping;
      SumAtLeast(s.workers, w, ServingNow());
    }
  }

  lemma FutureAttends(s: State, e: Event)
    requires Inv(s) && Attended(s) && !Unlucky(s, e) && FutureOf(e).Some?
    ensures Attended(Apply(s, e))
  {
    var s' := Apply(s, e);
    if e.f < |s.futures| {
      SumUpdate(s.futures, e.f, s'.futures[e.f], At(Swapping));
      SumUpdate(s.futures, e.f, s'.futures[e.f], At(Launching));
      SumAppend(s.workers, Serving([]), ServingNow());
      if e.Swap? && s.flag && Is(s, e.f, Swapping) { SwapFindsWorker(s); }
    }
  }

  lemma WorkerAttends(s: State, e: Event)
    requires Attended(s) && FutureOf(e) == None
    ensures Attended(Apply(s, e))
  {
    var s' := Apply(s, e);
    if e.w < |s.workers| {
      SumUpdate(s.workers, e.w, s'.workers[e.w], ServingNow());
      SumAtLeast(s.workers, e.w, ServingNow());
    }
  }

  lemma {:induction false} LuckyAttends(s: State, events: seq<Event>)
    requires Inv(s) && Attended(s) && Placed(s) && Lucky(s, events)
    ensures var end := Run(s, events); Inv(end) && Attended(end) && Placed(end)
    decreases |events|
  {
    if events != [] {
      ApplyInv(s, events[0]);
      PlacedKept(s, events[0]);
      if FutureOf(events[0]).Some? { FutureAttends(s, events[0]); } else { WorkerAttends(s, events[0]); }
      LuckyAttends(Apply(s, events[0]), events[1..]);
    }
  }

  /** At rest a future is idle, done, or blocked in its send on a full channel. */
  lemma RestFuture(s: State, f: nat)
    requires AtRest(s) && f < |s.futures|
    ensures s.futures[f] == Idle || s.futures[f] == Submitted || (s.futures[f] == Sending && |s.queue| >= CAPACITY)
  {
    assert Apply(s, Send(f)).futures[f] == s.futures[f];
    assert Apply(s, Swap(f)).futures[f] == s.futures[f];
    assert Apply(s, Launch(f)).futures[f] == s.futures[f];
    assert Apply(s, SideWake(f)).futures[f] == s.futures[f];
  }

  /** At rest no worker is left. */
  lemma RestWorker(s: State, w: nat)
    requires AtRest(s) && w < |s.workers|
    ensures s.workers[w] == Gone
  {
    assert Apply(s, Clear(w)).workers[w] == s.workers[w];
    if s.workers[w].Serving? {
      assert |Apply(s, Take(w)).queue| == |s.queue|;
      assert |Apply(s, Complete(w, 0)).answered| == |s.answered|;
      assert Apply(s, TimeOut(w)).workers[w] == s.workers[w];
    }
  }

  /** Nobody is submitting and no worker lives. */
  ghost predicate Quiet(s: State) {
    && (forall f :: 0 <= f < |s.futures| ==> s.futures[f] == Idle || s.futures[f] == Submitted)
    && (forall w :: 0 <= w < |s.workers| ==> s.workers[w] == Gone)
  }

  lemma RestIsQuiet(s: State)
    requires Attended(s) && AtRest(s)
    ensures Quiet(s) && s.queue == []
  {
    forall w | 0 <= w < |s.workers| ensures s.workers[w] == Gone { RestWorker(s, w); }
    forall f | 0 <= f < |s.futures|
      ensures s.futures[f] == Idle || s.futures[f] == Submitted || (s.futures[f] == Sending && |s.queue| >= CAPACITY)
    {
      RestFuture(s, f);
    }
    SumZero(s.futures, At(Swapping));
    SumZero(s.futures, At(Launching));
    SumZero(s.workers, ServingNow());
  }

  /** A run in which no swap falls between a worker's decision to stop and its store, once it has come
      to rest, has answered every task submitted, once, and leaves no sender blocked. */
  lemma LuckyRunsServeAll(futures: nat, events: seq<Event>)
    requires Lucky(Init(futures), events) && AtRest(Run(Init(futures), events))
    ensures var s := Run(Init(futures), events);
            && Quiet(s) && s.queue == []
            && forall f :: 0 <= f < |s.futures| ==> multiset(s.answered)[f] == if s.futures[f] == Submitted then 1 else 0
  {
    InitInv(futures);
    LuckyAttends(Init(futures), events);
    var s := Run(Init(futures), events);
    RestIsQuiet(s);
    BagEmpty(TasksOf(s.workers));
    assert Located(s) == multiset(s.answered);
  }

  // Which submissions can be left behind.

  /** The task can be in the channel with nothing more to happen. */
  ghost predicate CanStrand(s: State, f: nat) {
    exists events :: AtRest(Run(s, events)) && f in Run(s, events).queue
  }

  /** As long as the task is in the channel, a worker serves or is being launched. */
  ghost predicate Tended(s: State, f: nat) {
    && Sent(s, f)
    && (f in s.queue ==> Sum(s.futures, At(Launching)) + Sum(s.workers, ServingNow()) > 0)
  }

  lemma TendedKept(s: State, e: Event, f: nat)
    requires Inv(s) && Tended(s, f)
    ensures Tended(Apply(s, e), f)
  {
    var s' := Apply(s, e);
    if FutureOf(e).Some? {
      if e.f < |s.futures| { SumUpdate(s.futures, e.f, s'.futures[e.f], At(Launching)); }
      SumAppend(s.workers, Serving([]), ServingNow());
    } else if e.w < |s.workers| {
      SumUpdate(s.workers, e.w, s'.workers[e.w], ServingNow());
    }
  }

  lemma {:induction false} TendedRun(s: State, events: seq<Event>, f: nat)
    requires Inv(s) && Tended(s, f)
    ensures Tended(Run(s, events), f)
    decreases |events|
  {
    if events != [] {
      ApplyInv(s, events[0]);
      TendedKept(s, events[0], f);
      TendedRun(Apply(s, events[0]), events[1..], f);
    }
  }

  lemma TendedIsTaken(s: State, f: nat)
    requires Tended(s, f) && AtRest(s)
    ensures f !in s.queue
  {
    forall w | 0 <= w < |s.workers| ensures s.workers[w] == Gone { RestWorker(s, w); }
    forall g | 0 <= g < |s.futures| ensures s.futures[g] != Launching { RestFuture(s, g); }
    SumZero(s.futures, At(Launching));
    SumZero(s.workers, ServingNow());
  }

  lemma RunOne(s: State, e: Event, rest: seq<Event>)
    ensures Run(s, [e] + rest) == Run(Apply(s, e), rest)
  {
    assert ([e] + rest)[1..] == rest;
  }

  /** While the only worker is stopping and the channel is full, the futures from g on swap in vain and
      wake nobody; then the worker clears the flag. */
  lemma {:induction false} LeaveBehind(s: State, g: nat, w: nat) returns (events: seq<Event>)
    requires Inv(s) && g <= |s.futures| && w < |s.workers| && s.workers[w] == Stopping && |s.queue| >= CAPACITY
    requires forall f :: 0 <= f < g ==> s.futures[f] != Swapping && s.futures[f] != SideWaking
    ensures AtRest(Run(s, events)) && Run(s, events).queue == s.queue
    decreases |s.futures| - g, if g < |s.futures| && s.futures[g] == Swapping then 1 else 0
  {
    OnlyLiving(s, w, w);
    if g == |s.futures| {
      RunOne(s, Clear(w), []);
      events := [Clear(w)] + [];
      LeftBehind(s, w);
    } else if s.futures[g] == Swapping || s.futures[g] == SideWaking {
      var e := if s.futures[g] == Swapping then Swap(g) else SideWake(g);
      ApplyInv(s, e);
      var rest := LeaveBehind(Apply(s, e), if s.futures[g] == Swapping then g else g + 1, w);
      RunOne(s, e, rest);
      events := [e] + rest;
    } else {
      events := LeaveBehind(s, g + 1, w);
    }
  }

  lemma LeftBehind(s: State, w: nat)
    requires Inv(s) && w < |s.workers| && s.workers[w] == Stopping && |s.queue| >= CAPACITY
    requires forall f :: 0 <= f < |s.futures| ==> s.futures[f] != Swapping && s.futures[f] != SideWaking
    ensures AtRest(Apply(s, Clear(w)))
  {
    var s' := Apply(s, Clear(w));
    forall v | 0 <= v < |s.workers| ensures s'.workers[v] == Gone {
      if v != w && !s.workers[v].Gone? { OnlyLiving(s, v, w); }
    }
    OnlyLiving(s, w, w);
    forall f | 0 <= f < |s.futures| ensures s.futures[f] != Launching { SumAtLeast(s.futures, f, At(Launching)); }
    assert s'.futures == s.futures && s'.queue == s.queue;
    hide Apply, Inv;
    NobodyMoves(s');
  }

  /** A task in the channel, whose future is about to swap, can be left there for good exactly when the
      swap happens while a worker has decided to stop and not yet cleared the flag: whatever the
      other futures are doing, and will do. */
  lemma StrandRule(s: State, f: nat)
    requires Inv(s) && Is(s, f, Swapping) && f in s.queue
    ensures CanStrand(Apply(s, Swap(f)), f) <==> SomeoneStopping(s)
  {
    var swapped := Apply(s, Swap(f));
    ApplyInv(s, Swap(f));
    if SomeoneStopping(s) {
      var w: nat :| w < |s.workers| && s.workers[w] == Stopping;
      var events := LeaveBehind(swapped, 0, w);
      assert f in Run(swapped, events).queue;
    } else {
      if s.flag { SwapFindsWorker(s); }
      SumUpdate(s.futures, f, swapped.futures[f], At(Launching));
      forall events | AtRest(Run(swapped, events)) ensures f !in Run(swapped, events).queue {
        TendedRun(swapped, events, f);
        TendedIsTaken(Run(swapped, events), f);
      }
    }
  }

  // What a submission does, and what can come of it.

  /** Each future that is done submitting has launched a worker or woken the side channel, once. */
  ghost predicate Reported(s: State) {
    Sum(s.futures, At(Submitted)) == |s.workers| + s.woke
  }

  lemma ReportedKept(s: State, e: Event)
    requires Reported(s)
    ensures Reported(Apply(s, e))
  {
    var s' := Apply(s, e);
    if FutureOf(e).Some? && e.f < |s.futures| { SumUpdate(s.futures, e.f, s'.futures[e.f], At(Submitted)); }
  }

  lemma {:induction false} EachReports(s: State, events: seq<Event>)
    requires Reported(s)
    ensures Reported(Run(s, events))
    decreases |events|
  {
    if events != [] {
      ReportedKept(s, events[0]);
      EachReports(Apply(s, events[0]), events[1..]);
    }
  }

  /** In every run the submissions completed are the workers launched and the side wakes. */
  lemma SubmissionsReport(futures: nat, events: seq<Event>)
    ensures var s := Run(Init(futures), events); Sum(s.futures, At(Submitted)) == |s.workers| + s.woke
  {
    SumZero(Init(futures).futures, At(Submitted));
    EachReports(Init(futures), events);
  }

  lemma {:induction false} RunMore(s: State, events: seq<Event>, e: Event)
    ensures Run(s, events + [e]) == Apply(Run(s, events), e)
    decreases |events|
  {
    if events == [] {
      assert [] + [e] == [e] && [e][1..] == [];
    } else {
      assert (events + [e])[1..] == events[1..] + [e];
      RunMore(Apply(s, events[0]), events[1..], e);
    }
  }

  lemma Then(start: State, events: seq<Event>, s: State, e: Event) returns (more: seq<Event>, next: State)
    requires Run(start, events) == s
    ensures Run(start, more) == next == Apply(s, e)
  {
    RunMore(start, events, e);
    more, next := events + [e], Apply(s, e);
  }

  lemma LaunchFirst(futures: nat) returns (events: seq<Event>)
    requires futures >= 1
    ensures Run(Init(futures), events) == State(true, [0], Init(futures).futures[0 := Submitted], [Serving([])], [], 0)
  {
    var start := Init(futures);
    var s := start;
    events := [];
    assert Run(start, events) == s;
    hide Run;
    events, s := Then(start, events, s, Submit(0));
    events, s := Then(start, events, s, Send(0));
    assert s == State(false, [0], start.futures[0 := Swapping], [], [], 0);
    events, s := Then(start, events, s, Swap(0));
    events, s := Then(start, events, s, Launch(0));
    assert s == State(true, [0], start.futures[0 := Submitted], [Serving([])], [], 0);
  }

  /** A first future is served in full, and its worker decides to stop. */
  lemma ServeFirst(futures: nat) returns (events: seq<Event>)
    requires futures >= 1
    ensures Run(Init(futures), events) == State(true, [], Init(futures).futures[0 := Submitted], [Stopping], [0], 0)
  {
    var start := Init(futures);
    var s := State(true, [0], start.futures[0 := Submitted], [Serving([])], [], 0);
    events := LaunchFirst(futures);
    TakesAndCompletes(start.futures[0 := Submitted]);
    hide Run, Apply;
    events, s := Then(start, events, s, Take(0));
    events, s := Then(start, events, s, Complete(0, 0));
    events, s := Then(start, events, s, TimeOut(0));
  }

  lemma TakesAndCompletes(futures: seq<Future>)
    ensures Apply(State(true, [0], futures, [Serving([])], [], 0), Take(0)) == State(true, [], futures, [Serving([0])], [], 0)
    ensures Apply(State(true, [], futures, [Serving([0])], [], 0), Complete(0, 0)) == State(true, [], futures, [Serving([])], [0], 0)
    ensures Apply(State(true, [], futures, [Serving([])], [0], 0), TimeOut(0)) == State(true, [], futures, [Stopping], [0], 0)
  {
    assert [] + [0] == [0] && [0][1..] == [] && [0][..0] + [0][1..] == [];
  }

  /** Two futures are enough for a run that ends with nobody left and the second one's task in the channel. */
  lemma StrandSecond(futures: nat) returns (events: seq<Event>)
    requires futures >= 2
    ensures var s := Run(Init(futures), events);
            && AtRest(s) && s.queue == [1] && s.answered == [0] && s.workers == [Gone]
            && s.futures == Init(futures).futures[0 := Submitted][1 := Submitted]
  {
    var start := Init(futures);
    events := ServeFirst(futures);
    var s := State(true, [], start.futures[0 := Submitted], [Stopping], [0], 0);
    hide Run;
    events, s := Then(start, events, s, Submit(1));
    assert s == State(true, [], start.futures[0 := Submitted][1 := Sending], [Stopping], [0], 0);
    events, s := Then(start, events, s, Send(1));
    assert s == State(true, [1], start.futures[0 := Submitted][1 := Swapping], [Stopping], [0], 0);
    events, s := Then(start, events, s, Swap(1));
    assert s == State(true, [1], start.futures[0 := Submitted][1 := SideWaking], [Stopping], [0], 0);
    events, s := Then(start, events, s, Clear(0));
    events, s := Then(start, events, s, SideWake(1));
    assert s == State(false, [1], start.futures[0 := Submitted][1 := Submitted], [Gone], [0], 1);
    hide Apply;
    NobodyMoves(s);
  }

  /** Futures that are idle, done or blocked in a send, and workers that have gone. */
  lemma NobodyMoves(s: State)
    requires forall f :: 0 <= f < |s.futures| ==> !s.futures[f].Swapping? && !s.futures[f].Launching? && !s.futures[f].SideWaking?
    requires forall f :: 0 <= f < |s.futures| && s.futures[f].Sending? ==> |s.queue| >= CAPACITY
    requires forall w :: 0 <= w < |s.workers| ==> s.workers[w] == Gone
    ensures AtRest(s)
  {
  }
}
