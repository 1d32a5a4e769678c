/** The two guards of a set, polled while the set's children run on other threads: futures that are
    Ready at their first poll, or plain jobs. */
module Guards {
  import opened Counting
  import opened Words
  import opened Children

  datatype PollResult = Ready | Pending | Panicked

  datatype GuardState = NotSpawned(tasks: seq<Habit>) | Spawned | Done | Invalid

  datatype Guard = Guard(state: GuardState, shared: Shared)

  datatype Outcome = Outcome(result: PollResult, guard: Guard)

  const NOTHING_SHARED := Shared.Shared(0, None, 0, false, 0, 0, 0, [], [])

  function New(tasks: seq<Habit>): Guard {
    Guard(NotSpawned(tasks), NOTHING_SHARED)
  }

  /** The check that decides between Ready and Pending. */
  function Settle(s: Shared): Outcome {
    if s.remaining == 0 then Outcome(Ready, Guard(Done, s)) else Outcome(Pending, Guard(Spawned, s))
  }

  function Again(s: Shared): Shared {
    s.(polls := s.polls + 1, woken := false)
  }

  function Register(s: Shared): Shared {
    s.(slot := Some(s.polls))
  }

  /** InternalGuard::poll, with the children running on the bin's threads as `script` says between its
      steps. */
  function PollOf(g: Guard, bin: Bin, script: seq<seq<Event>>): Outcome {
    match g.state
    case NotSpawned(tasks) =>
      if |tasks| >= TWO_32 then Outcome(Panicked, g.(state := Invalid))
      else
        var r := SpawnRest(Fresh(tasks, Some(1), 1, bin.threads), bin.capacity, script);
        if r.ok then Settle(r.shared) else Outcome(Panicked, Guard(Invalid, r.shared))
    case Spawned =>
      var s := Acts(Again(g.shared), ScriptAt(script, 0));
      if s.remaining == 0 then Settle(s)
      else Settle(Acts(Register(Acts(s, ScriptAt(script, 1))), ScriptAt(script, 2)))
    case Done => Outcome(Panicked, g.(state := Invalid))
    case Invalid => Outcome(Panicked, g)
  }

  ghost predicate Sent(s: Shared) {
    Counted(s) && s.pushed == |s.children|
  }

  /** Holds between polls. */
  ghost predicate GuardInv(g: Guard) {
    match g.state
    case NotSpawned(_) => true
    case Spawned => Sent(g.shared) && WillWake(g.shared)
    case Done => Sent(g.shared) && (Calm(g.shared) ==> AllDone(g.shared))
    case Invalid => true
  }

  /** Ready exactly when as many children have counted down a second time as have not counted down at
      all: with no child that can be polled again, exactly when all are done. */
  ghost predicate ReadyRule(o: Outcome) {
    var s := o.guard.shared;
    && (o.result == Ready <==> Sum(s.children, Unfinished()) == Sum(s.children, Extra()))
    && (Calm(s) ==> (o.result == Ready <==> AllDone(s)))
    && (o.result == Pending ==> WillWake(s))
  }

  lemma SettleKeeps(s: Shared)
    requires Sent(s) && (s.remaining != 0 ==> Armed(s))
    ensures GuardInv(Settle(s).guard)
    ensures ReadyRule(Settle(s))
  {
    ZeroRule(s);
  }

  lemma RegisterKeeps(s: Shared)
    requires Sent(s)
    ensures Sent(Register(s)) && Armed(Register(s)) && Register(s).habits == s.habits && Threads(Register(s)) == Threads(s)
    ensures Sent(Again(s)) && Again(s).habits == s.habits && Threads(Again(s)) == Threads(s)
  {
  }

  /** What a poll does with the children it was given. */
  lemma PollKeeps(g: Guard, bin: Bin, script: seq<seq<Event>>)
    requires GuardInv(g)
    ensures var o := PollOf(g, bin, script);
            && GuardInv(o.guard)
            && (o.result == Panicked <==> o.guard.state == Invalid)
            && (o.result != Panicked ==>
                  && Sent(o.guard.shared)
                  && Threads(o.guard.shared) == (if g.state.NotSpawned? then bin.threads else Threads(g.shared))
                  && o.guard.shared.habits == (if g.state.NotSpawned? then g.state.tasks else g.shared.habits)
                  && ReadyRule(o))
  {
    match g.state
    case NotSpawned(tasks) =>
      if |tasks| < TWO_32 {
        FreshCounted(tasks, Some(1), 1, bin.threads);
        SpawnKeeps(Fresh(tasks, Some(1), 1, bin.threads), bin.capacity, script);
        var r := SpawnRest(Fresh(tasks, Some(1), 1, bin.threads), bin.capacity, script);
        if r.ok { SettleKeeps(r.shared); }
      }
    case Spawned => RepeatKeeps(g.shared, script);
    case _ =>
  }

  lemma RepeatKeeps(s: Shared, script: seq<seq<Event>>)
    requires Sent(s)
    ensures var o := PollOf(Guard(Spawned, s), Bin(0, 0), script);
            && GuardInv(o.guard) && Sent(o.guard.shared) && o.guard.shared.habits == s.habits && Threads(o.guard.shared) == Threads(s)
            && o.result != Panicked && ReadyRule(o)
  {
    hide Counted, WillWake, Calm, Acts, Register;
    RegisterKeeps(s);
    ActsKeep(Again(s), ScriptAt(script, 0));
    var looked := Acts(Again(s), ScriptAt(script, 0));
    if looked.remaining == 0 {
      SettleKeeps(looked);
    } else {
      ActsKeep(looked, ScriptAt(script, 1));
      var before := Acts(looked, ScriptAt(script, 1));
      RegisterKeeps(before);
      ActsKeep(Register(before), ScriptAt(script, 2));
      SettleKeeps(Acts(Register(before), ScriptAt(script, 2)));
    }
  }

  /** A poll that nobody disturbs and that leaves the guard pending has registered that poll's own waker, which
      has not been called: what called an earlier one does not count. */
  lemma UndisturbedPoll(g: Guard, bin: Bin)
    ensures var o := PollOf(g, bin, []); var s := o.guard.shared;
            o.result == Pending ==>
              && !s.woken && s.slot == Some(s.polls)
              && s.polls == (if g.state.NotSpawned? then 1 else g.shared.polls + 1)
              && (g.state.Spawned? ==> s.children == g.shared.children && s.remaining == g.shared.remaining)
  {
    if g.state.NotSpawned? { SpawnOnlySends(Fresh(g.state.tasks, Some(1), 1, bin.threads), bin.capacity); }
  }

  class InternalGuard {
    const bin: Bin
    var state: GuardState
    var shared: Shared
    // Histories: what the latest poll returned, and how often Ready was returned.
    var last: Option<PollResult>
    var readies: nat

    function View(): Guard reads this { Guard(state, shared) }

    ghost predicate Valid() reads this {
      && GuardInv(View())
      && match state
         case NotSpawned(_) => last == None && readies == 0
         case Spawned => last == Some(Pending) && readies == 0
         case Done => last == Some(Ready) && readies == 1
         case Invalid => last == Some(Panicked) && readies <= 1
    }

    /** set_scoped */
    constructor (tasks: seq<Habit>, bin: Bin)
      ensures Valid() && View() == New(tasks) && this.bin == bin
    {
      state, shared, last, readies := NotSpawned(tasks), NOTHING_SHARED, None, 0;
      this.bin := bin;
    }

    /** The children run between two polls. */
    method Meanwhile(events: seq<Event>)
      requires Valid() && !state.NotSpawned? && !state.Invalid?
      modifies this`shared
      ensures Valid() && Keeps(old(shared), shared)
    {
      ActsKeep(shared, events);
      shared := Acts(shared, events);
    }

    /** InternalGuard::poll, of a guard in any state.  It is ready exactly when as many children have
        counted down a second time as have not counted down at all: with no child that can be polled
        again, when all are done.  Left pending, it will be woken. */
    method Poll(script: seq<seq<Event>>) returns (r: PollResult)
      requires Valid()
      modifies this
      ensures Valid() && last == Some(r) && readies == old(readies) + (if r == Ready then 1 else 0)
      ensures Outcome(r, View()) == PollOf(old(View()), bin, script)
      ensures old(state).NotSpawned? && |old(state).tasks| < TWO_32 && |old(state).tasks| <= bin.capacity ==> r != Panicked
      ensures r != Panicked ==> (r == Ready <==> Sum(shared.children, Unfinished()) == Sum(shared.children, Extra()))
      ensures r != Panicked && Calm(shared) ==> (r == Ready <==> AllDone(shared))
      ensures r == Pending ==> WillWake(shared)
    {
      PollKeeps(View(), bin, script);
      hide Counted, WillWake, Calm, AllDone, Acts, Settle;
      var peek := state;
      state := Invalid;
      last := Some(Panicked);
      match peek
      case Invalid => return Panicked;
      case Done => return Panicked;
      case NotSpawned(tasks) =>
        if |tasks| >= TWO_32 { return Panicked; }
        shared := Fresh(tasks, Some(1), 1, bin.threads);
        if |tasks| <= bin.capacity { FreshCounted(tasks, Some(1), 1, bin.threads); }
        var sent := SpawnAll(script);
        if !sent { return Panicked; }
        r := Conclude();
      case Spawned =>
        shared := Acts(Again(shared), ScriptAt(script, 0));
        if shared.remaining != 0 {
          shared := Acts(shared, ScriptAt(script, 1));
          shared := Register(shared);
          shared := Acts(shared, ScriptAt(script, 2));
        }
        r := Conclude();
    }

    /** The loop that spawns the children, until all are sent or a push fails. */
    method SpawnAll(script: seq<seq<Event>>) returns (ok: bool)
      modifies this`shared
      ensures Spawning(ok, shared) == SpawnRest(old(shared), bin.capacity, script)
      ensures Counted(old(shared)) && |old(shared.children)| <= bin.capacity ==> ok
    {
      if Counted(shared) && |shared.children| <= bin.capacity { FittingSent(shared, bin.capacity, script); }
      while shared.pushed < |shared.children|
        invariant SpawnRest(shared, bin.capacity, script) == SpawnRest(old(shared), bin.capacity, script)
        decreases |shared.children| - shared.pushed
      {
        if shared.pushed >= shared.popped + bin.capacity { return false; }
        var sent := shared.pushed;
        shared := shared.(pushed := sent + 1);
        shared := Acts(shared, ScriptAt(script, sent));
      }
      return true;
    }

    /** poll_thunk, and what each of its results does to the state. */
    method Conclude() returns (r: PollResult)
      requires readies == 0
      modifies this`state, this`last, this`readies
      ensures Outcome(r, View()) == Settle(old(shared))
      ensures last == Some(r) && readies == if r == Ready then 1 else 0
    {
      if shared.remaining == 0 {
        state, readies, r := Done, 1, Ready;
      } else {
        state, r := Spawned, Pending;
      }
      last := Some(r);
    }

    /** Drop for InternalGuard: the result says whether it panics.  It does exactly if the guard has been
        polled and its latest poll did not return Ready.  When it does not, what the children borrow
        may go: they are all done, if none can be polled again. */
    method Drop() returns (panics: bool)
      requires Valid()
      ensures panics <==> last != None && last != Some(Ready)
      ensures !panics && last != None && Calm(shared) ==> AllDone(shared)
    {
      match state
      case NotSpawned(_) => panics := false;
      case Done => panics := false;
      case Spawned => panics := true;
      case Invalid => panics := true;
    }
  }

  /** A guard polled as long as it is pending, with the children running also between its last poll and its
      drop.  A set that fits in the queue never panics while it is polled. */
  method PollToEnd(guard: InternalGuard, scripts: seq<seq<seq<Event>>>, last: seq<Event>) returns (result: PollResult, panics: bool)
    requires guard.Valid() && guard.state.NotSpawned? && |scripts| > 0
    modifies guard
    ensures guard.Valid() && guard.last == Some(result) && guard.readies == (if result == Ready then 1 else 0)
    ensures |old(guard.state).tasks| < TWO_32 && |old(guard.state).tasks| <= guard.bin.capacity ==> result != Panicked
    ensures panics <==> result != Ready
    ensures !panics && Calm(guard.shared) ==> AllDone(guard.shared)
  {
    result := guard.Poll(scripts[0]);
    var k := 1;
    while k < |scripts| && result == Pending
      invariant 1 <= k <= |scripts| && guard.Valid() && guard.last == Some(result)
      invariant |old(guard.state).tasks| < TWO_32 && |old(guard.state).tasks| <= guard.bin.capacity ==> result != Panicked
      invariant guard.readies == (if result == Ready then 1 else 0)
    {
      result := guard.Poll(scripts[k]);
      k := k + 1;
    }
    if result != Panicked { guard.Meanwhile(last); }
    panics := guard.Drop();
  }

  // The guard of a set of plain jobs.

  datatype Simple = Simple(spawned: bool, shared: Shared)

  datatype SimpleOutcome = SimpleOutcome(result: PollResult, guard: Simple)

  function NewSimple(jobs: u32, threads: nat): Simple {
    Simple(false, Fresh(seq(jobs, _ => Habit(false, false)), None, 0, threads))
  }

  /** SimpleGuard::poll, likewise. */
  function SimplePollOf(g: Simple, bin: Bin, script: seq<seq<Event>>): SimpleOutcome {
    var begun := Again(g.shared);
    var jobs := |begun.children|;
    var r := if g.spawned then Spawning(true, begun) else SpawnRest(begun, bin.capacity, script);
    if !r.ok then SimpleOutcome(Panicked, g.(shared := r.shared))
    else
      var s := Acts(Register(Acts(r.shared, ScriptAt(script, jobs))), ScriptAt(script, jobs + 1));
      SimpleOutcome(if s.remaining == 0 then Ready else Pending, Simple(true, s))
  }

  ghost predicate SimpleInv(g: Simple) {
    && Counted(g.shared) && Calm(g.shared)
    && g.shared.pushed == (if g.spawned then |g.shared.children| else 0)
    && (g.spawned && g.shared.remaining != 0 ==> WillWake(g.shared))
  }

  lemma SimplePollKeeps(g: Simple, bin: Bin, script: seq<seq<Event>>)
    requires SimpleInv(g)
    ensures var o := SimplePollOf(g, bin, script);
            && Counted(o.guard.shared) && Calm(o.guard.shared) && |o.guard.shared.children| == |g.shared.children|
            && (o.result == Panicked ==> !g.spawned && !o.guard.spawned && o.guard.shared.pushed < |g.shared.children|)
            && (o.result != Panicked ==>
                  && SimpleInv(o.guard) && o.guard.spawned
                  && (o.result == Ready <==> AllDone(o.guard.shared))
                  && (o.result == Pending ==> WillWake(o.guard.shared)))
  {
    hide WillWake, SpawnRest, Acts;
    var begun := Again(g.shared);
    var jobs := |begun.children|;
    assert Counted(begun);
    SpawnKeeps(begun, bin.capacity, script);
    var r := if g.spawned then Spawning(true, begun) else SpawnRest(begun, bin.capacity, script);
    if r.ok {
      ActsKeep(r.shared, ScriptAt(script, jobs));
      var before := Acts(r.shared, ScriptAt(script, jobs));
      RegisterKeeps(before);
      ActsKeep(Register(before), ScriptAt(script, jobs + 1));
      SimpleEnd(Acts(Register(before), ScriptAt(script, jobs + 1)));
    }
  }

  /** Likewise: it registers at every poll, after spawning at the first. */
  lemma UndisturbedSimplePoll(g: Simple, bin: Bin)
    ensures var o := SimplePollOf(g, bin, []); var s := o.guard.shared;
            o.result != Panicked ==> !s.woken && s.slot == Some(s.polls) && s.polls == g.shared.polls + 1 && s.children == g.shared.children
  {
    SpawnOnlySends(Again(g.shared), bin.capacity);
  }

  lemma SimpleEnd(s: Shared)
    requires Counted(s) && Armed(s) && Calm(s)
    ensures s.remaining == 0 <==> AllDone(s)
    ensures s.remaining != 0 ==> WillWake(s)
  {
    ZeroRule(s);
  }

  class SimpleGuard {
    const bin: Bin
    var spawned: bool
    var shared: Shared

    function View(): Simple reads this { Simple(spawned, shared) }

    /** Holds as long as no poll has panicked. */
    ghost predicate Valid() reads this { SimpleInv(View()) }

    /** set_simple_scoped: the count is there before anything is spawned. */
    constructor (jobs: u32, bin: Bin)
      ensures Valid() && View() == NewSimple(jobs, bin.threads) && shared.remaining == jobs && this.bin == bin
    {
      spawned, shared := false, Fresh(seq(jobs, _ => Habit(false, false)), None, 0, bin.threads);
      this.bin := bin;
      new;
      FreshCounted(seq(jobs, _ => Habit(false, false)), None, 0, bin.threads);
    }

    /** SimpleGuard::poll: it registers before it looks at the count, spawns only once, and may be
        polled again after it was ready. */
    method Poll(script: seq<seq<Event>>) returns (r: PollResult)
      requires Valid()
      modifies this
      ensures SimpleOutcome(r, View()) == SimplePollOf(old(View()), bin, script)
      ensures old(spawned) || |shared.children| <= bin.capacity ==> r != Panicked
      ensures r != Panicked ==> Valid() && spawned && (r == Ready <==> AllDone(shared))
      ensures r == Pending ==> WillWake(shared)
      ensures r == Panicked ==> Counted(shared) && Calm(shared) && !AllDone(shared)
    {
      SimplePollKeeps(View(), bin, script);
      var jobs := |shared.children|;
      shared := Again(shared);
      ghost var begun := shared;
      if !spawned {
        if jobs <= bin.capacity { FittingSent(shared, bin.capacity, script); }
        while shared.pushed < jobs
          invariant SpawnRest(shared, bin.capacity, script) == SpawnRest(begun, bin.capacity, script)
          invariant !spawned && |shared.children| == jobs
          decreases jobs - shared.pushed
        {
          if shared.pushed >= shared.popped + bin.capacity {
            NotAllSent(shared);
            return Panicked;
          }
          var sent := shared.pushed;
          shared := shared.(pushed := sent + 1);
          shared := Acts(shared, ScriptAt(script, sent));
        }
        spawned := true;
      }
      shared := Acts(shared, ScriptAt(script, jobs));
      shared := Register(shared);
      shared := Acts(shared, ScriptAt(script, jobs + 1));
      r := if shared.remaining == 0 then Ready else Pending;
    }

    /** Drop for SimpleGuard panics exactly when some job has not counted down: also when the guard has
        jobs and was never polled, or when its poll has panicked. */
    method Drop() returns (panics: bool)
      requires Counted(shared) && Calm(shared)
      ensures panics <==> !AllDone(shared)
      ensures shared.pushed < |shared.children| ==> panics
    {
      ZeroRule(shared);
      if shared.pushed < |shared.children| { NotAllSent(shared); }
      panics := shared.remaining != 0;
    }
  }

  lemma NotAllSent(s: Shared)
    requires Counted(s) && s.pushed < |s.children|
    ensures !AllDone(s)
  {
    assert s.children[s.pushed].Waiting?;
  }
}
