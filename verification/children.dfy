/** What a set shares with its children, and what the children do to it: they are pushed on the
    bin's queue, popped in that order by a free thread, run, count down and wake.  A child of
    set_scoped is a future on the pool, so it can be polled, and count down, once more after it was
    ready; the assertion after the second countdown then takes the thread away. */
module Children {
  import opened Counting
  import opened Words

  /** The bin: the room in its queue, and the threads it has, at most one for each cpu. */
  datatype Bin = Bin(capacity: nat, threads: nat)

  /** A child: not yet popped by a worker; in its first poll; ready and, having taken the last count,
      about to wake the guard; ready and done; then the same for a second poll, at whose end its thread
      is lost. */
  datatype Child = Waiting | Active | Waking | Finished | Second | WakingAgain | Spent

  /** What a child's future does with its waker while it is polled. */
  datatype Habit = Habit(clones: bool, wakes: bool) {
    /** Whether the pool may poll it again after it was ready (FutureRepolls.RepollNeedsWaker). */
    predicate Repeats() { clones || wakes }
  }

  /** SharedSet, with the children.  The first `pushed` children have been sent to the bin and the
      first `popped` of them received; `free` threads have no child in hand.  `slot` is the AtomicWaker: the poll whose waker it holds;
      `woken` says whether the waker of the latest poll has been called. */
  datatype Shared = Shared(
    remaining: nat, slot: Option<nat>, polls: nat, woken: bool,
    pushed: nat, popped: nat, free: nat, children: seq<Child>, habits: seq<Habit>)

  /** A worker receives the oldest message, or child i takes its next action. */
  datatype Event = Pop | Go(child: nat)

  function Fresh(habits: seq<Habit>, slot: Option<nat>, polls: nat, threads: nat): Shared {
    Shared(|habits| % TWO_32, slot, polls, false, 0, 0, threads, seq(|habits|, _ => Waiting), habits)
  }

  /** fetch_sub wraps at zero. */
  function CountDown(s: Shared, i: nat, more: Child, last: Child): Shared
    requires i < |s.children|
  {
    s.(remaining := (s.remaining + TWO_32 - 1) % TWO_32, children := s.children[i := if s.remaining == 1 then last else more],
       free := if s.remaining != 1 && more == Finished then s.free + 1 else s.free)
  }

  /** AtomicWaker::wake. */
  function Wake(s: Shared, i: nat, next: Child): Shared
    requires i < |s.children|
  {
    s.(woken := s.woken || s.slot == Some(s.polls), slot := None, children := s.children[i := next],
       free := if next == Finished then s.free + 1 else s.free)
  }

  function Act(s: Shared, e: Event): (r: Shared)
    ensures r.pushed == s.pushed && |r.children| == |s.children|
  {
    match e
    case Pop =>
      if s.popped < s.pushed && s.popped < |s.children| && s.free > 0
      then s.(popped := s.popped + 1, free := s.free - 1, children := s.children[s.popped := Active]) else s
    case Go(i) =>
      if i >= |s.children| then s
      else
        match s.children[i]
        case Waiting => s
        case Active => CountDown(s, i, Finished, Waking)
        case Waking => Wake(s, i, Finished)
        case Finished =>
          if i < |s.habits| && s.habits[i].Repeats() && s.free > 0
          then s.(free := s.free - 1, children := s.children[i := Second]) else s
        case Second => CountDown(s, i, Spent, WakingAgain)
        case WakingAgain => Wake(s, i, Spent)
        case Spent => s
  }

  function Acts(s: Shared, events: seq<Event>): (r: Shared)
    ensures r.pushed == s.pushed && |r.children| == |s.children|
    decreases |events|
  {
    if events == [] then s else Acts(Act(s, events[0]), events[1..])
  }

  predicate IsDone(c: Child) {
    !c.Waiting? && !c.Active?
  }

  ghost function Unfinished(): Child -> nat {
    (c: Child) => if IsDone(c) then 0 else 1
  }

  /** Counted down twice. */
  ghost function Extra(): Child -> nat {
    (c: Child) => if c.WakingAgain? || c.Spent? then 1 else 0
  }

  /** What the counter should be, modulo 2^32. */
  ghost function Balance(children: seq<Child>): int {
    Sum(children, Unfinished()) - Sum(children, Extra())
  }

  /** Has a thread, or has taken one away. */
  ghost function Holds(): Child -> nat {
    (c: Child) => if c.Waiting? || c.Finished? then 0 else 1
  }

  ghost predicate Shaped(s: Shared) {
    && |s.habits| == |s.children| < TWO_32 && s.popped <= s.pushed <= |s.children|
    && (forall i :: 0 <= i < |s.children| ==> (s.children[i].Waiting? <==> s.popped <= i))
    && (forall i :: 0 <= i < |s.children| && (Extra()(s.children[i]) > 0 || s.children[i].Second?) ==> s.habits[i].Repeats())
  }

  /** How many threads the pool has had for the set. */
  ghost function Threads(s: Shared): nat {
    s.free + Sum(s.children, Holds())
  }

  /** The counter is, modulo 2^32, the children unfinished less the second countdowns. */
  ghost predicate Counted(s: Shared) {
    && Shaped(s) && s.remaining < TWO_32
    && (s.remaining - Balance(s.children)) % TWO_32 == 0
  }

  /** No child can be polled after it was ready. */
  ghost predicate Calm(s: Shared) {
    forall i :: 0 <= i < |s.habits| ==> !s.habits[i].Repeats()
  }

  ghost predicate AllDone(s: Shared) {
    forall i :: 0 <= i < |s.children| ==> IsDone(s.children[i])
  }

  /** The waker of the latest poll is registered, or has already been called. */
  ghost predicate Armed(s: Shared) {
    s.woken || s.slot == Some(s.polls)
  }

  ghost predicate SomeoneWaking(s: Shared) {
    exists i :: 0 <= i < |s.children| && (s.children[i].Waking? || s.children[i].WakingAgain?)
  }

  /** A guard left pending will be polled again when the counter is at zero. */
  ghost predicate WillWake(s: Shared) {
    Armed(s) && (s.remaining == 0 ==> s.woken || SomeoneWaking(s))
  }

  ghost predicate Keeps(s: Shared, s': Shared) {
    && Counted(s') && |s'.children| == |s.children| && s'.habits == s.habits
    && s'.pushed == s.pushed && s'.polls == s.polls && Threads(s') == Threads(s)
    && (forall i :: 0 <= i < |s.children| && IsDone(s.children[i]) ==> IsDone(s'.children[i]))
    && (Armed(s) <==> Armed(s'))
    && (WillWake(s) ==> WillWake(s'))
  }

  lemma ActShaped(s: Shared, e: Event)
    requires Shaped(s)
    ensures Shaped(Act(s, e))
  {
    if e.Go? && e.child < |s.children| {
      var s' := Act(s, e);
      assert s' == s.(remaining := s'.remaining, slot := s'.slot, woken := s'.woken, free := s'.free, children := s.children[e.child := s'.children[e.child]]);
      assert s'.children[e.child].Waiting? <==> s.children[e.child].Waiting?;
    }
  }

  lemma ActFrame(s: Shared, e: Event)
    ensures Act(s, e).habits == s.habits && Act(s, e).polls == s.polls
    ensures forall i :: 0 <= i < |s.children| && IsDone(s.children[i]) && (e.Pop? ==> i != s.popped) ==> IsDone(Act(s, e).children[i])
  {
  }

  lemma CountDownWraps(remaining: nat, balance: int)
    requires (remaining - balance) % TWO_32 == 0
    ensures ((remaining + TWO_32 - 1) % TWO_32 - (balance - 1)) % TWO_32 == 0
  {
  }

  /** A countdown comes with a child that finishes or is polled again. */
  lemma ActBalances(s: Shared, e: Event)
    requires Shaped(s)
    ensures var s' := Act(s, e);
            || (s'.remaining == s.remaining && Balance(s'.children) == Balance(s.children))
            || (s'.remaining == (s.remaining + TWO_32 - 1) % TWO_32 && Balance(s'.children) == Balance(s.children) - 1)
  {
    if e.Pop? && s.popped < |s.children| {
      SumUpdate(s.children, s.popped, Active, Unfinished());
      SumUpdate(s.children, s.popped, Active, Extra());
    } else if e.Go? && e.child < |s.children| {
      hide Shaped;
      GoBalances(s, e.child);
    }
  }

  lemma GoBalances(s: Shared, i: nat)
    requires i < |s.children|
    ensures var s' := Act(s, Go(i));
            || (s'.remaining == s.remaining && Balance(s'.children) == Balance(s.children))
            || (s'.remaining == (s.remaining + TWO_32 - 1) % TWO_32 && Balance(s'.children) == Balance(s.children) - 1)
  {
    SumUpdate(s.children, i, Act(s, Go(i)).children[i], Unfinished());
    SumUpdate(s.children, i, Act(s, Go(i)).children[i], Extra());
  }

  /** A thread is free, holds a child, or is lost. */
  lemma ActThreads(s: Shared, e: Event)
    requires Shaped(s)
    ensures Threads(Act(s, e)) == Threads(s)
  {
    var i := if e.Pop? then s.popped else e.child;
    if i < |s.children| {
      SumUpdate(s.children, i, Act(s, e).children[i], Holds());
    }
  }

  lemma ActCounts(s: Shared, e: Event)
    requires Counted(s)
    ensures Counted(Act(s, e))
  {
    ActShaped(s, e);
    ActBalances(s, e);
    CountDownWraps(s.remaining, Balance(s.children));
    hide Shaped, Act, Balance;
  }

  lemma ActWakes(s: Shared, e: Event)
    requires Counted(s) && WillWake(s)
    ensures WillWake(Act(s, e))
  {
    var s' := Act(s, e);
    if SomeoneWaking(s) && !s'.woken {
      var i :| 0 <= i < |s.children| && (s.children[i].Waking? || s.children[i].WakingAgain?);
      assert s'.children[i] == s.children[i];
    } else if e.Go? && e.child < |s.children| && s.remaining == 1 {
      assert s'.remaining == 0 ==> s'.children[e.child].Waking? || s'.children[e.child].WakingAgain?;
    }
  }

  /** A child that has taken the last count calls the waker of the latest poll exactly if it is registered, takes
      it out, and gives its thread back if it was its first poll. */
  lemma WakeRule(s: Shared, i: nat)
    requires i < |s.children| && (s.children[i].Waking? || s.children[i].WakingAgain?)
    ensures var t := Act(s, Go(i));
            && (t.woken <==> s.woken || s.slot == Some(s.polls)) && t.slot == None
            && t.remaining == s.remaining && t.children[i] == (if s.children[i].Waking? then Finished else Spent)
            && t.free == s.free + (if s.children[i].Waking? then 1 else 0)
  {
  }

  lemma ActArmed(s: Shared, e: Event)
    ensures Armed(s) <==> Armed(Act(s, e))
  {
  }

  lemma ActKeeps(s: Shared, e: Event)
    requires Counted(s)
    ensures Keeps(s, Act(s, e))
  {
    ActCounts(s, e);
    ActFrame(s, e);
    if WillWake(s) { ActWakes(s, e); }
    ActArmed(s, e);
    ActThreads(s, e);
    assert s.popped < |s.children| ==> !IsDone(s.children[s.popped]);
    hide Counted, WillWake, Act, Armed, IsDone, Threads;
  }

  lemma {:induction false} ActsKeep(s: Shared, events: seq<Event>)
    requires Counted(s)
    ensures Keeps(s, Acts(s, events))
    decreases |events|
  {
    if events != [] {
      ActKeeps(s, events[0]);
      ActsKeep(Act(s, events[0]), events[1..]);
    }
  }

  lemma {:induction false} AtMostAll(children: seq<Child>)
    ensures Sum(children, Unfinished()) + Sum(children, Extra()) <= |children|
  {
    if children != [] { AtMostAll(children[1..]); }
  }

  /** The counter is at zero exactly when as many children have been polled again as are unfinished. */
  lemma ZeroRule(s: Shared)
    requires Counted(s)
    ensures s.remaining == 0 <==> Sum(s.children, Unfinished()) == Sum(s.children, Extra())
    ensures AllDone(s) <==> Sum(s.children, Unfinished()) == 0
    ensures Calm(s) ==> (s.remaining == 0 <==> AllDone(s))
  {
    AtMostAll(s.children);
    if AllDone(s) { SumZero(s.children, Unfinished()); }
    if Sum(s.children, Unfinished()) == 0 {
      forall i | 0 <= i < |s.children| ensures IsDone(s.children[i]) { SumAtLeast(s.children, i, Unfinished()); }
    }
    if Calm(s) { SumZero(s.children, Extra()); }
  }

  /** No child can do anything more, and no message can be received. */
  ghost predicate Resting(s: Shared) {
    forall e: Event :: Act(s, e) == s
  }

  /** How many actions a child may have ahead of it. */
  ghost function Ahead(): Child -> nat {
    (c: Child) =>
      match c
      case Waiting => 6
      case Active => 5
      case Waking => 4
      case Finished => 3
      case Second => 2
      case WakingAgain => 1
      case Spent => 0
  }

  /** The children come to rest: each of their actions leaves them fewer. */
  lemma ActFalls(s: Shared, e: Event)
    requires Shaped(s) && Act(s, e) != s
    ensures Sum(Act(s, e).children, Ahead()) < Sum(s.children, Ahead())
  {
    if e.Pop? {
      assert s.children[s.popped].Waiting?;
      hide Shaped;
      SumUpdate(s.children, s.popped, Active, Ahead());
    } else {
      hide Shaped;
      GoFalls(s, e.child);
    }
  }

  lemma GoFalls(s: Shared, i: nat)
    requires i < |s.children| && Act(s, Go(i)) != s
    ensures Sum(Act(s, Go(i)).children, Ahead()) < Sum(s.children, Ahead())
  {
    SumUpdate(s.children, i, Act(s, Go(i)).children[i], Ahead());
  }

  /** At rest no child is in the middle of anything.  With all of them sent, a thread for the set and none that
      can be polled again, they have all finished, and a guard left pending has been woken. */
  lemma RestIsWoken(s: Shared)
    requires Counted(s) && Resting(s)
    ensures forall i :: 0 <= i < |s.children| ==> s.children[i].Waiting? || s.children[i].Finished? || s.children[i].Spent?
    ensures Calm(s) && s.pushed == |s.children| && Threads(s) >= 1 ==>
              && (forall i :: 0 <= i < |s.children| ==> s.children[i].Finished?)
              && (WillWake(s) ==> s.woken)
  {
    forall i | 0 <= i < |s.children| ensures s.children[i].Waiting? || s.children[i].Finished? || s.children[i].Spent? {
      assert Act(s, Go(i)).children[i] == s.children[i];
    }
    if Calm(s) && s.pushed == |s.children| && Threads(s) >= 1 {
      forall i | 0 <= i < |s.children| ensures Holds()(s.children[i]) == 0 { assert Extra()(s.children[i]) == 0; }
      SumZero(s.children, Holds());
      assert Act(s, Pop).popped == s.popped;
      ZeroRule(s);
    }
  }

  /** A pending guard is never forgotten: once no child has anything left to do, and none was polled
      again, it has been woken. */
  lemma QuietIsWoken(s: Shared, events: seq<Event>)
    requires Counted(s) && WillWake(s)
    requires forall i :: 0 <= i < |s.children| ==> Acts(s, events).children[i].Finished?
    ensures Acts(s, events).woken
  {
    ActsKeep(s, events);
    var s' := Acts(s, events);
    SumZero(s'.children, Unfinished());
    SumZero(s'.children, Extra());
    ZeroRule(s');
  }

  lemma FreshCounted(habits: seq<Habit>, slot: Option<nat>, polls: nat, threads: nat)
    requires |habits| < TWO_32
    ensures var s := Fresh(habits, slot, polls, threads); Counted(s) && s.remaining == |habits| && Threads(s) == threads
  {
    var s := Fresh(habits, slot, polls, threads);
    SumConstant(s.children, Unfinished(), 1);
    SumZero(s.children, Extra());
    SumZero(s.children, Holds());
  }

  /** One more child is sent. */
  lemma PushCounted(s: Shared)
    requires Counted(s) && s.pushed < |s.children|
    ensures Counted(s.(pushed := s.pushed + 1)) && Threads(s.(pushed := s.pushed + 1)) == Threads(s)
  {
  }

  // The spawning loop.

  function ScriptAt(script: seq<seq<Event>>, k: nat): seq<Event> {
    if k < |script| then script[k] else []
  }

  datatype Spawning = Spawning(ok: bool, shared: Shared)

  /** Sends the children not yet sent, with the pool running as `script` says after each; a push on
      a full queue panics and leaves the loop. */
  function SpawnRest(s: Shared, capacity: nat, script: seq<seq<Event>>): Spawning
    decreases |s.children| - s.pushed
  {
    if s.pushed >= |s.children| then Spawning(true, s)
    else if s.pushed >= s.popped + capacity then Spawning(false, s)
    else SpawnRest(Acts(s.(pushed := s.pushed + 1), ScriptAt(script, s.pushed)), capacity, script)
  }

  lemma {:induction false} SpawnKeeps(s: Shared, capacity: nat, script: seq<seq<Event>>)
    requires Counted(s)
    ensures var r := SpawnRest(s, capacity, script);
            && Counted(r.shared) && r.shared.habits == s.habits && r.shared.polls == s.polls && Threads(r.shared) == Threads(s)
            && |r.shared.children| == |s.children| && (Armed(s) ==> Armed(r.shared))
            && (r.ok <==> r.shared.pushed == |s.children|)
    decreases |s.children| - s.pushed
  {
    if s.pushed < |s.children| && s.pushed < s.popped + capacity {
      var sent := s.(pushed := s.pushed + 1);
      PushCounted(s);
      ActsKeep(sent, ScriptAt(script, s.pushed));
      assert Armed(s) ==> Armed(sent);
      SpawnKeeps(Acts(sent, ScriptAt(script, s.pushed)), capacity, script);
    }
  }

  /** Spawning, as long as no child is received, only sends. */
  lemma {:induction false} SpawnOnlySends(s: Shared, capacity: nat)
    ensures var r := SpawnRest(s, capacity, []); r.shared == s.(pushed := r.shared.pushed)
    decreases |s.children| - s.pushed
  {
    if s.pushed < |s.children| && s.pushed < s.popped + capacity { SpawnOnlySends(s.(pushed := s.pushed + 1), capacity); }
  }

  /** Children that all fit in the queue are all sent. */
  lemma {:induction false} FittingSent(s: Shared, capacity: nat, script: seq<seq<Event>>)
    requires Counted(s) && |s.children| <= capacity
    ensures SpawnRest(s, capacity, script).ok
    decreases |s.children| - s.pushed
  {
    if s.pushed < |s.children| {
      var sent := s.(pushed := s.pushed + 1);
      PushCounted(s);
      ActsKeep(sent, ScriptAt(script, s.pushed));
      FittingSent(Acts(sent, ScriptAt(script, s.pushed)), capacity, script);
    }
  }

  /** With no worker running, the push after the last that fits fails. */
  lemma {:induction false} OverfullFails(s: Shared, capacity: nat)
    requires s.popped == 0 && s.pushed <= capacity < |s.children|
    ensures !SpawnRest(s, capacity, []).ok
    decreases |s.children| - s.pushed
  {
    if s.pushed < capacity { OverfullFails(s.(pushed := s.pushed + 1), capacity); }
  }
}
