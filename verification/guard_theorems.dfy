/** What a set's guard promises over all its polls and every behaviour of the pool meanwhile, and the
    exact conditions under which it does not. */
module GuardTheorems {
  import opened Counting
  import opened Words
  import opened Children
  import opened Guards
  import FutureRepolls

  /** A guard polled as long as it is pending. */
  function PollAll(o: Outcome, bin: Bin, scripts: seq<seq<seq<Event>>>): Outcome
    decreases |scripts|
  {
    if scripts == [] || o.result != Pending then o
    else PollAll(PollOf(o.guard, bin, scripts[0]), bin, scripts[1..])
  }

  function Polls(tasks: seq<Habit>, bin: Bin, scripts: seq<seq<seq<Event>>>): Outcome {
    PollAll(Outcome(Pending, New(tasks)), bin, scripts)
  }

  lemma {:induction false} PollAllKeeps(o: Outcome, bin: Bin, scripts: seq<seq<seq<Event>>>, tasks: seq<Habit>)
    requires GuardInv(o.guard) && Faithful(o, bin, tasks)
    ensures var end := PollAll(o, bin, scripts); GuardInv(end.guard) && Faithful(end, bin, tasks)
    decreases |scripts|
  {
    if scripts != [] && o.result == Pending {
      PollKeeps(o.guard, bin, scripts[0]);
      PollAllKeeps(PollOf(o.guard, bin, scripts[0]), bin, scripts[1..], tasks);
    }
  }

  /** The guard is still about these tasks, on this bin, and an end is as PollKeeps says. */
  ghost predicate Faithful(o: Outcome, bin: Bin, tasks: seq<Habit>) {
    match o.guard.state
    case NotSpawned(t) => o.result == Pending && t == tasks
    case Spawned => o.result == Pending && Sent(o.guard.shared) && o.guard.shared.habits == tasks && Threads(o.guard.shared) == bin.threads
    case Done =>
      && o.result == Ready && Sent(o.guard.shared) && o.guard.shared.habits == tasks && Threads(o.guard.shared) == bin.threads
      && Sum(o.guard.shared.children, Unfinished()) == Sum(o.guard.shared.children, Extra())
    case Invalid => o.result == Panicked
  }

  // How many children a set may have.

  ghost predicate NeverPanics(tasks: seq<Habit>, bin: Bin) {
    forall scripts :: Polls(tasks, bin, scripts).result != Panicked
  }

  lemma {:induction false} SpawnedNeverPanics(o: Outcome, bin: Bin, scripts: seq<seq<seq<Event>>>)
    requires GuardInv(o.guard) && o.result != Panicked && (o.result == Pending ==> o.guard.state.Spawned?)
    ensures PollAll(o, bin, scripts).result != Panicked
    decreases |scripts|
  {
    if scripts != [] && o.result == Pending {
      PollKeeps(o.guard, bin, scripts[0]);
      SpawnedNeverPanics(PollOf(o.guard, bin, scripts[0]), bin, scripts[1..]);
    }
  }

  /** A guard polled until it is ready never panics, whatever the pool does, exactly if its children
      fit in the queue and can be counted in 32 bits. */
  lemma SetCapacityRule(tasks: seq<Habit>, bin: Bin)
    ensures NeverPanics(tasks, bin) <==> |tasks| <= bin.capacity && |tasks| < TWO_32
  {
    var start := Outcome(Pending, New(tasks));
    if |tasks| <= bin.capacity && |tasks| < TWO_32 {
      forall scripts ensures Polls(tasks, bin, scripts).result != Panicked {
        if scripts != [] {
          FreshCounted(tasks, Some(1), 1, bin.threads);
          FittingSent(Fresh(tasks, Some(1), 1, bin.threads), bin.capacity, scripts[0]);
          PollKeeps(New(tasks), bin, scripts[0]);
          SpawnedNeverPanics(PollOf(New(tasks), bin, scripts[0]), bin, scripts[1..]);
        }
      }
    } else {
      if |tasks| < TWO_32 { OverfullFails(Fresh(tasks, Some(1), 1, bin.threads), bin.capacity); }
      assert PollOf(New(tasks), bin, []).result == Panicked;
      assert PollAll(start, bin, [[]]) == PollAll(PollOf(New(tasks), bin, []), bin, []);
      assert Polls(tasks, bin, [[]]).result == Panicked;
    }
  }

  ghost predicate SimpleNeverPanics(jobs: u32, bin: Bin) {
    forall script :: SimplePollOf(NewSimple(jobs, bin.threads), bin, script).result != Panicked
  }

  /** The same for plain jobs, whose number is a 32-bit one from the start. */
  lemma SimpleCapacityRule(jobs: u32, bin: Bin)
    ensures SimpleNeverPanics(jobs, bin) <==> jobs <= bin.capacity
  {
    var habits := seq(jobs, _ => Habit(false, false));
    FreshCounted(habits, None, 0, bin.threads);
    var begun := Again(Fresh(habits, None, 0, bin.threads));
    if jobs <= bin.capacity {
      forall script ensures SimplePollOf(NewSimple(jobs, bin.threads), bin, script).result != Panicked {
        FittingSent(begun, bin.capacity, script);
      }
    } else {
      OverfullFails(begun, bin.capacity);
      assert SimplePollOf(NewSimple(jobs, bin.threads), bin, []).result == Panicked;
    }
  }

  // When Ready means that all children are done.

  /** A child counts twice only if the pool can poll it after it was ready. */
  ghost predicate CanRepeat(h: Habit, bin: Bin) {
    FutureRepolls.MayRepoll(bin.threads, bin.capacity, 0, h.clones, h.wakes)
  }

  /** Some behaviour of the pool has the guard ready with a child still to finish. */
  ghost predicate EarlyReady(tasks: seq<Habit>, bin: Bin) {
    exists scripts ::
      var o := Polls(tasks, bin, scripts);
      o.result == Ready && !AllDone(o.guard.shared)
  }

  /** One extra countdown makes up for one child unfinished, so that takes two children; and it holds or has
      lost a thread, so that with a single one the unfinished child is still in the queue. */
  lemma EarlyNeedsRepeat(s: Shared) returns (i: nat)
    requires Counted(s) && Sum(s.children, Unfinished()) == Sum(s.children, Extra()) && !AllDone(s)
    ensures i < |s.habits| && s.habits[i].Repeats() && |s.children| >= 2
    ensures i < |s.children| - 1 || Threads(s) >= 2
  {
    ZeroRule(s);
    AtMostAll(s.children);
    i := SumWitness(s.children, Extra());
    assert s.habits[i].Repeats();
    if Threads(s) < 2 && i == |s.children| - 1 {
      var j :| 0 <= j < |s.children| && !IsDone(s.children[j]);
      SumAtLeastTwo(s.children, j, i, Holds());
      assert false;
    }
  }

  /** On a pool with a thread, the guard can be ready too early exactly if a child other than the last clones
      or wakes its waker, or the last does and there are two children or more and two threads or more. */
  lemma EarlyReadyRule(tasks: seq<Habit>, bin: Bin)
    requires bin.capacity >= 1 && bin.threads >= 1
    ensures EarlyReady(tasks, bin) <==>
              |tasks| < TWO_32 && exists i :: 0 <= i < |tasks| && CanRepeat(tasks[i], bin)
                                           && (i < |tasks| - 1 || (|tasks| >= 2 && bin.threads >= 2))
  {
    forall h: Habit ensures CanRepeat(h, bin) <==> h.Repeats() {
      FutureRepolls.RepollNeedsWaker(bin.threads, bin.capacity, 0, h.clones, h.wakes);
    }
    hide FutureRepolls.MayRepoll;
    if EarlyReady(tasks, bin) { EarlyIsRepeat(tasks, bin); }
    if |tasks| < TWO_32 && exists i :: 0 <= i < |tasks| && CanRepeat(tasks[i], bin)
                                    && (i < |tasks| - 1 || (|tasks| >= 2 && bin.threads >= 2))
    {
      var i: nat :| i < |tasks| && CanRepeat(tasks[i], bin) && (i < |tasks| - 1 || (|tasks| >= 2 && bin.threads >= 2));
      if i < |tasks| - 1 { EarlyInQueue(tasks, bin, i); } else { EarlyAtWork(tasks, bin); }
    }
  }

  lemma EarlyIsRepeat(tasks: seq<Habit>, bin: Bin)
    requires EarlyReady(tasks, bin)
    ensures |tasks| < TWO_32
    ensures exists i :: 0 <= i < |tasks| && tasks[i].Repeats() && (i < |tasks| - 1 || (|tasks| >= 2 && bin.threads >= 2))
  {
    var scripts :| Polls(tasks, bin, scripts).result == Ready && !AllDone(Polls(tasks, bin, scripts).guard.shared);
    PollAllKeeps(Outcome(Pending, New(tasks)), bin, scripts, tasks);
    var i := EarlyNeedsRepeat(Polls(tasks, bin, scripts).guard.shared);
    assert tasks[i].Repeats();
  }

  /** All children but the last have finished, and the last is still in the queue, when child i is polled again. */
  lemma EarlyInQueue(tasks: seq<Habit>, bin: Bin, i: nat)
    requires bin.capacity >= 1 && bin.threads >= 1 && i < |tasks| - 1 && |tasks| < TWO_32 && tasks[i].Repeats()
    ensures EarlyReady(tasks, bin)
  {
    var n := |tasks|;
    SlowEnd(tasks, bin, n, [Go(i), Go(i)]);
    var s := SlowShared(tasks, n - 1, n, bin.threads).(pushed := n);
    TwoActs(s, Go(i), Go(i));
    var end := Acts(s, [Go(i), Go(i)]);
    assert end.children[n - 1] == Waiting && end.remaining == 0;
    assert Polls(tasks, bin, [SlowScript(n, n, [Go(i), Go(i)])]) == Outcome(Ready, Guard(Done, end));
  }

  /** The last child is polled again while another is at work on a second thread. */
  lemma EarlyAtWork(tasks: seq<Habit>, bin: Bin)
    requires bin.capacity >= 1 && bin.threads >= 2 && 2 <= |tasks| < TWO_32 && tasks[|tasks| - 1].Repeats()
    ensures EarlyReady(tasks, bin)
  {
    var n := |tasks|;
    var final := SlowMove(n - 1, 0) + [Go(n - 1), Go(n - 1)];
    SlowEnd(tasks, bin, 0, final);
    SlowStep(tasks, n - 1, 0, bin.threads);
    ActsConcat(SlowShared(tasks, n - 1, 0, bin.threads).(pushed := n), SlowMove(n - 1, 0), [Go(n - 1), Go(n - 1)]);
    var s := SlowShared(tasks, n, 0, bin.threads);
    TwoActs(s, Go(n - 1), Go(n - 1));
    var end := Acts(s, [Go(n - 1), Go(n - 1)]);
    assert end.children[0] == Active && end.remaining == 0;
    assert Polls(tasks, bin, [SlowScript(n, 0, final)]) == Outcome(Ready, Guard(Done, end));
  }

  lemma TwoActs(s: Shared, a: Event, b: Event)
    ensures Acts(s, [a, b]) == Act(Act(s, a), b)
  {
    assert [a, b][1..] == [b];
    assert Acts(Act(s, a), [b]) == Acts(Act(Act(s, a), b), []);
  }

  /** Some behaviour of the pool leaves the guard pending after its polls, and then finishes every
      child before the guard is dropped: the drop panics although nothing is active. */
  ghost predicate IdleDrop(tasks: seq<Habit>, bin: Bin) {
    exists scripts, events ::
      var o := Polls(tasks, bin, scripts);
      o.guard.state == Spawned && AllDone(Acts(o.guard.shared, events))
  }

  /** On a pool with a thread, every set that has children can be dropped like that. */
  lemma IdleDropRule(tasks: seq<Habit>, bin: Bin)
    requires bin.capacity >= 1 && bin.threads >= 1
    ensures IdleDrop(tasks, bin) <==> 0 < |tasks| < TWO_32
  {
    if 0 < |tasks| < TWO_32 {
      var n := |tasks|;
      SlowEnd(tasks, bin, n - 1, [Pop]);
      SlowStep(tasks, n - 1, n - 1, bin.threads);
      var s := SlowShared(tasks, n, n - 1, bin.threads);
      var o := Polls(tasks, bin, [SlowScript(n, n - 1, [Pop])]);
      assert o == Outcome(Pending, Guard(Spawned, s));
      assert Acts(s, [Go(n - 1)]) == Acts(Act(s, Go(n - 1)), []);
      assert AllDone(Acts(o.guard.shared, [Go(n - 1)]));
    } else {
      forall scripts ensures Polls(tasks, bin, scripts).guard.state != Spawned { NothingToSpawn(tasks, bin, scripts); }
    }
  }

  lemma NothingToSpawn(tasks: seq<Habit>, bin: Bin, scripts: seq<seq<seq<Event>>>)
    requires |tasks| == 0 || |tasks| >= TWO_32
    ensures Polls(tasks, bin, scripts).guard.state != Spawned
  {
    if scripts != [] {
      var o := PollOf(New(tasks), bin, scripts[0]);
      assert o.result != Pending && o.guard.state != Spawned;
      assert PollAll(o, bin, scripts[1..]) == o;
    }
  }

  // The pool that runs every child at once, to its end but for one slow child.

  /** After the first k children: all finished but the slow one, if it is among them. */
  function SlowShared(tasks: seq<Habit>, k: nat, slow: nat, threads: nat): Shared
    requires k <= |tasks| && threads >= 1
  {
    Shared.Shared(|tasks| - k + (if slow < k then 1 else 0), Some(1), 1, false, k, k, threads - (if slow < k then 1 else 0),
                  seq(|tasks|, j => if j >= k then Waiting else if j == slow then Active else Finished), tasks)
  }

  function SlowMove(k: nat, slow: nat): seq<Event> {
    if k == slow then [Pop] else [Pop, Go(k)]
  }

  /** What happens after each push; after the last one, `final`. */
  function SlowScript(n: nat, slow: nat, final: seq<Event>): (r: seq<seq<Event>>)
    ensures |r| == n
  {
    seq(n, k requires 0 <= k < n => if k == n - 1 then final else SlowMove(k, slow))
  }

  lemma {:induction false} ActsConcat(s: Shared, a: seq<Event>, b: seq<Event>)
    ensures Acts(s, a + b) == Acts(Acts(s, a), b)
    decreases |a|
  {
    if a == [] {
      assert a + b == b;
    } else {
      assert (a + b)[1..] == a[1..] + b;
      ActsConcat(Act(s, a[0]), a[1..], b);
    }
  }

  lemma SlowStep(tasks: seq<Habit>, k: nat, slow: nat, threads: nat)
    requires k < |tasks| < TWO_32 && threads >= 1 && (slow < k ==> threads >= 2)
    requires k != slow && slow >= k ==> k < |tasks| - 1
    ensures Acts(SlowShared(tasks, k, slow, threads).(pushed := k + 1), SlowMove(k, slow)) == SlowShared(tasks, k + 1, slow, threads)
  {
    var sent := SlowShared(tasks, k, slow, threads).(pushed := k + 1);
    var popped := Act(sent, Pop);
    var next := SlowShared(tasks, k + 1, slow, threads);
    if k == slow {
      assert Acts(sent, [Pop]) == Acts(popped, []);
      assert popped.children == next.children;
    } else {
      TwoActs(sent, Pop, Go(k));
      assert Act(popped, Go(k)).children == next.children;
    }
  }

  lemma {:induction false} SlowRun(tasks: seq<Habit>, bin: Bin, k: nat, slow: nat, final: seq<Event>)
    requires k < |tasks| < TWO_32 && bin.capacity >= 1 && bin.threads >= 1 && (slow < |tasks| - 1 ==> bin.threads >= 2)
    ensures SpawnRest(SlowShared(tasks, k, slow, bin.threads), bin.capacity, SlowScript(|tasks|, slow, final)) ==
              Spawning(true, Acts(SlowShared(tasks, |tasks| - 1, slow, bin.threads).(pushed := |tasks|), final))
    decreases |tasks| - k
  {
    var n := |tasks|;
    var script := SlowScript(n, slow, final);
    if k == n - 1 {
      var end := Acts(SlowShared(tasks, n - 1, slow, bin.threads).(pushed := n), final);
      assert SpawnRest(end, bin.capacity, script) == Spawning(true, end);
    } else {
      SlowStep(tasks, k, slow, bin.threads);
      SlowRun(tasks, bin, k + 1, slow, final);
    }
  }

  lemma SlowEnd(tasks: seq<Habit>, bin: Bin, slow: nat, final: seq<Event>)
    requires 0 < |tasks| < TWO_32 && bin.capacity >= 1 && bin.threads >= 1 && (slow < |tasks| - 1 ==> bin.threads >= 2)
    ensures Polls(tasks, bin, [SlowScript(|tasks|, slow, final)]) ==
              Settle(Acts(SlowShared(tasks, |tasks| - 1, slow, bin.threads).(pushed := |tasks|), final))
  {
    var script := SlowScript(|tasks|, slow, final);
    assert Fresh(tasks, Some(1), 1, bin.threads) == SlowShared(tasks, 0, slow, bin.threads);
    SlowRun(tasks, bin, 0, slow, final);
    var o := PollOf(New(tasks), bin, script);
    assert PollAll(Outcome(Pending, New(tasks)), bin, [script]) == PollAll(o, bin, []);
  }
}
