/** What the channel promises of every run. */
module ChannelTheorems {
  import opened Counting
  import opened Channel
  import opened ChannelSafety

  /** With recv_immediate used at level 0 only, no interleaving of any number of threads over
      any number of levels makes recv_all panic. */
  lemma NoReceiverPanics<M>(levels: nat, threads: nat, capacity: nat, actions: seq<Action<M>>, t: nat)
    requires forall a :: a in actions ==> Disciplined(levels, a)
    requires t < threads
    ensures var end := Run(Init(levels, threads, capacity), actions);
            !(end.pc[t].Crashed? && (end.pc[t].fault.NoElementFound? || end.pc[t].fault.EmptyPop?))
  {
    InitKeeps<M>(levels, threads, capacity);
    RunKeeps(Init(levels, threads, capacity), actions);
    var end := Run(Init(levels, threads, capacity), actions);
    assert PcOk(levels, end.pc[t]) && PcShape(levels, end.pc[t]);
  }

  /** Whatever calls are made at whatever levels, a receiver that has decremented a local semaphore
      finds an element to pop; every message ever pushed is, with its multiplicity, in exactly one
      thread's inbox or still queued; and each level hands its messages out in the order they were
      pushed. */
  lemma EachMessageInOnePlace<M>(levels: nat, threads: nat, capacity: nat, actions: seq<Action<M>>)
    ensures var end := Run(Init(levels, threads, capacity), actions);
            && (forall t :: 0 <= t < threads ==> end.pc[t] != Crashed(EmptyPop))
            && Bag(end.pushed) == Bag(end.inbox) + Bag(end.queue)
            && forall l :: 0 <= l < levels ==> end.pushed[l] == end.popped[l] + end.queue[l]
  {
    InitKeepsCore<M>(levels, threads, capacity);
    RunKeepsCore(Init(levels, threads, capacity), actions);
    var end := Run(Init(levels, threads, capacity), actions);
    BagSplit(end.pushed, end.popped, end.queue);
    assert forall t :: 0 <= t < threads ==> PcShape(levels, end.pc[t]);
  }

  /** No thread can do anything more without a new call. */
  ghost predicate Stuck<M>(s: State<M>)
    requires Shaped(s)
  {
    forall t :: 0 <= t < |s.pc| ==> Advance(s, t) == s
  }

  function Lengths<M>(queue: seq<seq<M>>): seq<nat> {
    seq(|queue|, i requires 0 <= i < |queue| => |queue[i]|)
  }

  /** A thread that can do nothing more is outside every call, crashed, or blocked on an
      empty global semaphore. */
  lemma StuckAt<M>(s: State<M>, t: nat)
    requires Core(s) && t < |s.pc| && Advance(s, t) == s
    ensures s.pc[t].Ready? || s.pc[t].Crashed? || (s.pc[t].Waiting? && s.global == 0)
  {
    if s.pc[t].Popping? { PoppedIsCounted(s, t); }
    assert Advance(s, t).pc[t] == s.pc[t];
  }

  /** When every sender has finished and a receiver is blocked in recv_all, the messages left
      in the queues are exactly as many as the tokens lost in panics, of a recv_immediate at a level
      that does not exist or of a recv_all: without such a panic, none is stranded. */
  lemma StrandedIsLost<M>(s: State<M>, t: nat)
    requires Core(s) && Stuck(s) && t < |s.pc| && s.pc[t].Waiting?
    ensures TotalFrom(Lengths(s.queue), 0) == Sum(s.pc, LostToken())
    ensures Sum(s.pc, LostToken()) == 0 <==> forall l :: 0 <= l < |s.queue| ==> s.queue[l] == []
  {
    forall u | 0 <= u < |s.pc|
      ensures s.pc[u].Ready? || s.pc[u].Crashed? || (s.pc[u].Waiting? && s.global == 0)
    {
      StuckAt(s, u);
    }
    forall l: nat { SumZero(s.pc, AtSignal(l)); }
    forall l: nat { SumZero(s.pc, AtPop(l)); }
    SumMonotone(s.pc, Token(), LostToken());
    SumMonotone(s.pc, LostToken(), Token());
    assert Lengths(s.queue) == s.local;
    TotalFromZero(s.local, 0);
    assert forall l :: 0 <= l < |s.queue| ==> (s.local[l] == 0 <==> s.queue[l] == []);
  }

  // When recv_immediate may be used at another level.

  ghost predicate ImmediateOnlyAt<M>(actions: seq<Action<M>>, level: nat) {
    forall a :: a in actions && a.Start? && a.call.RecvImmediate? ==> a.call.level == level
  }

  ghost predicate NeverNoElement<M(!new)>(levels: nat, threads: nat, capacity: nat, level: nat) {
    forall actions: seq<Action<M>>, t ::
      ImmediateOnlyAt(actions, level) && 0 <= t < threads ==>
        Run(Init(levels, threads, capacity), actions).pc[t] != Crashed(NoElementFound)
  }

  /** Calling recv_immediate at `level` beside recv_all is safe exactly when that level is 0
      or does not exist. */
  lemma ImmediateLevelRule<M(!new)>(levels: nat, threads: nat, capacity: nat, level: nat, m: M)
    requires threads >= 2 && capacity >= 1
    ensures NeverNoElement<M>(levels, threads, capacity, level) <==> ImmediateLevel(levels, level)
  {
    if ImmediateLevel(levels, level) {
      forall actions: seq<Action<M>>, t | ImmediateOnlyAt(actions, level) && 0 <= t < threads
        ensures Run(Init(levels, threads, capacity), actions).pc[t] != Crashed(NoElementFound)
      {
        NoReceiverPanics(levels, threads, capacity, actions, t);
      }
    } else {
      var actions := ScannerOvertaken(levels, threads, capacity, level, m);
    }
  }

  /** One more action at the end of a run. */
  lemma RunThen<M>(s: State<M>, actions: seq<Action<M>>, a: Action<M>)
    requires Shaped(s)
    ensures Run(s, actions + [a]) == Apply(Run(s, actions), a)
  {
    RunConcat(s, actions, [a]);
    assert Run(Run(s, actions), [a]) == Run(Apply(Run(s, actions), a), []);
  }

  ghost function Steps<M>(t: nat, n: nat): (r: seq<Action<M>>) {
    seq(n, _ => Step(t))
  }

  /** A scan over empty levels only moves the scanner. */
  lemma {:induction false} ScanEmpty<M>(s: State<M>, t: nat, i: nat, n: nat)
    requires Shaped(s) && t < |s.pc| && s.pc[t] == Scanning(i) && i + n <= |s.queue|
    requires forall l :: i <= l < i + n ==> s.local[l] == 0
    ensures Run(s, Steps(t, n)) == s.(pc := s.pc[t := Scanning(i + n)])
    decreases n
  {
    if n > 0 {
      var s' := Apply(s, Step(t));
      assert Steps<M>(t, n)[1..] == Steps(t, n - 1);
      ScanEmpty(s', t, i + 1, n - 1);
      assert s'.pc[t := Scanning(i + n)] == s.pc[t := Scanning(i + n)];
    } else {
      assert s.pc[t := Scanning(i)] == s.pc;
    }
  }

  /** A whole send by an otherwise idle thread. */
  lemma SendRun<M>(s: State<M>, t: nat, m: M, level: nat)
    requires Shaped(s) && t < |s.pc| && s.pc[t].Ready? && level < |s.queue| && |s.queue[level]| < s.capacity
    ensures Run(s, [Start(t, Send(m, level)), Step(t), Step(t), Step(t)]) ==
      s.(queue := s.queue[level := s.queue[level] + [m]], pushed := s.pushed[level := s.pushed[level] + [m]],
         local := s.local[level := s.local[level] + 1], global := s.global + 1, pc := s.pc[t := Ready(None)])
  {
    var s1 := Apply(s, Start(t, Send(m, level)));
    var s2 := Apply(s1, Step(t));
    var s3 := Apply(s2, Step(t));
    var s4 := Apply(s3, Step(t));
    Unroll4(s, Start(t, Send(m, level)), Step(t), Step(t), Step(t));
    assert s4.pc == s.pc[t := Ready(None)];
  }

  lemma Unroll4<M>(s: State<M>, a: Action<M>, b: Action<M>, c: Action<M>, d: Action<M>)
    requires Shaped(s)
    ensures Run(s, [a, b, c, d]) == Apply(Apply(Apply(Apply(s, a), b), c), d)
  {
    assert [a, b, c, d] == [a] + [b] + [c] + [d];
    assert Run(s, [a]) == Apply(s, a) by { assert Run(s, []) == s; RunThen(s, [], a); assert [] + [a] == [a]; }
    RunThen(s, [a], b);
    RunThen(s, [a] + [b], c);
    RunThen(s, [a] + [b] + [c], d);
  }

  /** Thread 0 has passed the levels below `level`, where the only message is; all else is idle. */
  ghost predicate ScannerPlaced<M>(s: State<M>, levels: nat, level: nat) {
    && Shaped(s) && |s.queue| == levels && |s.pc| >= 2 && 0 < level < levels && s.capacity >= 1
    && s.pc[0] == Scanning(level) && s.pc[1].Ready? && s.global == 0
    && s.queue[0] == [] && |s.queue[level]| == 1
    && s.local == seq(levels, _ => 0)[level := 1]
  }

  lemma PlaceScanner<M>(levels: nat, threads: nat, capacity: nat, level: nat, m: M) returns (actions: seq<Action<M>>)
    requires threads >= 2 && capacity >= 1 && 0 < level < levels
    ensures ImmediateOnlyAt(actions, level)
    ensures ScannerPlaced(Run(Init(levels, threads, capacity), actions), levels, level)
  {
    var s0 := Init<M>(levels, threads, capacity);
    var a1 := [Start(1, Send(m, level)), Step(1), Step(1), Step(1)];
    SendRun(s0, 1, m, level);
    var s1 := Run(s0, a1);

    RunThen(s0, a1, Start(0, RecvAll));
    RunThen(s0, a1 + [Start(0, RecvAll)], Step(0));
    var a2 := a1 + [Start(0, RecvAll)] + [Step(0)];
    var s2 := Run(s0, a2);

    ScanEmpty(s2, 0, 0, level);
    RunConcat(s0, a2, Steps(0, level));
    actions := a2 + Steps(0, level);
    assert Run(s0, actions).local == seq(levels, _ => 0)[level := 1];
  }

  /** The scanner is still at `level`, and every level from there on is empty. */
  ghost predicate ScannerRobbed<M>(s: State<M>, levels: nat, level: nat) {
    && Shaped(s) && |s.queue| == levels && |s.pc| >= 2 && 0 < level < levels && s.pc[0] == Scanning(level)
    && forall l :: level <= l < levels ==> s.local[l] == 0
  }

  /** A message then arrives at level 0, and a recv_immediate at the later level takes its token
      and the element the scanner was entitled to. */
  lemma RobScanner<M>(s: State<M>, levels: nat, level: nat, m: M) returns (actions: seq<Action<M>>)
    requires ScannerPlaced(s, levels, level)
    ensures ImmediateOnlyAt(actions, level)
    ensures ScannerRobbed(Run(s, actions), levels, level)
  {
    var a1 := [Start(1, Send(m, 0)), Step(1), Step(1), Step(1)];
    SendRun(s, 1, m, 0);
    var s1 := Run(s, a1);
    var a2 := [Start(1, RecvImmediate(level)), Step(1), Step(1), Step(1)];
    Unroll4(s1, a2[0], a2[1], a2[2], a2[3]);
    RunConcat(s, a1, a2);
    assert Run(s1, a2).local == s1.local[level := 0];
    actions := a1 + a2;
  }

  lemma OvertakeScanner<M>(s: State<M>, levels: nat, level: nat, m: M) returns (actions: seq<Action<M>>)
    requires ScannerPlaced(s, levels, level)
    ensures ImmediateOnlyAt(actions, level)
    ensures Run(s, actions).pc[0] == Crashed(NoElementFound)
  {
    var front := RobScanner(s, levels, level, m);
    ScanEmpty(Run(s, front), 0, level, levels - level);
    RunConcat(s, front, Steps(0, levels - level));
    RunThen(s, front + Steps(0, levels - level), Step(0));
    actions := front + Steps(0, levels - level) + [Step(0)];
  }

  lemma ScannerOvertaken<M>(levels: nat, threads: nat, capacity: nat, level: nat, m: M) returns (actions: seq<Action<M>>)
    requires threads >= 2 && capacity >= 1 && 0 < level < levels
    ensures ImmediateOnlyAt(actions, level)
    ensures Run(Init(levels, threads, capacity), actions).pc[0] == Crashed(NoElementFound)
  {
    var s0 := Init<M>(levels, threads, capacity);
    var front := PlaceScanner(levels, threads, capacity, level, m);
    var back := OvertakeScanner(Run(s0, front), levels, level, m);
    RunConcat(s0, front, back);
    actions := front + back;
  }
}
