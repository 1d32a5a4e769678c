/** send, recv_immediate and recv_all as the program runs them: method bodies over the shared
    queues and counters, with any actions of the other threads between two atomic actions.
    The contracts tie every call to the step system, so what is proved of its runs holds here. */
module ChannelCalls {
  import opened Counting
  import opened Channel
  import opened ChannelSafety

  /** What the other threads do before each of the caller's atomic actions. */
  ghost predicate Others<M>(me: nat, script: seq<seq<Action<M>>>) {
    forall k :: 0 <= k < |script| ==> OthersAct(me, script[k])
  }

  ghost predicate OthersAct<M>(me: nat, actions: seq<Action<M>>) {
    forall a :: a in actions ==> a.thread != me
  }

  /** They call recv_immediate only where it is safe. */
  ghost predicate Polite<M>(levels: nat, script: seq<seq<Action<M>>>) {
    forall k :: 0 <= k < |script| ==> forall a :: a in script[k] ==> Disciplined(levels, a)
  }

  lemma {:induction false} OthersLeave<M>(s: State<M>, actions: seq<Action<M>>, me: nat)
    requires Shaped(s) && me < |s.pc| && OthersAct(me, actions)
    ensures Run(s, actions).pc[me] == s.pc[me] && Run(s, actions).inbox[me] == s.inbox[me]
    decreases |actions|
  {
    if actions != [] {
      OthersLeave(Apply(s, actions[0]), actions[1..], me);
    }
  }

  /** What was pushed stays pushed. */
  ghost predicate PushedGrows<M>(a: seq<seq<M>>, b: seq<seq<M>>) {
    |a| == |b| && forall l :: 0 <= l < |a| ==> a[l] <= b[l]
  }

  lemma {:induction false} RunPushes<M>(s: State<M>, actions: seq<Action<M>>)
    requires Shaped(s)
    ensures PushedGrows(s.pushed, Run(s, actions).pushed)
    decreases |actions|
  {
    if actions != [] { RunPushes(Apply(s, actions[0]), actions[1..]); }
  }

  /** Between a and b the message was pushed on the level. */
  ghost predicate PushedSince<M>(a: seq<seq<M>>, b: seq<seq<M>>, level: nat, message: M) {
    |a| == |b| && level < |b| && |a[level]| < |b[level]| && message in b[level][|a[level]|..]
  }

  lemma JustPushed<M>(a: seq<seq<M>>, b: seq<seq<M>>, level: nat, message: M)
    requires PushedGrows(a, b) && level < |b|
    ensures PushedSince(a, b[level := b[level] + [message]], level, message)
  {
    var after := b[level] + [message];
    assert after[|a[level]|..][|b[level]| - |a[level]|] == message;
  }

  lemma StaysPushed<M>(a: seq<seq<M>>, b: seq<seq<M>>, c: seq<seq<M>>, level: nat, message: M)
    requires PushedSince(a, b, level, message) && PushedGrows(b, c)
    ensures PushedSince(a, c, level, message)
  {
    assert b[level] <= c[level];
    var i :| 0 <= i < |b[level][|a[level]|..]| && b[level][|a[level]|..][i] == message;
    assert c[level][|a[level]|..][i] == message;
  }

  /** The lowest level whose local semaphore is not zero: where an undisturbed scan ends. */
  ghost predicate FirstStocked(local: seq<nat>, level: nat) {
    && level < |local| && local[level] != 0
    && forall l :: 0 <= l < level ==> local[l] == 0
  }

  /** The first level that has a message. */
  ghost predicate LowestNonempty<M>(queue: seq<seq<M>>, level: nat) {
    && level < |queue| && queue[level] != []
    && forall l :: 0 <= l < level ==> queue[l] == []
  }

  /** While no call is in progress the counters tell the queues: an undisturbed recv_all takes
      from the first nonempty level, and blocks exactly when there is no message. */
  lemma QuietCounts<M>(s: State<M>)
    requires Core(s) && forall t :: 0 <= t < |s.pc| ==> s.pc[t].Ready?
    ensures s.global == 0 <==> forall l :: 0 <= l < |s.queue| ==> s.queue[l] == []
    ensures forall l: nat :: FirstStocked(s.local, l) <==> LowestNonempty(s.queue, l)
  {
    forall l: nat { SumZero(s.pc, AtSignal(l)); }
    forall l: nat { SumZero(s.pc, AtPop(l)); }
    SumZero(s.pc, Token());
    TotalFromZero(s.local, 0);
    assert forall l :: 0 <= l < |s.queue| ==> (s.local[l] == 0 <==> s.queue[l] == []);
  }

  class SharedChannel<M> {
    var queue: seq<seq<M>>
    var local: seq<nat>
    var global: nat
    const capacity: nat
    // Where every thread is, and the histories.
    var pc: seq<Pc<M>>
    var pushed: seq<seq<M>>
    var popped: seq<seq<M>>
    var inbox: seq<seq<M>>

    function View(): State<M> reads this {
      State(queue, local, global, pc, capacity, pushed, popped, inbox)
    }

    ghost predicate Valid() reads this { Core(View()) && Shaped(View()) }

    /** recv_immediate has been called only where it is safe. */
    ghost predicate Safe() reads this { Inv(View()) }

    /** Channel::new */
    constructor (bounded: nat, levels: nat, threads: nat)
      ensures Valid() && Safe() && View() == Init(levels, threads, bounded)
    {
      capacity := bounded;
      queue := seq(levels, _ => []);
      local := seq(levels, _ => 0);
      global := 0;
      pc := seq(threads, _ => Ready(None));
      pushed := seq(levels, _ => []);
      popped := seq(levels, _ => []);
      inbox := seq(threads, _ => []);
      new;
      InitKeeps<M>(levels, threads, bounded);
    }

    /** The call begins. */
    method Enter(me: nat, call: Call<M>)
      requires Valid() && me < |pc| && pc[me].Ready?
      modifies this`pc
      ensures Valid() && View() == Apply(old(View()), Start(me, call))
      ensures old(Safe()) && Disciplined(|queue|, Start(me, call)) ==> Safe()
      ensures pc == old(pc)[me := Entry(call)]
    {
      StartKeepsCore(View(), me, call);
      if Inv(View()) && Disciplined(|queue|, Start(me, call)) { StartKeeps(View(), me, call); }
      pc := pc[me := Entry(call)];
    }

    /** One atomic action keeps what holds. */
    lemma StepKeeps(me: nat)
      requires Valid() && me < |pc|
      ensures Core(Advance(View(), me)) && (Safe() ==> Inv(Advance(View(), me)))
    {
      AdvanceKeepsCore(View(), me);
      if Safe() { AdvanceKeeps(View(), me); }
    }

    /** The other threads run before the caller's k-th atomic action. */
    method Interfere(me: nat, script: seq<seq<Action<M>>>, k: nat)
      requires Valid() && me < |pc| && Others(me, script)
      modifies this
      ensures Valid() && |queue| == old(|queue|) && |pc| == old(|pc|)
      ensures View() == Run(old(View()), if k < |script| then script[k] else [])
      ensures old(Safe()) && Polite(|queue|, script) ==> Safe()
      ensures pc[me] == old(pc[me]) && inbox[me] == old(inbox[me])
      ensures script == [] ==> queue == old(queue) && local == old(local) && global == old(global)
      ensures PushedGrows(old(pushed), pushed)
    {
      RunPushes(View(), if k < |script| then script[k] else []);
      var actions := if k < |script| then script[k] else [];
      var end := Run(View(), actions);
      OthersLeave(View(), actions, me);
      RunKeepsCore(View(), actions);
      if Safe() && Polite(|queue|, script) { RunKeeps(View(), actions); }
      RunCapacity(View(), actions);
      queue, local, global, pc := end.queue, end.local, end.global, end.pc;
      pushed, popped, inbox := end.pushed, end.popped, end.inbox;
    }

    /** SharedOne::send's push and the assertion after it. */
    method Push(me: nat, message: M, level: nat) returns (fault: Option<Fault>)
      requires Valid() && me < |pc| && pc[me] == Pushing(message, level)
      modifies this
      ensures Valid() && (old(Safe()) ==> Safe()) && |queue| == old(|queue|) && |pc| == old(|pc|)
      ensures inbox == old(inbox) && local == old(local) && global == old(global)
      ensures fault == if level >= |queue| then Some(NoSuchLevel(false))
                       else if |old(queue)[level]| >= capacity then Some(QueueFull) else None
      ensures fault == None ==> level < |pushed| == |old(pushed)| && pushed == old(pushed)[level := old(pushed)[level] + [message]]
      ensures fault == None ==> pc[me] == SignallingLocal(level) && |queue| == |old(queue)|
                                && queue == old(queue)[level := old(queue)[level] + [message]]
      ensures fault != None ==> pc[me] == Crashed(fault.value) && queue == old(queue)
    {
      StepKeeps(me);
      hide Core, Inv;
      if level >= |queue| {
        fault := Some(NoSuchLevel(false));
        pc := pc[me := Crashed(NoSuchLevel(false))];
      } else if |queue[level]| >= capacity {
        fault := Some(QueueFull);
        pc := pc[me := Crashed(QueueFull)];
      } else {
        fault := None;
        queue := queue[level := queue[level] + [message]];
        pushed := pushed[level := pushed[level] + [message]];
        pc := pc[me := SignallingLocal(level)];
      }
    }

    /** Semaphore::signal on a level's semaphore. */
    method SignalLocal(me: nat, level: nat)
      requires Valid() && me < |pc| && pc[me] == SignallingLocal(level)
      modifies this
      ensures Valid() && (old(Safe()) ==> Safe()) && |queue| == old(|queue|) && |pc| == old(|pc|)
      ensures pushed == old(pushed)
      ensures inbox == old(inbox) && queue == old(queue) && global == old(global)
      ensures level < |queue| && local == old(local)[level := old(local)[level] + 1]
      ensures pc[me] == SignallingGlobal
    {
      assert PcShape(|queue|, pc[me]);
      StepKeeps(me);
      hide Core, Inv;
      local := local[level := local[level] + 1];
      pc := pc[me := SignallingGlobal];
    }

    /** Semaphore::signal on the global semaphore: a send's last action, or the restoring of a token. */
    method SignalGlobal(me: nat)
      requires Valid() && me < |pc| && (pc[me] == SignallingGlobal || pc[me] == Restoring)
      modifies this
      ensures Valid() && (old(Safe()) ==> Safe()) && |queue| == old(|queue|) && |pc| == old(|pc|)
      ensures pushed == old(pushed)
      ensures inbox == old(inbox) && queue == old(queue) && local == old(local) && global == old(global) + 1
      ensures pc[me] == Ready(None)
    {
      StepKeeps(me);
      hide Core, Inv;
      global := global + 1;
      pc := pc[me := Ready(None)];
    }

    /** The global semaphore's decrement: decrement_immediate, or a wait_forever that stays
        blocked while the count is zero. */
    method TakeGlobal(me: nat) returns (ok: bool)
      requires Valid() && me < |pc| && (pc[me].TakingImmediate? || pc[me].Waiting?)
      modifies this
      ensures Valid() && (old(Safe()) ==> Safe()) && |queue| == old(|queue|) && |pc| == old(|pc|)
      ensures inbox == old(inbox) && queue == old(queue) && local == old(local)
      ensures ok <==> old(global) != 0
      ensures ok ==> global == old(global) - 1
      ensures !ok ==> global == 0
      ensures ok && old(pc[me]).Waiting? ==> pc[me] == Scanning(0)
      ensures ok && old(pc[me]).TakingImmediate? ==> pc[me] == TryingLevel(old(pc[me]).level)
      ensures !ok && old(pc[me]).Waiting? ==> pc[me] == Waiting
      ensures !ok && old(pc[me]).TakingImmediate? ==> pc[me] == Ready(None)
    {
      StepKeeps(me);
      hide Core, Inv;
      ok := global != 0;
      if ok {
        global := global - 1;
        pc := pc[me := if pc[me].Waiting? then Scanning(0) else TryingLevel(pc[me].level)];
      } else if pc[me].TakingImmediate? {
        pc := pc[me := Ready(None)];
      }
    }

    /** SharedOne::recv_nonblock's decrement_immediate on a local semaphore. */
    method DecrementLocal(me: nat, level: nat) returns (ok: bool)
      requires Valid() && me < |pc| && level < |queue|
      requires pc[me] == Scanning(level) || pc[me] == TryingLevel(level)
      modifies this
      ensures Valid() && (old(Safe()) ==> Safe()) && |queue| == old(|queue|) && |pc| == old(|pc|)
      ensures inbox == old(inbox) && queue == old(queue) && global == old(global)
      ensures ok <==> old(local)[level] != 0
      ensures ok ==> local == old(local)[level := old(local)[level] - 1] && pc[me] == Popping(level)
      ensures !ok ==> local == old(local) && pc[me] == if old(pc[me]).Scanning? then Scanning(level + 1) else Restoring
    {
      StepKeeps(me);
      hide Core, Inv;
      ok := local[level] != 0;
      if ok {
        local := local[level := local[level] - 1];
        pc := pc[me := Popping(level)];
      } else {
        pc := pc[me := if pc[me].Scanning? then Scanning(level + 1) else Restoring];
      }
    }

    /** SharedOne::recv_nonblock's pop().unwrap(), which always finds an element. */
    method Pop(me: nat, level: nat) returns (message: M)
      requires Valid() && me < |pc| && pc[me] == Popping(level)
      modifies this
      ensures Valid() && (old(Safe()) ==> Safe()) && |queue| == old(|queue|) && |pc| == old(|pc|)
      ensures local == old(local) && global == old(global)
      ensures pc[me] == Ready(Some(message)) && inbox == old(inbox)[me := old(inbox)[me] + [message]]
      ensures level < |old(queue)| && old(queue)[level] != [] && message == old(queue)[level][0]
      ensures queue == old(queue)[level := old(queue)[level][1..]]
    {
      PopEffect(me, level);
      hide Core, Inv, Advance;
      message := queue[level][0];
      queue := queue[level := queue[level][1..]];
      popped := popped[level := popped[level] + [message]];
      inbox := inbox[me := inbox[me] + [message]];
      pc := pc[me := Ready(Some(message))];
    }

    /** The element is there, and what its pop leaves. */
    lemma PopEffect(me: nat, level: nat)
      requires Valid() && me < |pc| && pc[me] == Popping(level)
      ensures level < |queue| && level < |popped| && me < |inbox| && queue[level] != []
      ensures var m := queue[level][0];
              var next := State(queue[level := queue[level][1..]], local, global, pc[me := Ready(Some(m))], capacity, pushed,
                                popped[level := popped[level] + [m]], inbox[me := inbox[me] + [m]]);
              Core(next) && (Safe() ==> Inv(next))
    {
      PoppedIsCounted(View(), me);
      assert PcShape(|queue|, pc[me]);
      StepKeeps(me);
      hide Core, Inv;
    }

    /** SharedOne::recv_nonblock, for a caller that holds a global token. */
    method RecvNonblock(me: nat, level: nat, script: seq<seq<Action<M>>>, k: nat) returns (r: Option<M>)
      requires Valid() && me < |pc| && level < |queue| && Others(me, script)
      requires pc[me] == Scanning(level) || pc[me] == TryingLevel(level)
      modifies this
      ensures Valid() && (old(Safe()) && Polite(|queue|, script) ==> Safe()) && |queue| == old(|queue|) && |pc| == old(|pc|)
      ensures r != None ==> pc[me] == Ready(r) && inbox[me] == old(inbox[me]) + [r.value]
      ensures r == None ==> inbox[me] == old(inbox[me])
      ensures r == None ==> pc[me] == if old(pc[me]).Scanning? then Scanning(level + 1) else Restoring
      ensures script == [] ==> global == old(global) && (r == None <==> old(local)[level] == 0)
      ensures script == [] && r == None ==> queue == old(queue) && local == old(local)
      ensures script == [] && r != None ==> old(queue)[level] != [] && r.value == old(queue)[level][0]
                                            && queue == old(queue)[level := old(queue)[level][1..]]
    {
      var ok := DecrementLocal(me, level);
      if !ok { return None; }
      Interfere(me, script, k);
      var m := Pop(me, level);
      return Some(m);
    }

    /** The two signals of a send. */
    method Announce(me: nat, level: nat, script: seq<seq<Action<M>>>)
      requires Valid() && me < |pc| && pc[me] == SignallingLocal(level) && level < |local| && Others(me, script)
      modifies this
      ensures Valid() && (old(Safe()) && Polite(|queue|, script) ==> Safe()) && |queue| == old(|queue|) && |pc| == old(|pc|)
      ensures inbox[me] == old(inbox[me]) && pc[me] == Ready(None) && PushedGrows(old(pushed), pushed)
      ensures script == [] ==> queue == old(queue) && global == old(global) + 1
                               && local == old(local)[level := old(local)[level] + 1]
    {
      hide Core, Inv, Run, Others, Polite, Apply;
      Interfere(me, script, 1);
      SignalLocal(me, level);
      Interfere(me, script, 2);
      SignalGlobal(me);
    }

    /** Channel::send.  The result is the panic, if any. */
    method Send(me: nat, message: M, level: nat, script: seq<seq<Action<M>>>) returns (fault: Option<Fault>)
      requires Valid() && me < |pc| && pc[me].Ready? && Others(me, script)
      modifies this
      ensures Valid() && (old(Safe()) && Polite(|queue|, script) ==> Safe()) && |queue| == old(|queue|) && |pc| == old(|pc|)
      ensures inbox[me] == old(inbox[me])
      ensures fault == None ==> pc[me] == Ready(None)
      ensures fault == None ==> PushedSince(old(pushed), pushed, level, message)
      ensures fault != None ==> pc[me] == Crashed(fault.value)
      ensures fault == Some(NoSuchLevel(false)) <==> level >= |queue|
      ensures script == [] && level < |queue| && |old(queue)[level]| < capacity ==>
                && fault == None
                && queue == old(queue)[level := old(queue)[level] + [message]]
                && local == old(local)[level := old(local)[level] + 1]
                && global == old(global) + 1
      ensures script == [] && level < |queue| && |old(queue)[level]| >= capacity ==>
                fault == Some(QueueFull) && queue == old(queue) && local == old(local) && global == old(global)
    {
      hide Core, Inv, Run, Others, Polite, Apply, PushedGrows;
      Enter(me, Channel.Send(message, level));
      Interfere(me, script, 0);
      ghost var before := pushed;
      fault := Push(me, message, level);
      if fault == None {
        JustPushed(old(pushed), before, level, message);
        ghost var after := pushed;
        hide PushedSince;
        Announce(me, level, script);
        StaysPushed(old(pushed), after, pushed, level, message);
      }
    }

    /** Indexing a level that does not exist panics, and the global token is lost. */
    method NoLevel(me: nat, level: nat)
      requires Valid() && me < |pc| && pc[me] == TryingLevel(level) && level >= |queue|
      modifies this
      ensures Valid() && (old(Safe()) ==> Safe()) && |queue| == old(|queue|) && |pc| == old(|pc|)
      ensures inbox == old(inbox) && queue == old(queue) && local == old(local) && global == old(global)
      ensures pc[me] == Crashed(NoSuchLevel(true))
    {
      StepKeeps(me);
      hide Core, Inv;
      pc := pc[me := Crashed(NoSuchLevel(true))];
    }

    /** Channel::recv_immediate, at any level. */
    method RecvImmediate(me: nat, level: nat, script: seq<seq<Action<M>>>) returns (r: Option<M>, fault: Option<Fault>)
      requires Valid() && me < |pc| && pc[me].Ready? && Others(me, script)
      modifies this
      ensures Valid() && (old(Safe()) && Polite(|queue|, script) && ImmediateLevel(|queue|, level) ==> Safe()) && |queue| == old(|queue|) && |pc| == old(|pc|)
      ensures fault == None ==> pc[me] == Ready(r)
      ensures fault != None ==> fault == Some(NoSuchLevel(true)) && pc[me] == Crashed(NoSuchLevel(true))
      ensures fault != None ==> r == None && level >= |queue|
      ensures level >= |queue| ==> r == None && (script == [] ==> (fault != None <==> old(global) != 0))
      ensures inbox[me] == old(inbox[me]) + (if r == None then [] else [r.value])
      ensures script == [] && level < |queue| ==> (r == None <==> old(global) == 0 || old(local)[level] == 0)
      ensures script == [] && level < |queue| && r == None ==>
                queue == old(queue) && local == old(local) && global == old(global)
      ensures script == [] && level < |queue| && r != None ==>
                old(queue)[level] != [] && r.value == old(queue)[level][0]
                && queue == old(queue)[level := old(queue)[level][1..]]
    {
      r, fault := None, None;
      hide Core, Inv, Run, Others, Polite, Apply, PushedGrows;
      Enter(me, Channel.RecvImmediate(level));
      Interfere(me, script, 0);
      var taken := TakeGlobal(me);
      if !taken { return; }
      Interfere(me, script, 1);
      if level >= |queue| {
        NoLevel(me, level);
        fault := Some(NoSuchLevel(true));
        return;
      }
      r := RecvNonblock(me, level, script, 2);
      if r == None {
        Interfere(me, script, 2);
        SignalGlobal(me);
      }
    }

    /** The panic after the loop of recv_all: never reached while recv_immediate keeps to its levels. */
    method NoElement(me: nat)
      requires Valid() && me < |pc| && pc[me] == Scanning(|queue|)
      modifies this
      ensures Valid() && !old(Safe()) && |queue| == old(|queue|) && |pc| == old(|pc|)
      ensures inbox == old(inbox) && queue == old(queue) && local == old(local) && global == old(global)
      ensures pc[me] == Crashed(NoElementFound)
    {
      if Safe() { ScannedIsCounted(View(), me); }
      StepKeeps(me);
      hide Core, Inv;
      pc := pc[me := Crashed(NoElementFound)];
    }

    /** A scan that nobody disturbs, with a token in hand, does not find every level empty. */
    lemma StockLeft(me: nat)
      requires Valid() && me < |pc| && pc[me].Scanning?
      ensures exists l :: 0 <= l < |local| && local[l] != 0
    {
      SumAtLeast(pc, me, Token());
      TotalFromZero(local, 0);
    }

    /** The loop of recv_all over the levels, for a caller that holds a global token. */
    method Scan(me: nat, script: seq<seq<Action<M>>>) returns (r: Option<M>)
      requires Valid() && me < |pc| && pc[me] == Scanning(0) && Others(me, script)
      modifies this
      ensures Valid() && (old(Safe()) && Polite(|queue|, script) ==> Safe()) && |queue| == old(|queue|) && |pc| == old(|pc|)
      ensures r == None ==> pc[me] == Crashed(NoElementFound) && script != [] && !(old(Safe()) && Polite(|queue|, script))
      ensures r != None ==> pc[me] == Ready(r)
      ensures inbox[me] == old(inbox[me]) + (if r == None then [] else [r.value])
      ensures script == [] && r != None ==>
                exists l: nat :: FirstStocked(old(local), l) && l < |old(queue)| && old(queue)[l] != []
                                 && r.value == old(queue)[l][0] && queue == old(queue)[l := old(queue)[l][1..]]
    {
      r := None;
      hide Core, Inv, Run, Others, Polite, Apply, PushedGrows;
      if script == [] { StockLeft(me); }
      var level := 0;
      while level < |queue|
        invariant Valid() && |queue| == old(|queue|) && |pc| == old(|pc|) && level <= |queue|
        invariant old(Safe()) && Polite(|queue|, script) ==> Safe()
        invariant r == None && pc[me] == Scanning(level) && inbox[me] == old(inbox[me])
        invariant script == [] ==> queue == old(queue) && local == old(local)
        invariant script == [] ==> forall l :: 0 <= l < level ==> local[l] == 0
      {
        Interfere(me, script, 2 * level + 1);
        r := RecvNonblock(me, level, script, 2 * level + 2);
        if r != None {
          assert script == [] ==> FirstStocked(old(local), level);
          return;
        }
        level := level + 1;
      }
      NoElement(me);
    }

    /** Channel::recv_all.  None means that the caller is still blocked in wait_forever, or has panicked:
        which it does only if recv_immediate has been called where it is not safe. */
    method RecvAll(me: nat, script: seq<seq<Action<M>>>) returns (r: Option<M>, fault: Option<Fault>)
      requires Valid() && me < |pc| && pc[me].Ready? && Others(me, script)
      modifies this
      ensures Valid() && (old(Safe()) && Polite(|queue|, script) ==> Safe()) && |queue| == old(|queue|) && |pc| == old(|pc|)
      ensures old(Safe()) && Polite(|queue|, script) ==> fault == None
      ensures fault != None ==> r == None && fault == Some(NoElementFound) && pc[me] == Crashed(NoElementFound)
      ensures r == None && fault == None ==> pc[me] == Waiting && global == 0
      ensures r != None ==> pc[me] == Ready(r)
      ensures inbox[me] == old(inbox[me]) + (if r == None then [] else [r.value])
      ensures script == [] ==> fault == None && (r == None <==> old(global) == 0)
      ensures script == [] && r != None ==>
                exists l: nat :: FirstStocked(old(local), l) && l < |old(queue)| && old(queue)[l] != []
                                 && r.value == old(queue)[l][0] && queue == old(queue)[l := old(queue)[l][1..]]
    {
      r, fault := None, None;
      hide Core, Inv, Run, Others, Polite, Apply, PushedGrows, FirstStocked;
      Enter(me, Channel.RecvAll);
      Interfere(me, script, 0);
      var taken := TakeGlobal(me);
      if taken {
        r := Scan(me, script);
        if r == None { fault := Some(NoElementFound); }
      }
    }
  }
}
