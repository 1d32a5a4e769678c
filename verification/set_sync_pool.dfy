/** What the workers of the composed system do with the messages that are no job of the set, and how many
    threads it has. */
module SetSyncPool {
  import opened Counting
  import opened Words
  import opened Channel
  import CS = ChannelSafety
  import ThreadPolicy
  import opened SetSync
  import opened SetSyncSafety
  import opened SetSyncTheorems

  // Only an Idle message lets a thread leave, and only a foreign task can take one away.

  /** In every run a worker leaves only on an Idle message that it has received, and above the minimum; and
      is lost only in a foreign task that it has received. */
  lemma LeavesOnIdle<O>(c: Work<O>, cpus: nat, senders: nat, capacity: nat, events: seq<Event>, w: nat)
    requires Tiles(c.chunks, c.len)
    ensures var s := RunEvents(c, Launch(c, cpus, senders, capacity), events);
            && (Next(c, s, Leave(w)) != s ==>
                  && w < |s.worker| && s.chan.pc[w] == Ready(Some(Idle)) && s.count > ThreadPolicy.MIN_THREADS
                  && Next(c, s, Leave(w)).worker[w] == Absent && Next(c, s, Leave(w)).count == s.count - 1)
            && (Next(c, s, Panic(w)) != s ==> w < |s.worker| && s.chan.pc[w] == Ready(Some(Foreign)) && Next(c, s, Panic(w)).worker[w] == Lost)
  {
    hide CS.Inv;
    LaunchKeeps(c, cpus, senders, capacity);
    EventsKeep(c, Launch(c, cpus, senders, capacity), events);
    hide Tiles, Lines, Taken, Counted, Staffed, Written, WakeKept;
    var s := RunEvents(c, Launch(c, cpus, senders, capacity), events);
    if w < |s.worker| { assert RoleOk(s.worker[w], s.chan.pc[w]); }
  }

  /** A worker is inside a receive call that has returned m. */
  ghost predicate Received<O>(s: System<O>, w: nat, m: Message) {
    && w < |s.worker| < |s.chan.pc| && (s.worker[w].InImmediate? || s.worker[w].InAll?)
    && s.chan.pc[w] == Ready(Some(m))
  }

  /** What comes of a received message: a job of the set is run; a foreign task is run, or takes the thread
      away; an Idle message makes the thread leave if it likes and is not the last, and is not run. */
  lemma MessageRule<O>(c: Work<O>, s: System<O>, w: nat, m: Message)
    requires WellSized(c, s) && Received(s, w, m)
    ensures var t := Next(c, s, Act(w));
            && t == s.(worker := t.worker) && |t.worker| == |s.worker| && t.worker == s.worker[w := t.worker[w]]
            && (t.worker[w].Running? <==> m.Job?) && (m.Job? ==> t.worker[w] == Running(m.index, 0))
            && (Next(c, t, Leave(w)) != t <==> m.Idle? && s.count > ThreadPolicy.MIN_THREADS)
            && (Next(c, t, Panic(w)) != t <==> m.Foreign?)
            && (m.Foreign? <==> Next(c, t, Act(w)).ran == s.ran + 1)
            && (!m.Job? ==> Next(c, t, Act(w)).worker[w] == Top)
  {
  }

  // Every foreign message is run once.

  ghost function Foreigners(ms: seq<Message>): nat {
    if ms == [] then 0 else (if ms[0].Foreign? then 1 else 0) + Foreigners(ms[1..])
  }

  lemma {:induction false} ForeignersConcat(a: seq<Message>, b: seq<Message>)
    ensures Foreigners(a + b) == Foreigners(a) + Foreigners(b)
  {
    if a == [] {
      assert a + b == b;
    } else {
      assert (a + b)[1..] == a[1..] + b;
      ForeignersConcat(a[1..], b);
    }
  }

  lemma ForeignersAppend(a: seq<Message>, m: Message)
    ensures Foreigners(a + [m]) == Foreigners(a) + if m.Foreign? then 1 else 0
  {
    ForeignersConcat(a, [m]);
    assert [m][1..] == [];
  }

  /** A foreign message received and not yet run. */
  ghost function InHand(worker: Worker, pc: Pc<Message>): nat {
    if worker.Busy? || ((worker.InImmediate? || worker.InAll?) && pc == Ready(Some(Foreign))) then 1 else 0
  }

  ghost function Hands<O>(s: System<O>): (r: seq<nat>)
    requires |s.worker| < |s.chan.pc|
  {
    seq(|s.worker|, w requires 0 <= w < |s.worker| => InHand(s.worker[w], s.chan.pc[w]))
  }

  ghost function PoppedForeigners(chan: Channel.State<Message>): nat
    requires |chan.popped| == LEVELS
  {
    Foreigners(chan.popped[0]) + Foreigners(chan.popped[1])
  }

  /** The foreign messages popped are those run and those in hand. */
  ghost predicate Accounted<O>(c: Work<O>, s: System<O>)
    requires WellSized(c, s)
  {
    PoppedForeigners(s.chan) == s.ran + TotalFrom(Hands(s), 0)
  }

  lemma HandMoved<O>(c: Work<O>, s: System<O>, s': System<O>, w: nat)
    requires WellSized(c, s) && WellSized(c, s') && w < |s.worker| == |s'.worker| && |s'.chan.pc| == |s.chan.pc|
    requires forall v :: 0 <= v < |s.worker| && v != w ==> s'.worker[v] == s.worker[v] && s'.chan.pc[v] == s.chan.pc[v]
    ensures TotalFrom(Hands(s'), 0) ==
              TotalFrom(Hands(s), 0) + InHand(s'.worker[w], s'.chan.pc[w]) - InHand(s.worker[w], s.chan.pc[w])
  {
    assert Hands(s') == Hands(s)[w := InHand(s'.worker[w], s'.chan.pc[w])];
    TotalFromUpdate(Hands(s), w, InHand(s'.worker[w], s'.chan.pc[w]), 0);
  }

  lemma HandsStay<O>(c: Work<O>, s: System<O>, s': System<O>)
    requires WellSized(c, s) && WellSized(c, s') && |s'.chan.pc| == |s.chan.pc| && s'.worker == s.worker && s'.ran == s.ran
    requires forall v :: 0 <= v < |s.worker| ==> s'.chan.pc[v] == s.chan.pc[v]
    requires s'.chan.popped == s.chan.popped && Accounted(c, s)
    ensures Accounted(c, s')
  {
    assert Hands(s') == Hands(s);
  }

  /** A channel step pops a foreign message exactly if it returns one. */
  lemma PopsForeign(chan: Channel.State<Message>, t: nat)
    requires CS.Inv(chan) && t < |chan.pc| && |chan.queue| == LEVELS && !chan.pc[t].Ready?
    ensures var next := Advance(chan, t);
            && (forall u :: 0 <= u < |chan.pc| && u != t ==> next.pc[u] == chan.pc[u])
            && PoppedForeigners(next) == PoppedForeigners(chan) + if next.pc[t] == Ready(Some(Foreign)) then 1 else 0
  {
    CS.TakenIsCounted(chan, t);
    CS.PcsKept(chan, t);
    assert CS.PcShape(LEVELS, chan.pc[t]);
    hide CS.Inv;
    if chan.pc[t].Popping? {
      ForeignersAppend(chan.popped[chan.pc[t].level], chan.queue[chan.pc[t].level][0]);
    }
  }

  lemma WorkerAccounts<O>(c: Work<O>, s: System<O>, w: nat)
    requires WellSized(c, s) && CS.Inv(s.chan) && Roles(c, s) && Accounted(c, s) && w < |s.worker|
    ensures Accounted(c, WorkerStep(c, s, w))
  {
    var s' := WorkerStep(c, s, w);
    if (s.worker[w].InImmediate? || s.worker[w].InAll?) && !s.chan.pc[w].Ready? {
      PopsForeign(s.chan, w);
      assert s'.chan == Advance(s.chan, w) && s'.worker == s.worker && s'.ran == s.ran;
      hide CS.Inv, Advance, WorkerStep;
      HandMoved(c, s, s', w);
    } else {
      hide CS.Inv;
      HandStep(c, s, w);
      hide WorkerStep;
      HandMoved(c, s, s', w);
    }
    hide Hands, TotalFrom, PoppedForeigners;
  }

  lemma HandStep<O>(c: Work<O>, s: System<O>, w: nat)
    requires WellSized(c, s) && Roles(c, s) && w < |s.worker|
    requires (s.worker[w].InImmediate? || s.worker[w].InAll?) ==> s.chan.pc[w].Ready?
    ensures var s' := WorkerStep(c, s, w);
            && |s'.chan.pc| == |s.chan.pc| && s'.chan.popped == s.chan.popped
            && (forall v :: 0 <= v < |s.worker| && v != w ==> s'.worker[v] == s.worker[v] && s'.chan.pc[v] == s.chan.pc[v])
            && s'.ran + InHand(s'.worker[w], s'.chan.pc[w]) == s.ran + InHand(s.worker[w], s.chan.pc[w])
  {
    assert RoleOk(s.worker[w], s.chan.pc[w]);
    hide Advance;
  }

  lemma PollAccounts<O>(c: Work<O>, s: System<O>)
    requires WellSized(c, s) && CS.Inv(s.chan) && Roles(c, s) && Accounted(c, s)
    ensures Accounted(c, PollStep(c, s))
  {
    var me := PollerThread(s);
    if s.poller.Sending? && !s.chan.pc[me].Ready? {
      PopsForeign(s.chan, me);
      assert s.chan.pc[me].Crashed? || !s.chan.pc[me].Popping?;
      CS.PcsKept(s.chan, me);
    } else {
      PollShape(c, s);
    }
    hide CS.Inv, Advance;
    HandsStay(c, s, PollStep(c, s));
  }

  lemma OutAccounts<O>(c: Work<O>, s: System<O>, k: nat, a: Channel.Action<Message>)
    requires Inv(c, s) && Accounted(c, s) && a.thread == SenderThread(s, k)
    requires a.Start? ==> a.call.Send? && !a.call.message.Job?
    ensures Accounted(c, OutMove(s, a))
  {
    OutMoves(s.chan, SenderThread(s, k), a, Sent(c, s));
    hide CS.Inv, Apply;
    HandsStay(c, s, OutMove(s, a));
  }

  lemma NextAccounts<O>(c: Work<O>, s: System<O>, e: Event)
    requires Inv(c, s) && Accounted(c, s)
    ensures Accounted(c, Next(c, s, e))
  {
    hide CS.Inv, Tiles, Taken, Counted, Staffed, Written, WakeKept;
    match e
    case Poll => PollAccounts(c, s);
    case Act(w) => if w < |s.worker| { WorkerAccounts(c, s, w); }
    case OutCall(k, idle, level) => OutAccounts(c, s, k, Start(SenderThread(s, k), Send(if idle then Idle else Foreign, level)));
    case OutStep(k) => OutAccounts(c, s, k, Step(SenderThread(s, k)));
    case OutEnforce(n) => HandsStay(c, s, Raise(s, n));
    case Nudge => HandsStay(c, s, s.(woken := true));
    case _ =>
      var s' := Next(c, s, e);
      if s' != s { HandMoved(c, s, s', e.worker); }
  }

  lemma {:induction false} EventsAccount<O>(c: Work<O>, s: System<O>, events: seq<Event>)
    requires Inv(c, s) && Accounted(c, s)
    ensures Accounted(c, RunEvents(c, s, events))
    decreases |events|
  {
    assert WellSized(c, s);
    hide Inv, Accounted, Next;
    if events != [] {
      NextKeeps(c, s, events[0]);
      NextAccounts(c, s, events[0]);
      EventsAccount(c, Next(c, s, events[0]), events[1..]);
    }
  }

  /** In every run the foreign messages popped are those run and those in a worker's hands; and at rest, with
      a thread there, every foreign message ever pushed has been run, once. */
  lemma ForeignRunOnce<O>(c: Work<O>, cpus: nat, senders: nat, capacity: nat, events: seq<Event>)
    requires Tiles(c.chunks, c.len)
    ensures var s := RunEvents(c, Launch(c, cpus, senders, capacity), events);
            && Accounted(c, s)
            && (Settled(c, s) && !SpawnPanics(s) && !Deserted(s) ==>
                  s.ran == Foreigners(s.chan.pushed[0]) + Foreigners(s.chan.pushed[1]))
  {
    var start := Launch(c, cpus, senders, capacity);
    LaunchKeeps(c, cpus, senders, capacity);
    TotalFromZero(Hands(start), 0);
    EventsAccount(c, start, events);
    EventsKeep(c, start, events);
    var s := RunEvents(c, start, events);
    hide RunEvents;
    if Settled(c, s) && !SpawnPanics(s) && !Deserted(s) { RestRanAll(c, s); }
  }

  lemma RestRanAll<O>(c: Work<O>, s: System<O>)
    requires Inv(c, s) && Accounted(c, s) && Settled(c, s) && !SpawnPanics(s) && !Deserted(s)
    ensures s.ran == Foreigners(s.chan.pushed[0]) + Foreigners(s.chan.pushed[1])
  {
    hide CS.Inv, Tiles, Taken, Counted, Staffed, Written, WakeKept, Lines, Roles;
    assert WellSized(c, s);
    SettledThreads(c, s);
    hide Settled;
    QueuesEmpty(s.chan);
    NothingQueued(s.chan);
    hide CS.Inv, Inv;
    assert forall w :: 0 <= w < |s.worker| ==> InHand(s.worker[w], s.chan.pc[w]) == 0;
    assert forall w :: 0 <= w < |s.worker| ==> Hands(s)[w] == 0;
    TotalFromZero(Hands(s), 0);
  }

  lemma NothingQueued(chan: Channel.State<Message>)
    requires CS.Inv(chan) && chan.queue == [[], []]
    ensures |chan.pushed| == LEVELS && chan.pushed[0] == chan.popped[0] && chan.pushed[1] == chan.popped[1]
  {
    assert chan.pushed[0] == chan.popped[0] + chan.queue[0];
    assert chan.pushed[1] == chan.popped[1] + chan.queue[1];
  }

  // How many threads there are.

  /** The largest number of jobs anybody has announced. */
  ghost function Announced<O>(c: Work<O>, events: seq<Event>): nat {
    if events == [] then 0
    else
      var rest := Announced(c, events[1..]);
      var now := if events[0].Poll? then |c.chunks| else if events[0].OutEnforce? then events[0].comingSoon else 0;
      if now > rest then now else rest
  }

  /** A call for threads leaves a count of at least the jobs announced or the cpus, whichever is less, and
      not above that if it was not before; what it adds to the count is owed. */
  lemma RaiseAnswers<O>(c: Work<O>, s: System<O>, comingSoon: nat)
    requires WellSized(c, s)
    ensures var t := Next(c, s, OutEnforce(comingSoon));
            && t == s.(count := t.count, owed := t.owed)
            && (comingSoon <= t.count || |s.worker| <= t.count)
            && s.count <= t.count && t.owed - s.owed == t.count - s.count
            && (t.count > s.count ==> t.count <= comingSoon && t.count <= |s.worker|)
  {
  }

  /** The future calls for its jobs at the start of its first poll, and at no other time. */
  lemma PollAnswers<O>(c: Work<O>, s: System<O>)
    requires WellSized(c, s)
    ensures var t := PollStep(c, s);
            && (s.poller.Unpolled? ==>
                  && (|c.chunks| <= t.count || |s.worker| <= t.count)
                  && (t.count > s.count ==> t.count <= |c.chunks| && t.count <= |s.worker|)
                  && t.owed - s.owed == t.count - s.count)
            && (!s.poller.Unpolled? ==> t.count == s.count && t.owed == s.owed)
  {
    hide Advance, Apply;
  }

  lemma {:induction false} CountWithin<O>(c: Work<O>, s: System<O>, events: seq<Event>, most: nat)
    requires WellSized(c, s) && s.count <= Min(most, |s.worker|) && Announced(c, events) <= most
    ensures RunEvents(c, s, events).count <= Min(most, |s.worker|)
    decreases |events|
  {
    if events != [] {
      var e := events[0];
      if e.Poll? { PollAnswers(c, s); }
      if e.OutEnforce? { RaiseAnswers(c, s, e.comingSoon); }
      if !e.Poll? && !e.OutEnforce? { OthersCount(c, s, e); }
      hide Next;
      CountWithin(c, Next(c, s, e), events[1..], most);
    }
  }

  lemma OthersCount<O>(c: Work<O>, s: System<O>, e: Event)
    requires WellSized(c, s) && !e.Poll? && !e.OutEnforce?
    ensures Next(c, s, e).count <= s.count
  {
    hide Advance, Apply;
  }

  /** In no run are there more threads than the largest number of jobs announced, or than cpus. */
  lemma PoolSize<O>(c: Work<O>, cpus: nat, senders: nat, capacity: nat, events: seq<Event>)
    ensures RunEvents(c, Launch(c, cpus, senders, capacity), events).count <= Min(Announced(c, events), cpus)
  {
    CountWithin(c, Launch(c, cpus, senders, capacity), events, Announced(c, events));
  }
}
