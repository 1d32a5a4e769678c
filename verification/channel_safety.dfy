/** What every step of the channel keeps, and what follows for every run. */
module ChannelSafety {
  import opened Counting
  import opened Channel

  // Weights of program counters, used as Sum(s.pc, W).

  ghost function AtSignal<M>(level: nat): Pc<M> -> nat {
    (pc: Pc<M>) => if pc.SignallingLocal? && pc.level == level then 1 else 0
  }

  ghost function AtPop<M>(level: nat): Pc<M> -> nat {
    (pc: Pc<M>) => if pc.Popping? && pc.level == level then 1 else 0
  }

  /** The panics that take a global token away. */
  predicate Loses(f: Fault) {
    f == NoSuchLevel(true) || f == NoElementFound
  }

  /** A global token in a thread's hands, an increment of a local semaphore not yet
      announced globally, or a token that a panic took away. */
  ghost function Token<M>(): Pc<M> -> nat {
    (pc: Pc<M>) =>
      if pc.SignallingGlobal? || pc.TryingLevel? || pc.Restoring? || pc.Scanning? || (pc.Crashed? && Loses(pc.fault)) then 1 else 0
  }

  ghost function LostToken<M>(): Pc<M> -> nat {
    (pc: Pc<M>) => if pc.Crashed? && Loses(pc.fault) then 1 else 0
  }

  /** A scanning receiver that has nothing left to try below level p. */
  ghost function Past<M>(p: nat): Pc<M> -> nat {
    (pc: Pc<M>) => if pc.Scanning? && p <= pc.level then 1 else 0
  }

  /** Levels at which recv_immediate may be called. */
  predicate ImmediateLevel(levels: nat, level: nat) {
    level == 0 || levels <= level
  }

  ghost predicate PcShape<M>(levels: nat, pc: Pc<M>) {
    match pc
    case SignallingLocal(l) => l < levels
    case Popping(l) => l < levels
    case Scanning(l) => l <= levels
    case Crashed(f) => !f.EmptyPop?
    case _ => true
  }

  /** What holds besides if recv_immediate keeps to its levels. */
  ghost predicate PcOk<M>(levels: nat, pc: Pc<M>) {
    match pc
    case TakingImmediate(l) => ImmediateLevel(levels, l)
    case TryingLevel(l) => ImmediateLevel(levels, l)
    case Crashed(f) => !f.NoElementFound?
    case _ => true
  }

  ghost predicate Fifo<M>(s: State<M>)
    requires Shaped(s)
  {
    forall l :: 0 <= l < |s.queue| ==> s.pushed[l] == s.popped[l] + s.queue[l]
  }

  /** A level's queue holds one element per local token, per receiver between the local
      decrement and its pop, and per sender between its push and the local signal. */
  ghost predicate Occupancy<M>(s: State<M>)
    requires Shaped(s)
  {
    forall l :: 0 <= l < |s.queue| ==>
      |s.queue[l]| == s.local[l] + Sum(s.pc, AtSignal(l)) + Sum(s.pc, AtPop(l))
  }

  /** The local counts add up to the global count and the tokens in hand. */
  ghost predicate Tokens<M>(s: State<M>)
    requires Shaped(s)
  {
    TotalFrom(s.local, 0) == s.global + Sum(s.pc, Token())
  }

  /** The scanners past the levels below p find enough left at the levels from p on. */
  ghost predicate Suffix<M>(s: State<M>)
    requires Shaped(s)
  {
    forall p :: 0 <= p <= |s.queue| ==> Sum(s.pc, Past(p)) <= TotalFrom(s.local, p)
  }

  /** What every call keeps, at whatever level. */
  ghost predicate Core<M>(s: State<M>) {
    && Shaped(s)
    && (forall l :: 0 <= l < |s.queue| ==> |s.queue[l]| <= s.capacity)
    && (forall t :: 0 <= t < |s.pc| ==> PcShape(|s.queue|, s.pc[t]))
    && Fifo(s)
    && Occupancy(s)
    && Tokens(s)
    && Bag(s.popped) == Bag(s.inbox)
  }

  /** What holds as long as recv_immediate is called where it is safe. */
  ghost predicate Inv<M>(s: State<M>) {
    && Core(s)
    && (forall t :: 0 <= t < |s.pc| ==> PcOk(|s.queue|, s.pc[t]))
    && Suffix(s)
  }

  /** recv_immediate is called at level 0, as the workers do, or at a level that does not exist. */
  predicate Disciplined<M>(levels: nat, a: Action<M>) {
    a.Start? && a.call.RecvImmediate? ==> ImmediateLevel(levels, a.call.level)
  }

  /** A receiver about to pop has an element waiting. */
  lemma PoppedIsCounted<M>(s: State<M>, t: nat)
    requires Core(s) && t < |s.pc| && s.pc[t].Popping?
    ensures s.queue[s.pc[t].level] != []
  {
    SumAtLeast(s.pc, t, AtPop(s.pc[t].level));
  }

  /** The suffix bound leaves no scanner past the last level. */
  lemma ScannedIsCounted<M>(s: State<M>, t: nat)
    requires Inv(s) && t < |s.pc| && s.pc[t].Scanning?
    ensures s.pc[t].level < |s.queue|
  {
    SumAtLeast(s.pc, t, Past(s.pc[t].level));
    assert Sum(s.pc, Past(s.pc[t].level)) <= TotalFrom(s.local, s.pc[t].level);
  }

  lemma TakenIsCounted<M>(s: State<M>, t: nat)
    requires Inv(s) && t < |s.pc|
    ensures s.pc[t].Scanning? ==> s.pc[t].level < |s.queue|
    ensures s.pc[t].Popping? ==> s.queue[s.pc[t].level] != []
  {
    if s.pc[t].Scanning? { ScannedIsCounted(s, t); }
    if s.pc[t].Popping? { PoppedIsCounted(s, t); }
  }

  lemma OccupancyKept<M>(s: State<M>, t: nat)
    requires Shaped(s) && t < |s.pc| && PcShape(|s.queue|, s.pc[t]) && Occupancy(s)
    ensures Occupancy(Advance(s, t))
  {
    forall l | 0 <= l < |s.queue| { OccupancyKeptAt(s, t, l); }
  }

  lemma OccupancyKeptAt<M>(s: State<M>, t: nat, l: nat)
    requires Shaped(s) && t < |s.pc| && PcShape(|s.queue|, s.pc[t]) && l < |s.queue|
    requires |s.queue[l]| == s.local[l] + Sum(s.pc, AtSignal(l)) + Sum(s.pc, AtPop(l))
    ensures var s' := Advance(s, t); |s'.queue[l]| == s'.local[l] + Sum(s'.pc, AtSignal(l)) + Sum(s'.pc, AtPop(l))
  {
    if s.pc[t].Pushing? || s.pc[t].Popping? {
      QueueMoveKept(s, t, l);
    } else {
      var s' := Advance(s, t);
      SumUpdate(s.pc, t, s'.pc[t], AtSignal(l));
      SumUpdate(s.pc, t, s'.pc[t], AtPop(l));
      assert s'.pc == s.pc[t := s'.pc[t]];
    }
  }

  lemma QueueMoveKept<M>(s: State<M>, t: nat, l: nat)
    requires Shaped(s) && t < |s.pc| && PcShape(|s.queue|, s.pc[t]) && l < |s.queue| && (s.pc[t].Pushing? || s.pc[t].Popping?)
    requires |s.queue[l]| == s.local[l] + Sum(s.pc, AtSignal(l)) + Sum(s.pc, AtPop(l))
    ensures var s' := Advance(s, t); |s'.queue[l]| == s'.local[l] + Sum(s'.pc, AtSignal(l)) + Sum(s'.pc, AtPop(l))
  {
    var s' := Advance(s, t);
    SumUpdate(s.pc, t, s'.pc[t], AtSignal(l));
    SumUpdate(s.pc, t, s'.pc[t], AtPop(l));
    SumAtLeast(s.pc, t, AtPop(l));
  }

  lemma TokensKept<M>(s: State<M>, t: nat)
    requires Shaped(s) && t < |s.pc| && PcShape(|s.queue|, s.pc[t]) && Tokens(s)
    ensures Tokens(Advance(s, t))
  {
    var s' := Advance(s, t);
    if s' != s {
      SumUpdate(s.pc, t, s'.pc[t], Token());
      if s'.local != s.local {
        TotalFromUpdate(s.local, s.pc[t].level, s'.local[s.pc[t].level], 0);
      }
    }
  }

  lemma SuffixKept<M>(s: State<M>, t: nat)
    requires Shaped(s) && t < |s.pc| && PcShape(|s.queue|, s.pc[t]) && PcOk(|s.queue|, s.pc[t]) && Suffix(s)
    requires s.pc[t].Scanning? ==> s.pc[t].level < |s.queue|
    requires Tokens(Advance(s, t))
    ensures Suffix(Advance(s, t))
  {
    var s' := Advance(s, t);
    SumMonotone(s'.pc, Past(0), Token());
    forall p | 0 < p <= |s.queue| { SuffixKeptAt(s, t, p); }
  }

  /** Passing an empty level keeps the bound: what was counted at that level is counted at the next.
      Taking from level 0 does not touch the bound for p > 0. */
  lemma SuffixKeptAt<M>(s: State<M>, t: nat, p: nat)
    requires Shaped(s) && t < |s.pc| && PcShape(|s.queue|, s.pc[t]) && PcOk(|s.queue|, s.pc[t]) && 0 < p <= |s.queue|
    requires s.pc[t].Scanning? ==> s.pc[t].level < |s.queue|
    requires Sum(s.pc, Past(p)) <= TotalFrom(s.local, p)
    requires Sum(s.pc, Past(p - 1)) <= TotalFrom(s.local, p - 1)
    ensures Sum(Advance(s, t).pc, Past(p)) <= TotalFrom(Advance(s, t).local, p)
  {
    var s' := Advance(s, t);
    if s' != s {
      SumUpdate(s.pc, t, s'.pc[t], Past(p));
      if s'.local != s.local {
        TotalFromUpdate(s.local, s.pc[t].level, s'.local[s.pc[t].level], p);
      } else if s.pc[t].Scanning? && p == s.pc[t].level + 1 {
        PastStrict(s.pc, t, p);
      }
    }
  }

  /** A scanner exactly at level p - 1 counts for p - 1 and not for p. */
  lemma PastStrict<M>(pcs: seq<Pc<M>>, t: nat, p: nat)
    requires t < |pcs| && p > 0 && pcs[t] == Scanning(p - 1)
    ensures Sum(pcs, Past(p)) < Sum(pcs, Past(p - 1))
  {
    var u := pcs[t := Scanning(p)];
    SumUpdate(pcs, t, Scanning(p), Past(p));
    SumUpdate(pcs, t, Scanning(p), Past(p - 1));
    SumMonotone(u, Past(p), Past(p - 1));
  }

  lemma PushKeepsFifo<M>(s: State<M>, t: nat)
    requires Shaped(s) && t < |s.pc| && Fifo(s) && s.pc[t].Pushing?
    ensures Fifo(Advance(s, t))
  {
  }

  lemma PopKeepsFifo<M>(s: State<M>, t: nat)
    requires Shaped(s) && t < |s.pc| && Fifo(s) && s.pc[t].Popping?
    requires s.pc[t].level < |s.queue| && s.queue[s.pc[t].level] != []
    ensures Fifo(Advance(s, t))
  {
    var l := s.pc[t].level;
    assert s.queue[l] == [s.queue[l][0]] + s.queue[l][1..];
  }

  lemma PopKeepsInbox<M>(s: State<M>, t: nat)
    requires Shaped(s) && t < |s.pc| && Bag(s.popped) == Bag(s.inbox) && s.pc[t].Popping?
    requires s.pc[t].level < |s.queue| && s.queue[s.pc[t].level] != []
    ensures Bag(Advance(s, t).popped) == Bag(Advance(s, t).inbox)
  {
    var m := s.queue[s.pc[t].level][0];
    BagAppend(s.popped, s.pc[t].level, m);
    BagAppend(s.inbox, t, m);
  }

  lemma PcsKept<M>(s: State<M>, t: nat)
    requires Shaped(s) && t < |s.pc| && PcShape(|s.queue|, s.pc[t])
    requires s.pc[t].Popping? ==> s.queue[s.pc[t].level] != []
    ensures PcShape(|s.queue|, Advance(s, t).pc[t])
    ensures forall u :: 0 <= u < |s.pc| && u != t ==> Advance(s, t).pc[u] == s.pc[u]
    ensures forall l :: 0 <= l < |s.queue| && |s.queue[l]| <= s.capacity ==> |Advance(s, t).queue[l]| <= s.capacity
    ensures !s.pc[t].Popping? ==> Advance(s, t).popped == s.popped && Advance(s, t).inbox == s.inbox
    ensures !s.pc[t].Popping? && !s.pc[t].Pushing? ==> Advance(s, t).queue == s.queue && Advance(s, t).pushed == s.pushed
    ensures Advance(s, t).capacity == s.capacity
  {
  }

  lemma HistoriesKept<M>(s: State<M>, t: nat)
    requires Core(s) && t < |s.pc|
    requires s.pc[t].Popping? ==> s.queue[s.pc[t].level] != []
    ensures Fifo(Advance(s, t)) && Bag(Advance(s, t).popped) == Bag(Advance(s, t).inbox)
  {
    if s.pc[t].Popping? {
      PopKeepsFifo(s, t);
      PopKeepsInbox(s, t);
    } else {
      PcsKept(s, t);
      if s.pc[t].Pushing? {
        PushKeepsFifo(s, t);
      } else {
        SameHistories(s, Advance(s, t));
      }
    }
  }

  lemma SameHistories<M>(s: State<M>, s': State<M>)
    requires Shaped(s) && Shaped(s') && Fifo(s)
    requires s'.queue == s.queue && s'.pushed == s.pushed && s'.popped == s.popped
    ensures Fifo(s')
  {
  }

  lemma Assembled<M>(s: State<M>, t: nat, s': State<M>)
    requires Core(s) && t < |s.pc| && |s'.pc| == |s.pc| && |s'.queue| == |s.queue| && s'.capacity == s.capacity
    requires Shaped(s') && Fifo(s') && Occupancy(s') && Tokens(s') && Bag(s'.popped) == Bag(s'.inbox)
    requires PcShape(|s.queue|, s'.pc[t]) && forall u :: 0 <= u < |s.pc| && u != t ==> s'.pc[u] == s.pc[u]
    requires forall l :: 0 <= l < |s.queue| && |s.queue[l]| <= s.capacity ==> |s'.queue[l]| <= s.capacity
    ensures Core(s')
  {
  }

  lemma AdvanceKeepsCore<M>(s: State<M>, t: nat)
    requires Core(s) && t < |s.pc|
    ensures Core(Advance(s, t))
  {
    if s.pc[t].Popping? { PoppedIsCounted(s, t); }
    PcsKept(s, t);
    OccupancyKept(s, t);
    TokensKept(s, t);
    HistoriesKept(s, t);
    Assembled(s, t, Advance(s, t));
  }

  lemma PcsStayOk<M>(s: State<M>, t: nat)
    requires Shaped(s) && t < |s.pc| && (forall u :: 0 <= u < |s.pc| ==> PcOk(|s.queue|, s.pc[u]))
    requires s.pc[t].Scanning? ==> s.pc[t].level < |s.queue|
    ensures forall u :: 0 <= u < |s.pc| ==> PcOk(|s.queue|, Advance(s, t).pc[u])
  {
    assert forall u :: 0 <= u < |s.pc| && u != t ==> Advance(s, t).pc[u] == s.pc[u];
    assert PcOk(|s.queue|, s.pc[t]) ==> PcOk(|s.queue|, Advance(s, t).pc[t]);
  }

  lemma AdvanceKeeps<M>(s: State<M>, t: nat)
    requires Inv(s) && t < |s.pc|
    ensures Inv(Advance(s, t))
  {
    TakenIsCounted(s, t);
    AdvanceKeepsCore(s, t);
    SuffixKept(s, t);
    PcsStayOk(s, t);
    hide Advance, Suffix, PcOk;
  }

  lemma StartKeepsCore<M>(s: State<M>, t: nat, call: Call<M>)
    requires Core(s) && t < |s.pc| && s.pc[t].Ready?
    ensures Core(Apply(s, Start(t, call)))
  {
    var pc := Entry(call);
    var s' := Apply(s, Start(t, call));
    forall l: nat ensures Sum(s'.pc, AtSignal(l)) == Sum(s.pc, AtSignal(l)) { SumUpdate(s.pc, t, pc, AtSignal(l)); }
    forall l: nat ensures Sum(s'.pc, AtPop(l)) == Sum(s.pc, AtPop(l)) { SumUpdate(s.pc, t, pc, AtPop(l)); }
    SumUpdate(s.pc, t, pc, Token());
  }

  lemma StartKeeps<M>(s: State<M>, t: nat, call: Call<M>)
    requires Inv(s) && t < |s.pc| && s.pc[t].Ready? && Disciplined(|s.queue|, Start(t, call))
    ensures Inv(Apply(s, Start(t, call)))
  {
    StartKeepsCore(s, t, call);
    var pc := Entry(call);
    var s' := Apply(s, Start(t, call));
    forall p: nat ensures Sum(s'.pc, Past(p)) == Sum(s.pc, Past(p)) { SumUpdate(s.pc, t, pc, Past(p)); }
    hide Core;
  }

  lemma InitKeepsCore<M>(levels: nat, threads: nat, capacity: nat)
    ensures Core(Init<M>(levels, threads, capacity))
  {
    var s := Init<M>(levels, threads, capacity);
    forall l: nat { SumZero(s.pc, AtSignal(l)); }
    forall l: nat { SumZero(s.pc, AtPop(l)); }
    SumZero(s.pc, Token());
    TotalFromZero(s.local, 0);
    BagEmpty(s.popped);
    BagEmpty(s.inbox);
  }

  lemma InitKeeps<M>(levels: nat, threads: nat, capacity: nat)
    ensures Inv(Init<M>(levels, threads, capacity))
  {
    var s := Init<M>(levels, threads, capacity);
    InitKeepsCore<M>(levels, threads, capacity);
    forall p: nat { SumZero(s.pc, Past(p)); }
    hide Core;
  }

  /** Any step at all keeps order, occupancy, and the balance of tokens. */
  lemma ApplyKeepsCore<M>(s: State<M>, a: Action<M>)
    requires Core(s)
    ensures Core(Apply(s, a))
  {
    if a.thread < |s.pc| {
      match a
      case Start(t, call) => if s.pc[t].Ready? { StartKeepsCore(s, t, call); }
      case Step(t) => AdvanceKeepsCore(s, t);
    }
  }

  lemma {:induction false} RunKeepsCore<M>(s: State<M>, actions: seq<Action<M>>)
    requires Core(s)
    ensures Core(Run(s, actions))
    decreases |actions|
  {
    if actions != [] {
      ApplyKeepsCore(s, actions[0]);
      RunKeepsCore(Apply(s, actions[0]), actions[1..]);
    }
  }

  /** And the bound on the scanners is kept by every step that calls recv_immediate only where it is safe. */
  lemma ApplyKeeps<M>(s: State<M>, a: Action<M>)
    requires Core(s)
    ensures Core(Apply(s, a))
    ensures Inv(s) && Disciplined(|s.queue|, a) ==> Inv(Apply(s, a))
  {
    ApplyKeepsCore(s, a);
    if Inv(s) && Disciplined(|s.queue|, a) && a.thread < |s.pc| {
      match a
      case Start(t, call) => if s.pc[t].Ready? { StartKeeps(s, t, call); }
      case Step(t) => AdvanceKeeps(s, t);
    }
  }

  lemma {:induction false} RunKeeps<M>(s: State<M>, actions: seq<Action<M>>)
    requires Inv(s)
    requires forall a :: a in actions ==> Disciplined(|s.queue|, a)
    ensures Inv(Run(s, actions))
    decreases |actions|
  {
    if actions != [] {
      ApplyKeeps(s, actions[0]);
      RunKeeps(Apply(s, actions[0]), actions[1..]);
    }
  }
}
