/** The thread counter: compare-and-swap loops that grow the pool before work arrives and let
    idle workers leave it. */
module ThreadPolicy {
  import opened Counting
  import opened Words

  const MIN_THREADS: nat := 1

  datatype ThreadCounts = ThreadCounts(userWaiting: u16)

  /** Masked to 32 bits, then cast to 16. */
  function FromU64(u: u64): ThreadCounts {
    ThreadCounts((u % TWO_32) % TWO_16)
  }

  function ToU64(t: ThreadCounts): u64 {
    t.userWaiting
  }

  /** A count survives its encoding; an encoding survives decoding exactly when it fits in 16 bits. */
  lemma EncodingRoundTrips(t: ThreadCounts, u: u64)
    ensures FromU64(ToU64(t)) == t
    ensures ToU64(FromU64(u)) == u <==> u < TWO_16
    ensures FromU64(u).userWaiting == u % TWO_16
  {
  }

  /** A thread inside enforce_spare_thread_policy. */
  datatype Caller =
    | Outside
    | Loading(proposed: u16)
    | Swapping(proposed: u16, prev: u64)
    | Launching(left: int)

  /** A worker of the pool; asked to leave, it runs the same kind of loop.  One whose job panicked is
      gone without having lowered the count. */
  datatype Worker =
    | Alive
    | LeaveLoading
    | LeaveSwapping(prev: u64)
    | Gone
    | Crashed

  datatype State = State(count: u64, cpus: u16, callers: seq<Caller>, workers: seq<Worker>)

  /** `spurious` lets compare_exchange_weak fail for no reason. */
  datatype Event =
    | Enforce(caller: nat, comingSoon: nat)
    | CallerStep(caller: nat, spurious: bool)
    | Idle(worker: nat)
    | WorkerStep(worker: nat, spurious: bool)
    | Crash(worker: nat)

  function Init(cpus: u16, callers: nat): State {
    State(0, cpus, seq(callers, _ => Outside), [])
  }

  /** The closure of enforce_spare_thread_policy on the value just read: no change, or a swap. */
  function Raise(proposed: u16, prev: u64): Caller {
    if FromU64(prev).userWaiting >= proposed then Outside else Swapping(proposed, prev)
  }

  /** The new value a leaving worker asks for. */
  function Lowered(prev: u64): u64 {
    var t := FromU64(prev);
    ToU64(if t.userWaiting > MIN_THREADS then t.(userWaiting := t.userWaiting - 1) else t)
  }

  function Leave(prev: u64): Worker {
    if Lowered(prev) != prev then LeaveSwapping(prev) else Alive
  }

  function CallerNext(s: State, c: nat, spurious: bool): State
    requires c < |s.callers|
  {
    match s.callers[c]
    case Outside => s
    case Loading(p) => s.(callers := s.callers[c := Raise(p, s.count)])
    case Swapping(p, prev) =>
      if s.count == prev && !spurious then
        s.(count := ToU64(FromU64(prev).(userWaiting := p)),
           callers := s.callers[c := Launching(p - FromU64(prev).userWaiting)])
      else s.(callers := s.callers[c := Raise(p, s.count)])
    case Launching(left) =>
      if left == 0 then s.(callers := s.callers[c := Outside])
      else s.(workers := s.workers + [Alive], callers := s.callers[c := Launching(left - 1)])
  }

  function WorkerNext(s: State, w: nat, spurious: bool): State
    requires w < |s.workers|
  {
    match s.workers[w]
    case Alive => s
    case Gone => s
    case Crashed => s
    case LeaveLoading => s.(workers := s.workers[w := Leave(s.count)])
    case LeaveSwapping(prev) =>
      if s.count == prev && !spurious then s.(count := Lowered(prev), workers := s.workers[w := Gone])
      else s.(workers := s.workers[w := Leave(s.count)])
  }

  function Apply(s: State, e: Event): State {
    match e
    case Enforce(c, comingSoon) =>
      if c < |s.callers| && s.callers[c] == Outside
      then s.(callers := s.callers[c := Loading(Min(comingSoon, s.cpus))]) else s
    case CallerStep(c, spurious) => if c < |s.callers| then CallerNext(s, c, spurious) else s
    case Idle(w) =>
      if w < |s.workers| && s.workers[w] == Alive then s.(workers := s.workers[w := LeaveLoading]) else s
    case WorkerStep(w, spurious) => if w < |s.workers| then WorkerNext(s, w, spurious) else s
    case Crash(w) =>
      if w < |s.workers| && s.workers[w] == Alive then s.(workers := s.workers[w := Crashed]) else s
  }

  function Run(s: State, events: seq<Event>): State
    decreases |events|
  {
    if events == [] then s else Run(Apply(s, events[0]), events[1..])
  }

  ghost function Owed(): Caller -> nat {
    (c: Caller) => if c.Launching? && c.left > 0 then c.left else 0
  }

  ghost function Living(): Worker -> nat {
    (w: Worker) => if w.Gone? || w.Crashed? then 0 else 1
  }

  /** Counted, but no longer there. */
  ghost function Lost(): Worker -> nat {
    (w: Worker) => if w.Crashed? then 1 else 0
  }

  ghost predicate CallerOk(c: Caller, cpus: nat) {
    match c
    case Loading(p) => p <= cpus
    case Swapping(p, prev) => p <= cpus && prev < p
    case Launching(left) => left >= 0
    case Outside => true
  }

  ghost predicate WorkerOk(w: Worker, cpus: nat) {
    w.LeaveSwapping? ==> MIN_THREADS < w.prev <= cpus
  }

  ghost predicate Inv(s: State) {
    && s.count == Sum(s.workers, Living()) + Sum(s.callers, Owed()) + Sum(s.workers, Lost())
    && s.count <= s.cpus
    && (forall c :: 0 <= c < |s.callers| ==> CallerOk(s.callers[c], s.cpus))
    && (forall w :: 0 <= w < |s.workers| ==> WorkerOk(s.workers[w], s.cpus))
  }

  /** Counts up to the number of cpus are read back exactly, and lowered by one down to the minimum. */
  lemma SmallCount(u: u64)
    requires u < TWO_16
    ensures FromU64(u).userWaiting == u
    ensures Lowered(u) == if u > MIN_THREADS then u - 1 else u
  {
  }

  lemma CallerKeeps(s: State, c: nat, spurious: bool)
    requires Inv(s) && c < |s.callers|
    ensures Inv(CallerNext(s, c, spurious)) && (s.count >= 1 ==> CallerNext(s, c, spurious).count >= 1)
  {
    match s.callers[c]
    case Outside =>
    case Launching(_) => LaunchKeeps(s, c);
    case _ => RaiseKeeps(s, c, spurious);
  }

  /** The swap promises as many launches as it adds to the count. */
  lemma RaiseKeeps(s: State, c: nat, spurious: bool)
    requires Inv(s) && c < |s.callers| && (s.callers[c].Loading? || s.callers[c].Swapping?)
    ensures Inv(CallerNext(s, c, spurious)) && (s.count >= 1 ==> CallerNext(s, c, spurious).count >= 1)
  {
    SmallCount(s.count);
    hide FromU64;
    assert CallerOk(s.callers[c], s.cpus);
    SumUpdate(s.callers, c, CallerNext(s, c, spurious).callers[c], Owed());
  }

  lemma LaunchKeeps(s: State, c: nat)
    requires Inv(s) && c < |s.callers| && s.callers[c].Launching?
    ensures Inv(CallerNext(s, c, false)) && CallerNext(s, c, false).count == s.count
  {
    assert CallerOk(s.callers[c], s.cpus);
    SumUpdate(s.callers, c, CallerNext(s, c, false).callers[c], Owed());
    SumAppend(s.workers, Alive, Living());
    SumAppend(s.workers, Alive, Lost());
  }

  lemma WorkerKeeps(s: State, w: nat, spurious: bool)
    requires Inv(s) && w < |s.workers|
    ensures Inv(WorkerNext(s, w, spurious)) && (s.count >= 1 ==> WorkerNext(s, w, spurious).count >= 1)
  {
    SmallCount(s.count);
    hide FromU64, Lowered;
    var s' := WorkerNext(s, w, spurious);
    if s' != s {
      SumUpdate(s.workers, w, s'.workers[w], Living());
      SumUpdate(s.workers, w, s'.workers[w], Lost());
    }
  }

  /** A living worker is asked to leave, or panics. */
  lemma AliveKeeps(s: State, w: nat, next: Worker)
    requires Inv(s) && w < |s.workers| && s.workers[w] == Alive && (next == LeaveLoading || next == Crashed)
    ensures Inv(s.(workers := s.workers[w := next]))
  {
    SumUpdate(s.workers, w, next, Living());
    SumUpdate(s.workers, w, next, Lost());
  }

  lemma ApplyKeeps(s: State, e: Event)
    requires Inv(s)
    ensures Inv(Apply(s, e)) && Apply(s, e).cpus == s.cpus && (s.count >= 1 ==> Apply(s, e).count >= 1)
  {
    match e
    case Enforce(c, n) =>
      if c < |s.callers| && s.callers[c] == Outside {
        SumUpdate(s.callers, c, Loading(Min(n, s.cpus)), Owed());
      }
    case CallerStep(c, spurious) => if c < |s.callers| { CallerKeeps(s, c, spurious); }
    case Idle(w) =>
      if w < |s.workers| && s.workers[w] == Alive { AliveKeeps(s, w, LeaveLoading); }
    case WorkerStep(w, spurious) => if w < |s.workers| { WorkerKeeps(s, w, spurious); }
    case Crash(w) =>
      if w < |s.workers| && s.workers[w] == Alive { AliveKeeps(s, w, Crashed); }
  }

  lemma {:induction false} RunKeeps(s: State, events: seq<Event>)
    requires Inv(s)
    ensures Inv(Run(s, events)) && Run(s, events).cpus == s.cpus && (s.count >= 1 ==> Run(s, events).count >= 1)
    decreases |events|
  {
    if events != [] {
      ApplyKeeps(s, events[0]);
      RunKeeps(Apply(s, events[0]), events[1..]);
    }
  }

  lemma InitKeeps(cpus: u16, callers: nat)
    ensures Inv(Init(cpus, callers))
  {
    SumZero(Init(cpus, callers).callers, Owed());
  }

  /** Whatever callers, idle workers and panicking jobs do, the stored count is the number of living
      workers, of launches still owed, and of threads lost in a panic, and never exceeds the cpus. */
  lemma CountIsThreads(cpus: u16, callers: nat, events: seq<Event>)
    ensures var s := Run(Init(cpus, callers), events);
            s.count == Sum(s.workers, Living()) + Sum(s.callers, Owed()) + Sum(s.workers, Lost()) && s.count <= cpus
  {
    InitKeeps(cpus, callers);
    RunKeeps(Init(cpus, callers), events);
  }

  ghost predicate AllReturned(s: State) {
    forall c :: 0 <= c < |s.callers| ==> s.callers[c] == Outside
  }

  ghost predicate SomeoneLives(s: State) {
    exists w :: 0 <= w < |s.workers| && Living()(s.workers[w]) == 1
  }

  /** With every call returned, a worker lives exactly if the count is more than the threads lost. */
  lemma LivingOnReturn(s: State)
    requires Inv(s) && AllReturned(s)
    ensures SomeoneLives(s) <==> s.count > Sum(s.workers, Lost())
  {
    SumZero(s.callers, Owed());
    if s.count > Sum(s.workers, Lost()) {
      var w := SumWitness(s.workers, Living());
    }
    if SomeoneLives(s) {
      var w :| 0 <= w < |s.workers| && Living()(s.workers[w]) == 1;
      SumAtLeast(s.workers, w, Living());
    }
  }

  /** Once the count has been positive, concurrent departures never take it to 0: with every call returned, a
      worker lives unless all that are counted have been lost in a panic. */
  lemma LastThreadStays(cpus: u16, callers: nat, before: seq<Event>, after: seq<Event>)
    requires Run(Init(cpus, callers), before).count >= 1
    ensures var s := Run(Run(Init(cpus, callers), before), after);
            && s.count >= 1
            && (AllReturned(s) ==> (SomeoneLives(s) <==> s.count > Sum(s.workers, Lost())))
  {
    InitKeeps(cpus, callers);
    RunKeeps(Init(cpus, callers), before);
    RunKeeps(Run(Init(cpus, callers), before), after);
    var s := Run(Run(Init(cpus, callers), before), after);
    if AllReturned(s) { LivingOnReturn(s); }
  }

  /** Every cpu has its thread in the count, and every thread in the count is lost. */
  ghost predicate AllLost(s: State) {
    s.count == s.cpus && Sum(s.workers, Lost()) == s.count
  }

  lemma NobodyLives(s: State)
    requires Inv(s) && AllLost(s)
    ensures !SomeoneLives(s) && forall c :: 0 <= c < |s.callers| ==> Owed()(s.callers[c]) == 0
  {
    if SomeoneLives(s) {
      var w :| 0 <= w < |s.workers| && Living()(s.workers[w]) == 1;
      SumAtLeast(s.workers, w, Living());
    }
    forall c | 0 <= c < |s.callers| ensures Owed()(s.callers[c]) == 0 { SumAtLeast(s.callers, c, Owed()); }
  }

  lemma AllLostKept(s: State, e: Event)
    requires Inv(s) && AllLost(s)
    ensures Inv(Apply(s, e)) && AllLost(Apply(s, e))
  {
    ApplyKeeps(s, e);
    NobodyLives(s);
    if e.CallerStep? && e.caller < |s.callers| {
      SmallCount(s.count);
      assert CallerOk(s.callers[e.caller], s.cpus);
      assert Owed()(s.callers[e.caller]) == 0;
    }
    if (e.WorkerStep? || e.Crash? || e.Idle?) && e.worker < |s.workers| {
      assert Living()(s.workers[e.worker]) == 0;
    }
    hide Inv, FromU64, Lowered, SomeoneLives;
  }

  lemma {:induction false} AllLostRun(s: State, events: seq<Event>)
    requires Inv(s) && AllLost(s)
    ensures !SomeoneLives(Run(s, events))
    decreases |events|
  {
    NobodyLives(s);
    if events != [] {
      AllLostKept(s, events[0]);
      AllLostRun(Apply(s, events[0]), events[1..]);
    }
  }

  /** A job that panics takes its thread away, and leaves the count as it is. */
  lemma PanicLoses(s: State, w: nat)
    requires w < |s.workers| && s.workers[w] == Alive
    ensures var t := Apply(s, Crash(w));
            && t == s.(workers := t.workers) && t.workers == s.workers[w := t.workers[w]]
            && Sum(t.workers, Lost()) == Sum(s.workers, Lost()) + 1
            && Sum(t.workers, Living()) == Sum(s.workers, Living()) - 1
  {
    SumUpdate(s.workers, w, Apply(s, Crash(w)).workers[w], Lost());
    SumUpdate(s.workers, w, Apply(s, Crash(w)).workers[w], Living());
  }

  ghost predicate CanRevive(s: State) {
    exists after :: SomeoneLives(Run(s, after))
  }

  /** A call for a thread for every cpu, on a count that lacks one. */
  lemma RaiseRevives(s: State)
    requires Inv(s) && |s.callers| > 0 && s.callers[0] == Outside && s.count < s.cpus
    ensures CanRevive(s)
  {
    var step := CallerStep(0, false);
    SmallCount(s.count);
    var s1 := Apply(s, Enforce(0, s.cpus));
    var s2 := Apply(s1, step);
    var s3 := Apply(s2, step);
    var s4 := Apply(s3, step);
    assert s2.callers[0] == Swapping(s.cpus, s.count);
    assert s3.callers[0].Launching? && s3.callers[0].left > 0;
    assert s4.workers[|s.workers|] == Alive && Living()(s4.workers[|s.workers|]) == 1;
    var all := [Enforce(0, s.cpus), step, step, step];
    assert all[1..] == [step, step, step] && all[1..][1..] == [step, step] && all[1..][1..][1..] == [step];
    assert Run(s, all) == Run(s1, all[1..]) == Run(s2, all[1..][1..]) == Run(s3, all[1..][1..][1..]);
    assert all[1..][1..][1..][1..] == [] && Run(s3, all[1..][1..][1..]) == Run(s4, []) == s4;
    var end := Run(s, all);
    assert SomeoneLives(end);
  }

  /** A pool whose calls have all returned can have a living worker again exactly if it has one, or a cpu is
      without a counted thread: once panics have taken a thread for every cpu, no call launches another. */
  lemma RecoveryRule(cpus: u16, callers: nat, before: seq<Event>)
    requires callers > 0 && AllReturned(Run(Init(cpus, callers), before))
    ensures var s := Run(Init(cpus, callers), before);
            CanRevive(s) <==> SomeoneLives(s) || s.count < cpus
  {
    InitKeeps(cpus, callers);
    RunKeeps(Init(cpus, callers), before);
    CallersStay(Init(cpus, callers), before);
    var s := Run(Init(cpus, callers), before);
    LivingOnReturn(s);
    if SomeoneLives(s) {
      LivesAlready(s);
    } else if s.count < cpus {
      RaiseRevives(s);
    } else {
      SumZero(s.callers, Owed());
      SumZero(s.workers, Living());
      forall after ensures !SomeoneLives(Run(s, after)) { AllLostRun(s, after); }
    }
  }

  lemma LivesAlready(s: State)
    requires SomeoneLives(s)
    ensures CanRevive(s)
  {
    var none: seq<Event> := [];
    var end := Run(s, none);
    assert end == s;
    assert SomeoneLives(end);
  }

  lemma {:induction false} CallersStay(s: State, events: seq<Event>)
    ensures |Run(s, events).callers| == |s.callers|
    decreases |events|
  {
    if events != [] { CallersStay(Apply(s, events[0]), events[1..]); }
  }

  /** Either there is a thread, or caller c is still on its way to raise the count. */
  ghost predicate Provided(s: State, c: nat) {
    || s.count >= 1
    || (c < |s.callers| && s.callers[c].Loading? && s.callers[c].proposed >= 1)
    || (c < |s.callers| && s.callers[c].Swapping? && s.callers[c].proposed >= 1)
  }

  lemma ProvidedKept(s: State, e: Event, c: nat)
    requires Inv(s) && Provided(s, c)
    ensures Provided(Apply(s, e), c)
  {
    ApplyKeeps(s, e);
    SmallCount(s.count);
    if e.CallerStep? && e.caller == c && c < |s.callers| {
      assert CallerOk(s.callers[c], s.cpus);
      if s.callers[c].Swapping? { SmallCount(s.callers[c].proposed); }
    }
    hide FromU64, Lowered;
  }

  lemma {:induction false} ProvidedRun(s: State, events: seq<Event>, c: nat)
    requires Inv(s) && Provided(s, c)
    ensures Provided(Run(s, events), c)
    decreases |events|
  {
    if events != [] {
      ProvidedKept(s, events[0], c);
      ApplyKeeps(s, events[0]);
      ProvidedRun(Apply(s, events[0]), events[1..], c);
    }
  }

  /** A call for one job or more on a machine with a cpu leaves, when it returns, a thread counted, whatever
      idle workers and other callers do meanwhile and afterwards; with every call returned a worker lives,
      unless all that are counted have been lost in a panic. */
  lemma EnforceProvides(cpus: u16, callers: nat, before: seq<Event>, c: nat, comingSoon: nat, after: seq<Event>)
    requires cpus >= 1 && comingSoon >= 1
    requires c < |Run(Init(cpus, callers), before).callers| && Run(Init(cpus, callers), before).callers[c] == Outside
    ensures var s := Run(Apply(Run(Init(cpus, callers), before), Enforce(c, comingSoon)), after);
            && (c < |s.callers| && s.callers[c] == Outside ==> s.count >= 1)
            && (AllReturned(s) && c < |s.callers| ==> (SomeoneLives(s) <==> s.count > Sum(s.workers, Lost())))
  {
    InitKeeps(cpus, callers);
    RunKeeps(Init(cpus, callers), before);
    var s0 := Run(Init(cpus, callers), before);
    var s1 := Apply(s0, Enforce(c, comingSoon));
    ApplyKeeps(s0, Enforce(c, comingSoon));
    ProvidedRun(s1, after, c);
    RunKeeps(s1, after);
    var s := Run(s1, after);
    if AllReturned(s) && c < |s.callers| { LivingOnReturn(s); }
  }

  // How many threads a call asks for.

  /** The largest number of jobs that any call has announced. */
  function Most(events: seq<Event>): nat {
    if events == [] then 0
    else
      var rest := Most(events[1..]);
      if events[0].Enforce? && events[0].comingSoon > rest then events[0].comingSoon else rest
  }

  predicate InLoop(c: Caller) {
    c.Loading? || c.Swapping?
  }

  /** Nobody asks for more than m jobs or the cpus need. */
  ghost predicate Within(s: State, m: nat) {
    && s.count <= Min(m, s.cpus)
    && forall c :: 0 <= c < |s.callers| && InLoop(s.callers[c]) ==> s.callers[c].proposed <= Min(m, s.cpus)
  }

  lemma WithinKept(s: State, e: Event, m: nat)
    requires Inv(s) && Within(s, m) && (e.Enforce? ==> e.comingSoon <= m)
    ensures Within(Apply(s, e), m)
  {
    SmallCount(s.count);
    if e.WorkerStep? && e.worker < |s.workers| && s.workers[e.worker].LeaveSwapping? { SmallCount(s.workers[e.worker].prev); }
    hide FromU64, Lowered;
  }

  lemma {:induction false} WithinRun(s: State, events: seq<Event>, m: nat)
    requires Inv(s) && Within(s, m) && Most(events) <= m
    ensures Within(Run(s, events), m) && Run(s, events).cpus == s.cpus
    decreases |events|
  {
    if events != [] {
      ApplyKeeps(s, events[0]);
      WithinKept(s, events[0], m);
      WithinRun(Apply(s, events[0]), events[1..], m);
    }
  }

  /** In no run does the count exceed what the largest call needs: its jobs or the cpus, whichever is less. */
  lemma CountAsked(cpus: u16, callers: nat, events: seq<Event>)
    ensures Run(Init(cpus, callers), events).count <= Min(Most(events), cpus)
  {
    InitKeeps(cpus, callers);
    WithinRun(Init(cpus, callers), events, Most(events));
  }

  /** Caller c has not left its loop yet. */
  predicate StaysIn(s: State, events: seq<Event>, c: nat)
    decreases |events|
  {
    && c < |s.callers| && InLoop(s.callers[c])
    && (events == [] || StaysIn(Apply(s, events[0]), events[1..], c))
  }

  lemma {:induction false} AsksTheSame(s: State, events: seq<Event>, c: nat)
    requires Inv(s) && StaysIn(s, events, c)
    ensures var t := Run(s, events);
            && Inv(t) && t.cpus == s.cpus && c < |t.callers|
            && InLoop(t.callers[c]) && t.callers[c].proposed == s.callers[c].proposed
    decreases |events|
  {
    if events != [] {
      ApplyKeeps(s, events[0]);
      AsksTheSame(Apply(s, events[0]), events[1..], c);
    }
  }

  /** A call for n jobs that leaves its loop leaves a count of at least n or the cpus, whichever is less: the
      count was high enough, and nothing changes; or its swap has just raised the count to exactly that, and
      what it will launch is what it added. */
  lemma CallAnswered(cpus: u16, callers: nat, before: seq<Event>, c: nat, n: nat, during: seq<Event>, spurious: bool)
    requires c < |Run(Init(cpus, callers), before).callers| && Run(Init(cpus, callers), before).callers[c] == Outside
    requires StaysIn(Apply(Run(Init(cpus, callers), before), Enforce(c, n)), during, c)
    requires var s := Run(Apply(Run(Init(cpus, callers), before), Enforce(c, n)), during);
             c < |Apply(s, CallerStep(c, spurious)).callers| && !InLoop(Apply(s, CallerStep(c, spurious)).callers[c])
    ensures var s := Run(Apply(Run(Init(cpus, callers), before), Enforce(c, n)), during); var t := Apply(s, CallerStep(c, spurious));
            && (n <= t.count || cpus <= t.count) && t.workers == s.workers
            && (|| (t.count == s.count && t.callers[c] == Outside)
                || (s.count < t.count && t.count <= n && t.count <= cpus && t.callers[c] == Launching(t.count - s.count)))
  {
    InitKeeps(cpus, callers);
    RunKeeps(Init(cpus, callers), before);
    var s0 := Run(Init(cpus, callers), before);
    var s1 := Apply(s0, Enforce(c, n));
    ApplyKeeps(s0, Enforce(c, n));
    AsksTheSame(s1, during, c);
    var s := Run(s1, during);
    assert s.callers[c].proposed == Min(n, cpus);
    SmallCount(s.count);
    assert CallerOk(s.callers[c], s.cpus);
    hide Run, StaysIn, FromU64, Lowered;
  }

  /** What a call owes it launches, one thread after another, and nothing else. */
  lemma {:induction false} OwedIsLaunched(s: State, c: nat, k: nat)
    requires c < |s.callers| && s.callers[c] == Launching(k)
    ensures var t := Run(s, seq(k + 1, _ => CallerStep(c, false)));
            t == s.(workers := s.workers + seq(k, _ => Alive), callers := s.callers[c := Outside])
    decreases k
  {
    var steps := seq(k + 1, _ => CallerStep(c, false));
    var s1 := Apply(s, CallerStep(c, false));
    if k == 0 {
      assert steps[1..] == [] && seq(k, _ => Alive) == [];
    } else {
      assert steps[1..] == seq(k, _ => CallerStep(c, false));
      OwedIsLaunched(s1, c, k - 1);
      assert s1.callers[c := Outside] == s.callers[c := Outside];
      assert s1.workers + seq(k - 1, _ => Alive) == s.workers + seq(k, _ => Alive);
    }
  }

  /** A caller that nobody disturbs leaves its loop at its second attempt at the latest, whatever it had read. */
  lemma LoopEnds(s: State, c: nat)
    requires Inv(s) && c < |s.callers| && InLoop(s.callers[c])
    ensures var t := Run(s, [CallerStep(c, false), CallerStep(c, false)]);
            && c < |t.callers| && !InLoop(t.callers[c]) && s.callers[c].proposed <= t.count
            && t.count == (if s.count < s.callers[c].proposed then s.callers[c].proposed else s.count)
  {
    var step := CallerStep(c, false);
    SmallCount(s.count);
    assert CallerOk(s.callers[c], s.cpus);
    SmallCount(s.callers[c].proposed);
    assert [step, step][1..] == [step] && [step][1..] == [];
    assert Run(s, [step, step]) == Run(Apply(s, step), [step]) == Apply(Apply(s, step), step);
    hide FromU64, Lowered;
  }

  /** Panics can take a thread for every cpu: then no worker lives, and none ever will. */
  lemma LoseEveryThread(cpus: u16, callers: nat) returns (events: seq<Event>)
    requires cpus >= 1 && callers >= 1
    ensures var s := Run(Init(cpus, callers), events); AllReturned(s) && s.count == cpus && !CanRevive(s)
  {
    var start, step := Init(cpus, callers), CallerStep(0, false);
    var call := [Enforce(0, cpus), step, step];
    var launches := seq(cpus + 1, _ => step);
    SmallCount(0);
    Run3(start, Enforce(0, cpus), step, step);
    var called := Run(start, call);
    assert called.callers[0] == Launching(cpus);
    OwedIsLaunched(called, 0, cpus);
    var launched := Run(called, launches);
    var crashes := CrashAll(launched, 0);
    RunConcat(start, call, launches);
    RunConcat(start, call + launches, crashes);
    events := call + launches + crashes;
    var s := Run(start, events);
    assert s == Run(launched, crashes);
    InitKeeps(cpus, callers);
    RunKeeps(start, events);
    SumConstant(s.workers, Lost(), 1);
    forall after ensures !SomeoneLives(Run(s, after)) { AllLostRun(s, after); }
  }

  lemma {:induction false} CrashAll(s: State, k: nat) returns (events: seq<Event>)
    requires k <= |s.workers| && (forall w :: 0 <= w < |s.workers| ==> s.workers[w] == if w < k then Crashed else Alive)
    ensures Run(s, events) == s.(workers := seq(|s.workers|, _ => Crashed))
    decreases |s.workers| - k
  {
    if k == |s.workers| {
      events := [];
      assert s.workers == seq(|s.workers|, _ => Crashed);
    } else {
      var rest := CrashAll(Apply(s, Crash(k)), k + 1);
      events := [Crash(k)] + rest;
      assert events[1..] == rest;
    }
  }

  // How the pool shrinks.

  lemma Run3(s: State, a: Event, b: Event, d: Event)
    ensures Run(s, [a, b, d]) == Apply(Apply(Apply(s, a), b), d)
  {
    assert [a, b, d][1..] == [b, d] && [b, d][1..] == [d] && [d][1..] == [];
    assert Run(Apply(s, a), [b, d]) == Run(Apply(Apply(s, a), b), [d]);
    assert Run(Apply(Apply(s, a), b), [d]) == Run(Apply(Apply(Apply(s, a), b), d), []);
  }

  /** An idle worker that nobody disturbs leaves exactly if the count is above the minimum, and the count is
      then one lower; otherwise it is back where it was. */
  lemma IdleLeaves(cpus: u16, callers: nat, before: seq<Event>, w: nat)
    requires w < |Run(Init(cpus, callers), before).workers| && Run(Init(cpus, callers), before).workers[w] == Alive
    ensures var s := Run(Init(cpus, callers), before); var t := Run(s, [Idle(w), WorkerStep(w, false), WorkerStep(w, false)]);
            t == if s.count > MIN_THREADS then s.(count := s.count - 1, workers := s.workers[w := Gone]) else s
  {
    InitKeeps(cpus, callers);
    RunKeeps(Init(cpus, callers), before);
    var s := Run(Init(cpus, callers), before);
    hide Run;
    SmallCount(s.count);
    Run3(s, Idle(w), WorkerStep(w, false), WorkerStep(w, false));
    hide FromU64;
    var s2 := Apply(Apply(s, Idle(w)), WorkerStep(w, false));
    if s.count > MIN_THREADS {
      assert s2.workers == s.workers[w := LeaveSwapping(s.count)];
      assert Apply(s2, WorkerStep(w, false)).workers == s.workers[w := Gone];
    } else {
      assert s2.workers == s.workers;
    }
  }

  /** From wherever it is, a living worker can leave a count above the minimum. */
  lemma LeaveNow(s: State, w: nat) returns (events: seq<Event>)
    requires Inv(s) && w < |s.workers| && Living()(s.workers[w]) == 1 && s.count > MIN_THREADS
    ensures var t := Run(s, events);
            && Inv(t) && t.count == s.count - 1 && t.callers == s.callers && t.cpus == s.cpus
            && t.workers == s.workers[w := Gone]
  {
    SmallCount(s.count);
    var step := WorkerStep(w, false);
    if s.workers[w] == LeaveSwapping(s.count) {
      events := [step];
      assert [step][1..] == [];
      assert Run(s, events) == Apply(s, step);
    } else if s.workers[w] == Alive {
      Run3(s, Idle(w), step, step);
      events := [Idle(w), step, step];
    } else {
      events := [step, step];
      assert [step, step][1..] == [step] && [step][1..] == [];
      assert Run(s, events) == Run(Apply(s, step), [step]) == Apply(Apply(s, step), step);
    }
    hide FromU64;
    assert Run(s, events).workers == s.workers[w := Gone];
    RunKeeps(s, events);
  }

  /** Any pool that has threads, none of them lost, and whose calls have returned can shrink to exactly one. */
  lemma {:induction false} ShrinksToOne(s: State) returns (events: seq<Event>)
    requires Inv(s) && AllReturned(s) && Sum(s.workers, Lost()) == 0 && s.count >= 1
    ensures var t := Run(s, events); Inv(t) && AllReturned(t) && t.count == 1 == Sum(t.workers, Living())
    decreases s.count
  {
    SumZero(s.callers, Owed());
    if s.count == 1 {
      events := [];
    } else {
      var w := SumWitness(s.workers, Living());
      var front := LeaveNow(s, w);
      var t := Run(s, front);
      SumUpdate(s.workers, w, Gone, Lost());
      var back := ShrinksToOne(t);
      RunConcat(s, front, back);
      events := front + back;
    }
  }

  lemma {:induction false} RunConcat(s: State, a: seq<Event>, b: seq<Event>)
    ensures Run(s, a + b) == Run(Run(s, a), b)
    decreases |a|
  {
    if a == [] {
      assert a + b == b;
    } else {
      assert (a + b)[1..] == a[1..] + b;
      RunConcat(Apply(s, a[0]), a[1..], b);
    }
  }

  // The loops themselves.

  /** What happens to the counter before one attempt, and whether the attempt fails spuriously. */
  datatype Interference = Interference(value: u64, spurious: bool)

  /** A value the counter had when the loop looked at it. */
  predicate Seen(value: u64, first: u64, script: seq<Interference>) {
    value == first || exists k :: 0 <= k < |script| && script[k].value == value
  }

  class GlobalState {
    const physicalCpus: u16
    var threadCounts: u64

    constructor (cpus: u16)
      ensures threadCounts == 0 && physicalCpus == cpus
    {
      physicalCpus, threadCounts := cpus, 0;
    }

    /** compare_exchange_weak, after whatever the other threads did. */
    method Attempt(prev: u64, next: u64, script: seq<Interference>, k: nat) returns (ok: bool, seen: u64)
      modifies this
      ensures ok ==> seen == prev && threadCounts == next
      ensures !ok ==> threadCounts == seen
      ensures k < |script| ==> seen == script[k].value
      ensures k >= |script| ==> seen == old(threadCounts) && (ok <==> old(threadCounts) == prev)
    {
      if k < |script| { threadCounts := script[k].value; }
      seen := threadCounts;
      ok := seen == prev && !(k < |script| && script[k].spurious);
      if ok { threadCounts := next; }
    }

    /** enforce_spare_thread_policy's fetch_update.  On success the counter went in one step from
        a value below the proposal to the proposal, and the result is the difference. */
    method RaiseTo(proposed: u16, script: seq<Interference>) returns (launch: Option<nat>, ghost before: u64)
      requires proposed <= physicalCpus
      modifies this
      ensures launch == None ==> FromU64(threadCounts).userWaiting >= proposed
      ensures launch != None ==>
                && FromU64(before).userWaiting < proposed
                && threadCounts == proposed && launch.value == proposed - FromU64(before).userWaiting
      ensures Seen(before, old(threadCounts), script)
      ensures script == [] ==> before == old(threadCounts)
      ensures script == [] ==> (launch == None <==> FromU64(old(threadCounts)).userWaiting >= proposed)
    {
      var prev := threadCounts;
      before := prev;
      launch := None;
      var k := 0;
      while FromU64(prev).userWaiting < proposed
        invariant threadCounts == prev == before && Seen(prev, old(threadCounts), script)
        invariant script == [] ==> prev == old(threadCounts)
        invariant k <= |script|
        decreases |script| + 1 - k
      {
        var ok, seen := Attempt(prev, ToU64(FromU64(prev).(userWaiting := proposed)), script, k);
        if ok {
          launch := Some(proposed - FromU64(prev).userWaiting);
          return;
        }
        prev, before := seen, seen;
        k := k + 1;
      }
    }

    /** update_thread_counts as an idle worker calls it: true means that the worker may leave. */
    method TryLeave(script: seq<Interference>) returns (leaves: bool, ghost before: u64)
      modifies this
      ensures leaves ==> threadCounts == Lowered(before) && threadCounts != before
      ensures leaves && before < TWO_16 ==> before > MIN_THREADS && threadCounts == before - 1
      ensures !leaves ==> Lowered(threadCounts) == threadCounts
      ensures Seen(before, old(threadCounts), script)
      ensures script == [] ==> before == old(threadCounts) && (leaves <==> Lowered(before) != before)
    {
      var prev := threadCounts;
      before := prev;
      leaves := false;
      var k := 0;
      while Lowered(prev) != prev
        invariant threadCounts == prev == before && Seen(prev, old(threadCounts), script)
        invariant script == [] ==> prev == old(threadCounts)
        invariant k <= |script|
        decreases |script| + 1 - k
      {
        var ok, seen := Attempt(prev, Lowered(prev), script, k);
        if ok { return true, prev; }
        prev, before := seen, seen;
        k := k + 1;
      }
    }
  }
}
