/** The single-threaded executor: slots that are never reused, 16-bit handles and a 16-bit count
    of unfinished tasks, and a channel of handles to poll. */
module SyncExecutor {
  import opened Counting
  import opened Words

  /** What one poll of a future does: the tasks it wakes, and whether it is ready. */
  datatype Conduct = Conduct(wakes: seq<nat>, isReady: bool)

  /** A handle is sent by a spawn or a wake; a handle received leads to a poll, or is dropped if its task is gone. */
  datatype Event = Send(task: nat) | Poll(task: nat) | Drop(task: nat)

  /** `futures(h, n)` is what the future of task h does when it is polled after n polls; `slots` says which
      tasks are still there.  Histories: `polls`, how often each task was polled (it has a waker from its first
      poll on); `log`, what was sent, polled and dropped. */
  datatype State = State(
    futures: (nat, nat) -> Conduct, slots: seq<bool>, active: nat, channel: seq<nat>, polls: seq<nat>, log: seq<Event>)

  function Empty(futures: (nat, nat) -> Conduct): State {
    State(futures, [], 0, [], [], [])
  }

  /** spawn, with 16-bit handle and count, wrapping. */
  function Spawned(s: State): State {
    var handle := |s.slots| % TWO_16;
    s.(slots := s.slots + [true], active := (s.active + 1) % TWO_16, channel := s.channel + [handle],
       polls := s.polls + [0], log := s.log + [Send(handle)])
  }

  /** Wake::wake of task h's waker, which exists once h has been polled. */
  function Woken(s: State, h: nat): State {
    if h < |s.polls| && s.polls[h] > 0 then s.(channel := s.channel + [h], log := s.log + [Send(h)]) else s
  }

  function WokenAll(s: State, wakes: seq<nat>): (r: State)
    ensures r.futures == s.futures && r.slots == s.slots && r.active == s.active && r.polls == s.polls
    decreases |wakes|
  {
    if wakes == [] then s else WokenAll(Woken(s, wakes[0]), wakes[1..])
  }

  predicate Sized(s: State) {
    |s.polls| == |s.slots|
  }

  /** Task h's poll begins. */
  function Begun(s: State, h: nat): State
    requires Sized(s) && h < |s.slots|
  {
    s.(polls := s.polls[h := s.polls[h] + 1], log := s.log + [Poll(h)])
  }

  /** A ready task leaves its slot. */
  function Left(s: State, h: nat): State
    requires h < |s.slots|
  {
    s.(active := (s.active + TWO_16 - 1) % TWO_16, slots := s.slots[h := false])
  }

  /** What polling task h does: its wakes, and its slot and the count if it is ready. */
  function Polled(s: State, h: nat): (r: State)
    requires Sized(s) && h < |s.slots|
    ensures Sized(r) && |r.slots| == |s.slots|
  {
    var conduct := s.futures(h, s.polls[h]);
    var s' := WokenAll(Begun(s, h), conduct.wakes);
    if conduct.isReady then Left(s', h) else s'
  }

  function Turn(s: State): (r: State)
    requires Sized(s)
    ensures Sized(r)
  {
    if s.channel == [] then s
    else
      var h, popped := s.channel[0], s.(channel := s.channel[1..]);
      if h < |s.slots| && s.slots[h] then Polled(popped, h) else popped.(log := s.log + [Drop(h)])
  }

  ghost function Occupied(): bool -> nat {
    (b: bool) => if b then 1 else 0
  }

  /** The handles sent, in order. */
  ghost function Sends(log: seq<Event>): seq<nat> {
    if log == [] then []
    else Sends(log[..|log| - 1]) + if log[|log| - 1].Send? then [log[|log| - 1].task] else []
  }

  /** The handles received, in order. */
  ghost function Takes(log: seq<Event>): seq<nat> {
    if log == [] then []
    else Takes(log[..|log| - 1]) + if log[|log| - 1].Send? then [] else [log[|log| - 1].task]
  }

  /** Handles and the count are right, and so are the histories. */
  ghost predicate Counted(s: State) {
    && Sized(s)
    && s.active == Sum(s.slots, Occupied()) && s.active < TWO_16
    && (forall k :: 0 <= k < |s.channel| ==> s.channel[k] < |s.slots|)
    && (forall k :: 0 <= k < |s.log| ==> s.log[k].task < |s.slots|)
    && (forall h :: 0 <= h < |s.slots| ==> s.polls[h] == multiset(s.log)[Poll(h)] && Send(h) in s.log)
  }

  /** The channel is first in, first out. */
  ghost predicate Fifo(s: State) {
    Sends(s.log) == Takes(s.log) + s.channel
  }

  ghost predicate PolledAfter(log: seq<Event>, i: nat, h: nat) {
    exists j :: i < j < |log| && log[j] == Poll(h)
  }

  /** Each handle sent for a task that is still there is in the channel, or the task was polled afterwards. */
  ghost predicate Answered(s: State) {
    forall i :: 0 <= i < |s.log| && s.log[i].Send? && s.log[i].task < |s.slots| && s.slots[s.log[i].task] ==>
      s.log[i].task in s.channel || PolledAfter(s.log, i, s.log[i].task)
  }

  /** A handle is dropped only if its task is gone. */
  ghost predicate DropsGone(s: State) {
    forall i :: 0 <= i < |s.log| && s.log[i].Drop? && s.log[i].task < |s.slots| ==> !s.slots[s.log[i].task]
  }

  /** A task is gone exactly if its latest poll was ready, and no earlier one was. */
  ghost predicate Ended(s: State) {
    && Sized(s)
    && (forall h, n :: 0 <= h < |s.slots| && 0 <= n < s.polls[h] ==>
          (s.futures(h, n).isReady <==> n == s.polls[h] - 1 && !s.slots[h]))
    && (forall h :: 0 <= h < |s.slots| && !s.slots[h] ==> s.polls[h] > 0)
  }

  /** The wakes of the poll at position i, of tasks polled by then, are sent after it. */
  ghost predicate Heard(futures: (nat, nat) -> Conduct, log: seq<Event>, i: nat)
    requires i < |log|
  {
    log[i].Poll? ==>
      forall w :: w in futures(log[i].task, multiset(log[..i])[log[i]]).wakes && Poll(w) in log[..i + 1] ==> Send(w) in log[i + 1..]
  }

  ghost predicate AllHeard(s: State, upto: nat)
    requires upto <= |s.log|
  {
    forall i :: 0 <= i < upto ==> Heard(s.futures, s.log, i)
  }

  /** What holds in the middle of a poll too. */
  ghost predicate Loose(s: State) {
    Counted(s) && Fifo(s) && Answered(s) && DropsGone(s)
  }

  ghost predicate Inv(s: State) {
    Loose(s) && Ended(s) && AllHeard(s, |s.log|)
  }

  lemma EmptyInv(futures: (nat, nat) -> Conduct)
    ensures Inv(Empty(futures))
  {
  }

  lemma LogGrows(log: seq<Event>, e: Event)
    ensures Sends(log + [e]) == Sends(log) + if e.Send? then [e.task] else []
    ensures Takes(log + [e]) == Takes(log) + if e.Send? then [] else [e.task]
  {
    assert (log + [e])[..|log|] == log;
  }

  /** A longer log still hears and answers what the shorter one did. */
  lemma HeardStays(futures: (nat, nat) -> Conduct, log: seq<Event>, log': seq<Event>, i: nat)
    requires i < |log| && log <= log' && Heard(futures, log, i)
    ensures Heard(futures, log', i)
  {
    assert log'[..i] == log[..i] && log'[..i + 1] == log[..i + 1];
    assert log'[i + 1..] == log[i + 1..] + log'[|log|..];
  }

  lemma AllHeardStays(s: State, s': State, upto: nat)
    requires upto <= |s.log| && s.log <= s'.log && s.futures == s'.futures && AllHeard(s, upto)
    ensures AllHeard(s', upto)
  {
    forall i | 0 <= i < upto ensures Heard(s'.futures, s'.log, i) { HeardStays(s.futures, s.log, s'.log, i); }
  }

  lemma PolledAfterStays(log: seq<Event>, log': seq<Event>, i: nat, h: nat)
    requires log <= log' && PolledAfter(log, i, h)
    ensures PolledAfter(log', i, h)
  {
    var j :| i < j < |log| && log[j] == Poll(h);
    assert log'[j] == Poll(h);
  }

  /** Sending one more handle. */
  lemma SendAnswered(s: State, s': State, h: nat)
    requires Answered(s) && |s.slots| <= |s'.slots| && s'.channel == s.channel + [h] && s'.log == s.log + [Send(h)]
    requires forall g :: 0 <= g < |s.slots| && s'.slots[g] ==> s.slots[g]
    requires forall k :: 0 <= k < |s.log| ==> s.log[k].task < |s.slots|
    ensures Answered(s')
  {
    forall i | 0 <= i < |s'.log| && s'.log[i].Send? && s'.log[i].task < |s'.slots| && s'.slots[s'.log[i].task]
      ensures s'.log[i].task in s'.channel || PolledAfter(s'.log, i, s'.log[i].task)
    {
      if i == |s.log| {
        assert s'.channel[|s.channel|] == h;
      } else if s.log[i].task !in s.channel {
        PolledAfterStays(s.log, s'.log, i, s.log[i].task);
      }
    }
  }

  /** Spawning keeps every promise exactly while the new handle fits in 16 bits and the count of
      unfinished tasks does too. */
  lemma SpawnRule(s: State)
    requires Inv(s)
    ensures Inv(Spawned(s)) <==> |s.slots| < TWO_16 && s.active < TWO_16 - 1
  {
    var s' := Spawned(s);
    var last := |s.slots|;
    SumAppend(s.slots, true, Occupied());
    if |s.slots| < TWO_16 && s.active < TWO_16 - 1 {
      SpawnKeeps(s);
    } else if |s.slots| >= TWO_16 {
      assert Send(last) !in s.log;
    }
  }

  lemma SpawnKeeps(s: State)
    requires Inv(s) && |s.slots| < TWO_16 && s.active < TWO_16 - 1
    ensures Inv(Spawned(s))
  {
    hide Sends, Takes, Answered, Ended, Counted, Heard, DropsGone;
    var s' := Spawned(s);
    TasksKnown(s);
    SendFifo(s, s', |s.slots|);
    SendAnswered(s, s', |s.slots|);
    SendDrops(s, s', |s.slots|);
    AllHeardSend(s, s', |s.slots|);
    SpawnCounted(s);
    SpawnEnded(s);
  }

  lemma TasksKnown(s: State)
    requires Counted(s)
    ensures Sized(s) && forall k :: 0 <= k < |s.log| ==> s.log[k].task < |s.slots|
  {
  }

  lemma SendFifo(s: State, s': State, h: nat)
    requires Fifo(s) && s'.channel == s.channel + [h] && s'.log == s.log + [Send(h)]
    ensures Fifo(s')
  {
    LogGrows(s.log, Send(h));
    hide Sends, Takes;
  }

  lemma SendDrops(s: State, s': State, h: nat)
    requires DropsGone(s) && |s.slots| <= |s'.slots| && s'.log == s.log + [Send(h)]
    requires forall g :: 0 <= g < |s.slots| ==> s'.slots[g] == s.slots[g]
    requires forall k :: 0 <= k < |s.log| ==> s.log[k].task < |s.slots|
    ensures DropsGone(s')
  {
  }

  lemma AllHeardSend(s: State, s': State, h: nat)
    requires AllHeard(s, |s.log|) && s'.log == s.log + [Send(h)] && s.futures == s'.futures
    ensures AllHeard(s', |s'.log|)
  {
    AllHeardStays(s, s', |s.log|);
    assert s'.log[|s.log|] == Send(h);
  }

  lemma SpawnCounted(s: State)
    requires Counted(s) && |s.slots| < TWO_16 && s.active < TWO_16 - 1
    ensures Counted(Spawned(s))
  {
    var s' := Spawned(s);
    SumAppend(s.slots, true, Occupied());
    assert s'.log[|s.log|] == Send(|s.slots|);
    assert Poll(|s.slots|) !in s.log;
    forall h | 0 <= h < |s'.slots| ensures s'.polls[h] == multiset(s'.log)[Poll(h)] && Send(h) in s'.log {
      if h < |s.slots| { assert Send(h) in s.log; }
    }
  }

  lemma SpawnEnded(s: State)
    requires Ended(s)
    ensures Ended(Spawned(s))
  {
  }

  /** A wake of a task that has been polled queues its handle, and no wake changes anything else. */
  lemma WokenKeeps(s: State, h: nat)
    requires Loose(s)
    ensures Loose(Woken(s, h)) && s.log <= Woken(s, h).log && s.channel <= Woken(s, h).channel
    ensures h < |s.slots| && s.polls[h] > 0 ==> h in Woken(s, h).channel && Woken(s, h).log == s.log + [Send(h)]
    ensures h >= |s.slots| || s.polls[h] == 0 ==> Woken(s, h) == s
  {
    hide Sends, Takes, Fifo, Answered, DropsGone, Counted;
    TasksKnown(s);
    var s' := Woken(s, h);
    if h < |s.slots| && s.polls[h] > 0 {
      assert s'.channel[|s.channel|] == h;
      SendFifo(s, s', h);
      SendAnswered(s, s', h);
      SendDrops(s, s', h);
      WokenCounted(s, h);
    }
  }

  lemma LooseSized(s: State)
    requires Loose(s)
    ensures Sized(s)
  {
  }

  lemma WokenCounted(s: State, h: nat)
    requires Counted(s) && h < |s.slots|
    ensures Counted(Woken(s, h))
  {
    var s' := Woken(s, h);
    forall g | 0 <= g < |s'.slots| ensures s'.polls[g] == multiset(s'.log)[Poll(g)] && Send(g) in s'.log {
      assert Send(g) in s.log;
    }
  }

  lemma {:induction false} WokenAllLoose(s: State, wakes: seq<nat>)
    requires Loose(s)
    ensures Loose(WokenAll(s, wakes))
    decreases |wakes|
  {
    if wakes != [] {
      WokenKeeps(s, wakes[0]);
      WokenAllLoose(Woken(s, wakes[0]), wakes[1..]);
    }
  }

  /** Wakes send handles and do nothing else. */
  lemma {:induction false} WokenAllSends(s: State, wakes: seq<nat>)
    ensures s.log <= WokenAll(s, wakes).log && s.channel <= WokenAll(s, wakes).channel
    ensures forall i :: |s.log| <= i < |WokenAll(s, wakes).log| ==> WokenAll(s, wakes).log[i].Send?
    decreases |wakes|
  {
    if wakes != [] { WokenAllSends(Woken(s, wakes[0]), wakes[1..]); }
  }

  /** The wakes that come from wakers. */
  ghost function Heeded(polls: seq<nat>, wakes: seq<nat>): seq<nat> {
    if wakes == [] then []
    else (if wakes[0] < |polls| && polls[wakes[0]] > 0 then [wakes[0]] else []) + Heeded(polls, wakes[1..])
  }

  /** The handles of the tasks woken are queued in the order of the wakes, each as often as it was woken. */
  lemma {:induction false} WokenInOrder(s: State, wakes: seq<nat>)
    ensures WokenAll(s, wakes).channel == s.channel + Heeded(s.polls, wakes)
    decreases |wakes|
  {
    if wakes != [] { WokenInOrder(Woken(s, wakes[0]), wakes[1..]); }
  }

  /** Of each task woken that has been polled, the handle is in the channel and newly sent. */
  lemma {:induction false} WokenAllHeeds(s: State, wakes: seq<nat>, w: nat)
    requires w in wakes && w < |s.polls| && s.polls[w] > 0
    ensures |s.log| <= |WokenAll(s, wakes).log|
    ensures w in WokenAll(s, wakes).channel && Send(w) in WokenAll(s, wakes).log[|s.log|..]
    decreases |wakes|
  {
    var next, s' := Woken(s, wakes[0]), WokenAll(s, wakes);
    WokenAllSends(next, wakes[1..]);
    if w == wakes[0] {
      assert next.channel[|s.channel|] == w && s'.channel[|s.channel|] == w;
      assert next.log[|s.log|] == Send(w) && s'.log[|s.log|..][0] == Send(w);
    } else {
      WokenAllHeeds(next, wakes[1..], w);
      InTail(s'.log, |s.log|, |next.log|, Send(w));
    }
  }

  lemma InTail(log: seq<Event>, i: nat, j: nat, e: Event)
    requires i <= j <= |log| && e in log[j..]
    ensures e in log[i..]
  {
    assert log[i..] == log[i..j] + log[j..];
  }

  /** Wakes keep the promises; of each task woken that has been polled, the handle is in the channel and newly sent. */
  lemma WokenAllKeeps(s: State, wakes: seq<nat>)
    requires Loose(s)
    ensures var s' := WokenAll(s, wakes);
            && Loose(s') && s.log <= s'.log && s.channel <= s'.channel
            && (forall i :: |s.log| <= i < |s'.log| ==> s'.log[i].Send?)
            && forall w :: w in wakes && w < |s.slots| && s.polls[w] > 0 ==> w in s'.channel && Send(w) in s'.log[|s.log|..]
  {
    LooseSized(s);
    hide Loose;
    WokenAllLoose(s, wakes);
    WokenAllSends(s, wakes);
    forall w | w in wakes && w < |s.slots| && s.polls[w] > 0
      ensures w in WokenAll(s, wakes).channel && Send(w) in WokenAll(s, wakes).log[|s.log|..]
    {
      WokenAllHeeds(s, wakes, w);
    }
  }

  /** The handle at the head of the channel is received, and polled or dropped. */
  lemma TakenKeeps(s: State, s': State, e: Event)
    requires Loose(s) && s.channel != [] && !e.Send? && e.task == s.channel[0] && s'.slots == s.slots
    requires s'.channel == s.channel[1..] && s'.log == s.log + [e] && (e.Drop? ==> e.task < |s.slots| && !s.slots[e.task])
    ensures Fifo(s') && Answered(s') && DropsGone(s')
  {
    hide Counted, PolledAfter, Sends, Takes;
    LogGrows(s.log, e);
    assert s.channel == [e.task] + s.channel[1..];
    TakenAnswered(s, s', e);
    hide Answered;
  }

  lemma TakenAnswered(s: State, s': State, e: Event)
    requires Answered(s) && s.channel != [] && !e.Send? && e.task == s.channel[0] && s'.slots == s.slots
    requires s'.channel == s.channel[1..] && s'.log == s.log + [e] && (e.Drop? ==> e.task < |s.slots| && !s.slots[e.task])
    ensures Answered(s')
  {
    hide PolledAfter;
    assert s.channel == [e.task] + s.channel[1..];
    forall i | 0 <= i < |s'.log| && s'.log[i].Send? && s'.log[i].task < |s'.slots| && s'.slots[s'.log[i].task]
      ensures s'.log[i].task in s'.channel || PolledAfter(s'.log, i, s'.log[i].task)
    {
      assert s'.log[i] == s.log[i];
      if PolledAfter(s.log, i, s.log[i].task) {
        PolledAfterStays(s.log, s'.log, i, s.log[i].task);
      } else if s.log[i].task == e.task {
        LastPoll(s.log, i, e);
      }
    }
  }

  lemma LastPoll(log: seq<Event>, i: nat, e: Event)
    requires i < |log| && e.Poll?
    ensures PolledAfter(log + [e], i, e.task)
  {
    assert (log + [e])[|log|] == e;
  }

  lemma BegunLoose(s: State, popped: State, h: nat)
    requires Inv(s) && s.channel != [] && h == s.channel[0] && h < |s.slots| && s.slots[h]
    requires popped == s.(channel := s.channel[1..])
    ensures Loose(Begun(popped, h))
  {
    hide Fifo, Answered, DropsGone, Ended, AllHeard, Counted;
    TasksKnown(s);
    BegunCounted(s, popped, h);
    TakenKeeps(s, Begun(popped, h), Poll(h));
  }

  lemma BegunCounted(s: State, popped: State, h: nat)
    requires Counted(s) && s.channel != [] && h < |s.slots| && popped == s.(channel := s.channel[1..])
    ensures Counted(Begun(popped, h))
  {
    var begun := Begun(popped, h);
    assert forall k :: 0 <= k < |begun.channel| ==> begun.channel[k] == s.channel[k + 1];
    forall g | 0 <= g < |begun.slots| ensures begun.polls[g] == multiset(begun.log)[Poll(g)] && Send(g) in begun.log {
      assert Send(g) in s.log;
    }
  }

  /** Polling a task that is still there, after its handle has left the channel. */
  lemma PolledKeeps(s: State, popped: State, h: nat)
    requires Inv(s) && s.channel != [] && h == s.channel[0] && h < |s.slots| && s.slots[h]
    requires popped == s.(channel := s.channel[1..])
    ensures Inv(Polled(popped, h))
    ensures var s', conduct := Polled(popped, h), s.futures(h, s.polls[h]);
            && s'.slots == (if conduct.isReady then s.slots[h := false] else s.slots)
            && s'.polls == s.polls[h := s.polls[h] + 1]
            && s.channel[1..] <= s'.channel && s.log + [Poll(h)] <= s'.log
            && forall w :: w in conduct.wakes && w < |s.slots| && s'.polls[w] > 0 ==> w in s'.channel && Send(w) in s'.log[|s.log| + 1..]
  {
    var begun, wakes := Begun(popped, h), s.futures(h, s.polls[h]).wakes;
    var woken := WokenAll(begun, wakes);
    BegunLoose(s, popped, h);
    WokenAllKeeps(begun, wakes);
    PollHeard(s, begun, woken, h);
    PollEnded(s, popped, h);
    hide AllHeard, Ended;
    if s.futures(h, s.polls[h]).isReady { LeaveKeeps(woken, h); }
  }

  lemma PollEnded(s: State, popped: State, h: nat)
    requires Ended(s) && h < |s.slots| && s.slots[h] && popped == s.(channel := popped.channel)
    ensures Ended(Polled(popped, h))
  {
    hide WokenAll;
  }

  lemma PollHeard(s: State, begun: State, woken: State, h: nat)
    requires AllHeard(s, |s.log|) && begun.log == s.log + [Poll(h)] <= woken.log && h < |s.polls|
    requires begun.futures == s.futures && woken.futures == s.futures && woken.polls == begun.polls && |begun.slots| == |begun.polls|
    requires s.polls[h] == multiset(s.log)[Poll(h)]
    requires forall w :: w in s.futures(h, s.polls[h]).wakes && w < |begun.slots| && begun.polls[w] > 0 ==> Send(w) in woken.log[|begun.log|..]
    requires forall g :: 0 <= g < |begun.slots| ==> begun.polls[g] == multiset(begun.log)[Poll(g)]
    requires forall k :: 0 <= k < |begun.log| ==> begun.log[k].task < |begun.slots|
    requires forall i :: |begun.log| <= i < |woken.log| ==> woken.log[i].Send?
    ensures AllHeard(woken, |woken.log|)
  {
    hide Heard;
    AllHeardStays(s, woken, |s.log|);
    PollJustHeard(s, begun, woken, h);
    forall i | |begun.log| <= i < |woken.log| ensures Heard(woken.futures, woken.log, i) { SendHeard(woken, i); }
  }

  lemma SendHeard(s: State, i: nat)
    requires i < |s.log| && s.log[i].Send?
    ensures Heard(s.futures, s.log, i)
  {
  }

  lemma PollJustHeard(s: State, begun: State, woken: State, h: nat)
    requires begun.log == s.log + [Poll(h)] <= woken.log && h < |s.polls| && |begun.slots| == |begun.polls|
    requires woken.futures == s.futures && s.polls[h] == multiset(s.log)[Poll(h)]
    requires forall w :: w in s.futures(h, s.polls[h]).wakes && w < |begun.slots| && begun.polls[w] > 0 ==> Send(w) in woken.log[|begun.log|..]
    requires forall g :: 0 <= g < |begun.slots| ==> begun.polls[g] == multiset(begun.log)[Poll(g)]
    requires forall k :: 0 <= k < |begun.log| ==> begun.log[k].task < |begun.slots|
    ensures Heard(woken.futures, woken.log, |s.log|)
  {
    var i := |s.log|;
    assert woken.log[..i] == s.log && woken.log[..i + 1] == begun.log;
    forall w | w in woken.futures(h, multiset(woken.log[..i])[Poll(h)]).wakes && Poll(w) in woken.log[..i + 1]
      ensures Send(w) in woken.log[i + 1..]
    {
      assert Poll(w) in begun.log;
      assert w < |begun.slots|;
    }
  }

  /** A ready task leaves its slot. */
  lemma LeaveKeeps(s: State, h: nat)
    requires Loose(s) && h < |s.slots| && s.slots[h]
    ensures Loose(Left(s, h))
  {
    SumUpdate(s.slots, h, false, Occupied());
    SumAtLeast(s.slots, h, Occupied());
  }

  /** A handle whose task is gone is dropped. */
  lemma DroppedKeeps(s: State)
    requires Inv(s) && s.channel != [] && s.channel[0] < |s.slots| && !s.slots[s.channel[0]]
    ensures Inv(s.(channel := s.channel[1..], log := s.log + [Drop(s.channel[0])]))
  {
    hide Fifo, Answered, DropsGone, Ended, Heard, Counted;
    var s' := s.(channel := s.channel[1..], log := s.log + [Drop(s.channel[0])]);
    TakenKeeps(s, s', Drop(s.channel[0]));
    AllHeardStays(s, s', |s.log|);
    assert s'.log[|s.log|].Drop?;
    DropHeard(s', |s.log|);
    DropCounted(s);
    DropEnded(s, s');
  }

  lemma DropHeard(s: State, i: nat)
    requires i < |s.log| && s.log[i].Drop?
    ensures Heard(s.futures, s.log, i)
  {
  }

  lemma DropEnded(s: State, s': State)
    requires Ended(s) && s'.futures == s.futures && s'.slots == s.slots && s'.polls == s.polls
    ensures Ended(s')
  {
  }

  lemma DropCounted(s: State)
    requires Counted(s) && s.channel != []
    ensures Counted(s.(channel := s.channel[1..], log := s.log + [Drop(s.channel[0])]))
  {
    var s' := s.(channel := s.channel[1..], log := s.log + [Drop(s.channel[0])]);
    forall h | 0 <= h < |s'.slots| ensures s'.polls[h] == multiset(s'.log)[Poll(h)] && Send(h) in s'.log {
      assert Send(h) in s.log;
    }
  }

  lemma NoneActive(s: State)
    requires Counted(s)
    ensures s.active == 0 <==> forall h :: 0 <= h < |s.slots| ==> !s.slots[h]
  {
    if s.active == 0 {
      forall h | 0 <= h < |s.slots| ensures !s.slots[h] { SumAtLeast(s.slots, h, Occupied()); }
    }
    if forall h :: 0 <= h < |s.slots| ==> !s.slots[h] {
      SumZero(s.slots, Occupied());
    }
  }

  /** Each handle sent for a task that is still there is in the channel or led to a poll of it, one for one; a
      task that is gone was polled at most as often. */
  lemma SendsArePolls(s: State, h: nat)
    requires Inv(s) && h < |s.slots|
    ensures s.slots[h] ==> multiset(s.log)[Send(h)] == s.polls[h] + multiset(s.channel)[h]
    ensures multiset(s.log)[Send(h)] >= s.polls[h] + multiset(s.channel)[h]
  {
    SendsCounted(s.log, h);
    if multiset(s.log)[Drop(h)] > 0 {
      var i :| 0 <= i < |s.log| && s.log[i] == Drop(h);
    }
  }

  lemma {:induction false} SendsCounted(log: seq<Event>, h: nat)
    ensures multiset(Sends(log))[h] == multiset(log)[Send(h)]
    ensures multiset(Takes(log))[h] == multiset(log)[Poll(h)] + multiset(log)[Drop(h)]
  {
    if log != [] {
      var init, last := log[..|log| - 1], log[|log| - 1];
      assert log == init + [last];
      LogGrows(init, last);
      hide Sends, Takes;
      SendsCounted(init, h);
    }
  }

  /** With the channel empty, a task that is still there has been polled after each of its handles was sent, and
      after each poll, of whatever task, that woke it once it had a waker. */
  lemma WokenIsPolled(s: State, i: nat, h: nat)
    requires Inv(s) && s.channel == [] && i < |s.log| && h < |s.slots| && s.slots[h]
    ensures s.log[i] == Send(h) ==> PolledAfter(s.log, i, h)
    ensures s.log[i].Poll? && h in s.futures(s.log[i].task, multiset(s.log[..i])[s.log[i]]).wakes && Poll(h) in s.log[..i + 1] ==>
              PolledAfter(s.log, i, h)
  {
    if s.log[i].Poll? && h in s.futures(s.log[i].task, multiset(s.log[..i])[s.log[i]]).wakes && Poll(h) in s.log[..i + 1] {
      assert Heard(s.futures, s.log, i);
      var k :| 0 <= k < |s.log[i + 1..]| && s.log[i + 1..][k] == Send(h);
      assert s.log[i + 1 + k] == Send(h);
      var j :| i + 1 + k < j < |s.log| && s.log[j] == Poll(h);
    }
  }

  // Whole lives of an executor, however many tasks are spawned.

  /** What can happen to an executor: a spawn, wakes from anywhere, one wakeup of its loop. */
  datatype Op = Spawn | Wakes(handles: seq<nat>) | Wakeup

  function Do(s: State, op: Op): (r: State)
    requires Sized(s)
    ensures Sized(r)
  {
    match op
    case Spawn => Spawned(s)
    case Wakes(handles) => WokenAll(s, handles)
    case Wakeup => Turn(s)
  }

  function DoAll(s: State, ops: seq<Op>): (r: State)
    requires Sized(s)
    ensures Sized(r)
    decreases |ops|
  {
    if ops == [] then s else DoAll(Do(s, ops[0]), ops[1..])
  }

  ghost function Spawns(): Op -> nat {
    (op: Op) => if op.Spawn? then 1 else 0
  }

  lemma DoKeeps(s: State, op: Op)
    requires Inv(s) && (op.Spawn? ==> |s.slots| < TWO_16 - 1)
    ensures Inv(Do(s, op)) && Do(s, op).futures == s.futures && |Do(s, op).slots| == |s.slots| + Spawns()(op)
  {
    match op
    case Spawn =>
      SumAtMost(s.slots);
      SpawnKeeps(s);
    case Wakes(handles) => WakesKeep(s, handles);
    case Wakeup => TurnKeeps(s);
  }

  lemma {:induction false} SumAtMost(slots: seq<bool>)
    ensures Sum(slots, Occupied()) <= |slots|
  {
    if slots != [] { SumAtMost(slots[1..]); }
  }

  lemma WakesKeep(s: State, wakes: seq<nat>)
    requires Inv(s)
    ensures Inv(WokenAll(s, wakes))
  {
    hide Loose, WokenAll;
    WokenAllKeeps(s, wakes);
    AllHeardStays(s, WokenAll(s, wakes), |s.log|);
  }

  /** Handle h is received from the head of the channel: a task that is still there is polled, and leaves its slot
      exactly if it is ready; a handle whose task is gone is dropped. */
  ghost predicate ReceivedOne(s: State, s': State, h: nat)
    requires Sized(s) && h < |s.slots|
  {
    && s.channel != [] && h == s.channel[0] && Takes(s'.log) == Takes(s.log) + [h]
    && if s.slots[h] then
         && s'.polls == s.polls[h := s.polls[h] + 1]
         && s'.slots == (if s.futures(h, s.polls[h]).isReady then s.slots[h := false] else s.slots)
         && s.channel[1..] <= s'.channel && s.log + [Poll(h)] <= s'.log
       else s' == s.(channel := s.channel[1..], log := s.log + [Drop(h)])
  }

  lemma TurnKeeps(s: State)
    requires Inv(s)
    ensures Inv(Turn(s)) && Turn(s).futures == s.futures && |Turn(s).slots| == |s.slots| == |s.polls| && s.log <= Turn(s).log
    ensures s.channel == [] ==> Turn(s) == s
    ensures s.channel != [] ==> s.channel[0] < |s.slots| && ReceivedOne(s, Turn(s), s.channel[0])
  {
    if s.channel != [] {
      if s.slots[s.channel[0]] { TurnPolls(s, s.channel[0]); } else { TurnDrops(s, s.channel[0]); }
    }
  }

  lemma TurnTakes(s: State)
    requires Sized(s) && s.channel != [] && s.channel[0] < |s.slots|
    ensures var h, popped := s.channel[0], s.(channel := s.channel[1..]);
            Turn(s) == if s.slots[h] then Polled(popped, h) else popped.(log := s.log + [Drop(h)])
  {
  }

  lemma TurnPolls(s: State, h: nat)
    requires Inv(s) && s.channel != [] && s.channel[0] == h && h < |s.slots| && s.slots[h]
    ensures Inv(Turn(s)) && Turn(s).futures == s.futures && s.log <= Turn(s).log && ReceivedOne(s, Turn(s), h)
  {
    var popped := s.(channel := s.channel[1..]);
    NoneLeft(s);
    TurnTakes(s);
    PolledKeeps(s, popped, h);
    PolledTakes(popped, h);
    hide Inv, Takes, Polled, Turn;
    PollReceived(s, Turn(s), h);
  }

  lemma PollReceived(s: State, s': State, h: nat)
    requires Sized(s) && h < |s.slots| && s.slots[h] && s.channel != [] && h == s.channel[0]
    requires Takes(s'.log) == Takes(s.log) + [h] && s.log + [Poll(h)] <= s'.log && s.channel[1..] <= s'.channel
    requires s'.polls == s.polls[h := s.polls[h] + 1]
    requires s'.slots == if s.futures(h, s.polls[h]).isReady then s.slots[h := false] else s.slots
    ensures ReceivedOne(s, s', h) && s.log <= s'.log
  {
    hide Takes;
    Extends(s.log, Poll(h), s'.log);
  }

  lemma Extends(log: seq<Event>, e: Event, log': seq<Event>)
    requires log + [e] <= log'
    ensures log <= log'
  {
  }

  lemma PolledTakes(s: State, h: nat)
    requires Sized(s) && h < |s.slots|
    ensures Takes(Polled(s, h).log) == Takes(s.log) + [h] && Polled(s, h).futures == s.futures
  {
    var begun, wakes := Begun(s, h), s.futures(h, s.polls[h]).wakes;
    LogGrows(s.log, Poll(h));
    hide Takes;
    WokenAllSends(begun, wakes);
    hide WokenAll;
    SendsTakeNone(begun.log, WokenAll(begun, wakes).log);
  }

  lemma TurnDrops(s: State, h: nat)
    requires Inv(s) && s.channel != [] && s.channel[0] == h && h < |s.slots| && !s.slots[h]
    ensures Inv(Turn(s)) && s.log <= Turn(s).log && ReceivedOne(s, Turn(s), h)
  {
    DroppedKeeps(s);
    LogGrows(s.log, Drop(h));
    hide Inv, Takes;
  }

  lemma {:induction false} SendsTakeNone(log: seq<Event>, log': seq<Event>)
    requires log <= log' && forall i :: |log| <= i < |log'| ==> log'[i].Send?
    ensures Takes(log') == Takes(log)
    decreases |log'|
  {
    if log != log' {
      SendsTakeNone(log, log'[..|log'| - 1]);
    }
  }

  lemma {:induction false} LifeKeeps(s: State, ops: seq<Op>)
    requires Inv(s) && |s.slots| + Sum(ops, Spawns()) < TWO_16
    ensures Inv(DoAll(s, ops)) && DoAll(s, ops).futures == s.futures && |DoAll(s, ops).slots| == |s.slots| + Sum(ops, Spawns())
    decreases |ops|
  {
    if ops != [] {
      DoKeeps(s, ops[0]);
      LifeKeeps(Do(s, ops[0]), ops[1..]);
    }
  }

  /** In every life with fewer than 65536 spawns, whatever the futures do and whoever wakes them: a task is gone
      exactly if its latest poll was ready, no task is polled after that, and when the channel is empty each
      task that is still there has been polled exactly once for its spawn and for each of its wakes. */
  lemma LifeRule(futures: (nat, nat) -> Conduct, ops: seq<Op>, h: nat)
    requires h < Sum(ops, Spawns()) < TWO_16
    ensures var s := DoAll(Empty(futures), ops);
            && |s.slots| == Sum(ops, Spawns())
            && (forall n: nat :: n + 1 < s.polls[h] ==> !futures(h, n).isReady)
            && (!s.slots[h] <==> s.polls[h] > 0 && futures(h, s.polls[h] - 1).isReady)
            && (s.channel == [] ==> s.polls[h] > 0)
            && (s.channel == [] && s.slots[h] ==> s.polls[h] == multiset(s.log)[Send(h)])
  {
    EmptyInv(futures);
    LifeKeeps(Empty(futures), ops);
    var s := DoAll(Empty(futures), ops);
    SendsArePolls(s, h);
    if s.slots[h] && s.polls[h] > 0 { assert !s.futures(h, s.polls[h] - 1).isReady; }
  }

  /** Handles are 16 bits wide: no task past the 65536th slot is ever polled, and every task up to there has
      been polled or has its handle in the channel. */
  ghost predicate Reach(s: State) {
    && Sized(s)
    && (forall k :: 0 <= k < |s.channel| ==> s.channel[k] < TWO_16)
    && (forall h :: 0 <= h < |s.slots| && s.polls[h] == 0 ==> s.slots[h])
    && (forall h :: TWO_16 <= h < |s.slots| ==> s.polls[h] == 0)
    && (forall h :: 0 <= h < |s.slots| && h < TWO_16 && s.polls[h] == 0 ==> h in s.channel)
  }

  lemma SpawnReaches(s: State)
    requires Reach(s)
    ensures Reach(Spawned(s))
  {
    var s' := Spawned(s);
    assert s'.channel[|s.channel|] == |s.slots| % TWO_16;
    forall h | 0 <= h < |s'.slots| && h < TWO_16 && s'.polls[h] == 0 ensures h in s'.channel {
      if h < |s.slots| { assert h in s.channel; }
    }
  }

  lemma {:induction false} WakesReach(s: State, wakes: seq<nat>)
    requires Reach(s)
    ensures Reach(WokenAll(s, wakes))
    decreases |wakes|
  {
    if wakes != [] {
      var s' := Woken(s, wakes[0]);
      forall h | 0 <= h < |s'.slots| && h < TWO_16 && s'.polls[h] == 0 ensures h in s'.channel { assert h in s.channel; }
      WakesReach(s', wakes[1..]);
    }
  }

  lemma TurnReaches(s: State)
    requires Reach(s)
    ensures Reach(Turn(s))
  {
    if s.channel != [] {
      var h, popped := s.channel[0], s.(channel := s.channel[1..]);
      assert s.channel == [h] + popped.channel;
      if h < |s.slots| && s.slots[h] {
        BegunReaches(s, popped, h);
        WakesReach(Begun(popped, h), s.futures(h, s.polls[h]).wakes);
      }
    }
  }

  lemma BegunReaches(s: State, popped: State, h: nat)
    requires Reach(s) && h < |s.slots| && popped == s.(channel := popped.channel) && s.channel == [h] + popped.channel
    ensures Reach(Begun(popped, h))
  {
    assert h == s.channel[0];
    var begun := Begun(popped, h);
    assert forall k :: 0 <= k < |popped.channel| ==> popped.channel[k] == s.channel[k + 1];
    forall g | 0 <= g < |s.slots| && g < TWO_16 && begun.polls[g] == 0 ensures g in popped.channel { assert g in s.channel; }
  }

  lemma {:induction false} OpsReach(s: State, ops: seq<Op>)
    requires Reach(s)
    ensures Reach(DoAll(s, ops))
    decreases |ops|
  {
    if ops != [] {
      match ops[0] {
        case Spawn => SpawnReaches(s);
        case Wakes(handles) => WakesReach(s, handles);
        case Wakeup => TurnReaches(s);
      }
      OpsReach(Do(s, ops[0]), ops[1..]);
    }
  }

  /** In every life of an executor that has emptied its channel, every task spawned has been polled exactly if
      there were at most 65536 of them; those after never are. */
  lemma AllPolledRule(futures: (nat, nat) -> Conduct, ops: seq<Op>)
    requires DoAll(Empty(futures), ops).channel == []
    ensures var s := DoAll(Empty(futures), ops);
            && ((forall h :: 0 <= h < |s.slots| ==> s.polls[h] > 0) <==> |s.slots| <= TWO_16)
            && forall h :: TWO_16 <= h < |s.slots| ==> s.polls[h] == 0
  {
    OpsReach(Empty(futures), ops);
    var s := DoAll(Empty(futures), ops);
    if |s.slots| > TWO_16 { assert s.polls[TWO_16] == 0; }
  }

  /** Task w was polled among the first n receives. */
  ghost predicate PolledBy(log: seq<Event>, n: nat, w: nat) {
    exists i :: 0 <= i < |log| && log[i] == Poll(w) && |Takes(log[..i + 1])| <= n
  }

  /** Task w's handle was sent after the first n receives and before the next. */
  ghost predicate SentAfter(log: seq<Event>, n: nat, w: nat) {
    exists j :: 0 <= j < |log| && log[j] == Send(w) && |Takes(log[..j])| == n
  }

  /** The wakes of each round, of tasks that had wakers by then, were sent before the round's receive; `base`
      receives came before the rounds. */
  ghost predicate WakesSent(rounds: seq<seq<nat>>, base: nat, log: seq<Event>) {
    forall k, w :: 0 <= k < |rounds| && w in rounds[k] && PolledBy(log, base + k, w) ==> SentAfter(log, base + k, w)
  }

  lemma {:induction false} TakesGrow(log: seq<Event>, i: nat)
    requires i <= |log|
    ensures Takes(log[..i]) <= Takes(log)
    decreases |log|
  {
    if i < |log| {
      assert log[..|log| - 1][..i] == log[..i];
      TakesGrow(log[..|log| - 1], i);
    } else {
      assert log[..i] == log;
    }
  }

  lemma SentSoon(log: seq<Event>, mid: seq<Event>, log': seq<Event>, w: nat)
    requires log <= mid <= log' && Takes(mid) == Takes(log) && Send(w) in mid[|log|..]
    ensures SentAfter(log', |Takes(log)|, w)
  {
    hide Takes;
    var j :| 0 <= j < |mid[|log|..]| && mid[|log|..][j] == Send(w);
    var at := |log| + j;
    assert log'[at] == Send(w) && log'[..at] == mid[..at] && mid[..at][..|log|] == log;
    TakesGrow(mid[..at], |log|);
    TakesGrow(mid, at);
  }

  lemma SentStays(log: seq<Event>, log': seq<Event>, n: nat, w: nat)
    requires log <= log' && SentAfter(log, n, w)
    ensures SentAfter(log', n, w)
  {
    var j :| 0 <= j < |log| && log[j] == Send(w) && |Takes(log[..j])| == n;
    assert log'[j] == Send(w) && log'[..j] == log[..j];
  }

  /** What is polled among the receives already made is in the log already. */
  lemma PolledBefore(log: seq<Event>, log': seq<Event>, n: nat, w: nat)
    requires log <= log' && n <= |Takes(log)| && PolledBy(log', n, w)
    ensures PolledBy(log, n, w) && Poll(w) in log
  {
    hide Takes;
    var i :| 0 <= i < |log'| && log'[i] == Poll(w) && |Takes(log'[..i + 1])| <= n;
    if i >= |log| {
      PolledLater(log, log', i, w);
    } else {
      assert log'[..i + 1] == log[..i + 1];
    }
  }

  lemma PolledLater(log: seq<Event>, log': seq<Event>, i: nat, w: nat)
    requires log <= log' && |log| <= i < |log'| && log'[i] == Poll(w)
    ensures |Takes(log'[..i + 1])| > |Takes(log)|
  {
    var init := log'[..i];
    assert log'[..i + 1] == init + [Poll(w)];
    LogGrows(init, Poll(w));
    TakesGrow(init, |log|);
    assert init[..|log|] == log;
  }

  lemma NothingSent(base: nat, log: seq<Event>)
    ensures WakesSent([], base, log)
  {
  }

  lemma RoundSent(rounds: seq<seq<nat>>, wakes: seq<nat>, base: nat, log: seq<Event>, log': seq<Event>)
    requires log <= log' && WakesSent(rounds, base, log) && |Takes(log)| == base + |rounds|
    requires forall w :: w in wakes && Poll(w) in log ==> SentAfter(log', base + |rounds|, w)
    ensures WakesSent(rounds, base, log') && WakesSent(rounds + [wakes], base, log')
  {
    hide PolledBy, SentAfter;
    var all := rounds + [wakes];
    forall k, w | 0 <= k < |all| && w in all[k] && PolledBy(log', base + k, w) ensures SentAfter(log', base + k, w) {
      PolledBefore(log, log', base + k, w);
      if k < |rounds| {
        assert w in rounds[k];
        SentStays(log, log', base + k, w);
      }
    }
    assert forall k :: 0 <= k < |rounds| ==> all[k] == rounds[k];
  }

  /** Each task that is still there has been polled after each of its handles was sent. */
  ghost predicate AllAnswered(s: State) {
    forall i :: 0 <= i < |s.log| && s.log[i].Send? && s.log[i].task < |s.slots| && s.slots[s.log[i].task] ==>
      PolledAfter(s.log, i, s.log[i].task)
  }

  lemma RestAnswers(s: State)
    requires Inv(s) && s.channel == []
    ensures AllAnswered(s)
  {
  }

  lemma PolledHaveWakers(s: State)
    requires Inv(s)
    ensures |s.polls| == |s.slots| && forall w: nat :: Poll(w) in s.log ==> w < |s.polls| && s.polls[w] > 0
  {
  }

  lemma NoneLeft(s: State)
    requires Inv(s)
    ensures Sized(s) && (s.active == 0 <==> forall h :: 0 <= h < |s.slots| ==> !s.slots[h])
  {
    NoneActive(s);
  }

  /** How a drain goes: all tasks have finished, or it waits in recv, or it has more to receive. */
  datatype Ending = Returned | Blocked | Running

  class Executor {
    // What the futures spawned do.
    const futures: (nat, nat) -> Conduct
    var tasks: seq<bool>
    var numActive: nat
    var channel: seq<nat>
    var polls: seq<nat>
    var log: seq<Event>
    // Whether the executor, and with it the receiving end of the channel, is gone.
    var dropped: bool

    function View(): State reads this {
      State(futures, tasks, numActive, channel, polls, log)
    }

    ghost predicate Valid() reads this { Inv(View()) }

    constructor (futures: (nat, nat) -> Conduct)
      ensures View() == Empty(futures) && Valid() && !dropped
    {
      this.futures := futures;
      dropped := false;
      tasks, numActive, channel, polls, log := [], 0, [], [], [];
      new;
      EmptyInv(futures);
    }

    method Become(s: State)
      requires s.futures == futures
      modifies this
      ensures View() == s && dropped == old(dropped)
    {
      tasks, numActive, channel, polls, log := s.slots, s.active, s.channel, s.polls, s.log;
    }

    method Spawn()
      requires Valid() && !dropped
      modifies this
      ensures !dropped && View() == Spawned(old(View()))
      ensures Valid() <==> old(|tasks|) < TWO_16 && old(numActive) < TWO_16 - 1
    {
      hide Inv;
      SpawnRule(View());
      var handle := |tasks| % TWO_16;
      tasks := tasks + [true];
      numActive := (numActive + 1) % TWO_16;
      channel := channel + [handle];
      polls, log := polls + [0], log + [Send(handle)];
    }

    /** Wake::wake of a waker that task h was polled with.  The waker may outlive the executor: then, and
        only then, the unwrapped send panics. */
    method Wake(h: nat) returns (panics: bool)
      requires Valid() && h < |polls| && polls[h] > 0
      modifies this
      ensures Valid() && dropped == old(dropped) && (panics <==> dropped)
      ensures panics ==> View() == old(View())
      ensures !panics ==> channel == old(channel) + [h] && log == old(log) + [Send(h)] && View() == Woken(old(View()), h)
    {
      hide Inv;
      if dropped { return true; }
      WakesKeep(View(), [h]);
      assert WokenAll(View(), [h]) == Woken(View(), h);
      channel := channel + [h];
      log := log + [Send(h)];
      return false;
    }

    /** Wakers are called from anywhere. */
    method WakeAll(wakes: seq<nat>)
      requires Valid() && !dropped
      modifies this
      ensures dropped == old(dropped) && Valid() && View() == WokenAll(old(View()), wakes)
      ensures channel == old(channel) + Heeded(old(polls), wakes)
      ensures old(log) <= log && Takes(log) == Takes(old(log)) && tasks == old(tasks) && polls == old(polls) && |polls| == |tasks|
      ensures forall w :: w in wakes && w < |polls| && polls[w] > 0 ==> w in channel && Send(w) in log[|old(log)|..]
    {
      WakesKeep(View(), wakes);
      WokenAllKeeps(View(), wakes);
      WokenInOrder(View(), wakes);
      SendsTakeNone(log, WokenAll(View(), wakes).log);
      hide Inv, WokenAll, Takes;
      Become(WokenAll(View(), wakes));
    }

    /** Task::poll, and what do_a_wakeup does with its result. */
    method PollTask(h: nat)
      requires Sized(View()) && h < |tasks|
      modifies this
      ensures dropped == old(dropped) && View() == Polled(old(View()), h)
    {
      var conduct := futures(h, polls[h]);
      polls, log := polls[h := polls[h] + 1], log + [Poll(h)];
      Become(WokenAll(View(), conduct.wakes));
      if conduct.isReady {
        numActive := (numActive + TWO_16 - 1) % TWO_16;
        tasks := tasks[h := false];
      }
    }

    /** do_a_wakeup on the handle at the head of the channel: only a task that has not finished is polled, and it
        leaves its slot exactly when it is ready. */
    method DoAWakeup()
      requires Valid() && channel != []
      modifies this
      ensures dropped == old(dropped) && Valid() && View() == Turn(old(View()))
      ensures |tasks| == old(|tasks|) && old(log) <= log
      ensures old(channel[0]) < old(|tasks|) && ReceivedOne(old(View()), View(), old(channel[0]))
    {
      var h := channel[0];
      ghost var was := View();
      TurnKeeps(was);
      TurnTakes(was);
      hide Inv, Turn, Polled, ReceivedOne;
      channel := channel[1..];
      if tasks[h] { PollTask(h); } else { log := log + [Drop(h)]; }
    }

    /** One pass of either loop: wakes that come until the receive, and the receive, if there is anything. */
    method Pass(wakes: seq<nat>) returns (received: bool)
      requires Valid() && !dropped
      modifies this
      ensures Valid() && !dropped && old(log) <= log && |tasks| == old(|tasks|)
      ensures forall w :: w in wakes && Poll(w) in old(log) ==> SentAfter(log, |Takes(old(log))|, w)
      ensures if received then |Takes(log)| == |Takes(old(log))| + 1
              else channel == [] && tasks == old(tasks) && Takes(log) == Takes(old(log))
    {
      PolledHaveWakers(View());
      hide Inv, Turn, WokenAll, Takes, SentAfter;
      WakeAll(wakes);
      received := channel != [];
      ghost var sent := log;
      if received { DoAWakeup(); }
      forall w | w in wakes && Poll(w) in old(log) ensures SentAfter(log, |Takes(old(log))|, w) {
        SentSoon(old(log), sent, log, w);
      }
    }

    /** do_some, for as many receives as rounds are given, each after the wakes that come before it.  It returns
        when a receive finds the channel empty.  Every wake is sent, each receive takes one handle, and then each
        task that is still there has been polled after its latest wake. */
    method DoSome(rounds: seq<seq<nat>>) returns (returned: bool, received: nat)
      requires Valid() && !dropped
      modifies this
      ensures !dropped && Valid() && |tasks| == old(|tasks|) && old(log) <= log
      ensures received <= |rounds| && |Takes(log)| == |Takes(old(log))| + received
      ensures WakesSent(rounds[..received], |Takes(old(log))|, log)
      ensures if returned then channel == [] else received == |rounds|
      ensures returned ==> AllAnswered(View())
    {
      hide Inv, Takes, WakesSent;
      received, returned := 0, false;
      NoneLeft(View());
      NothingSent(|Takes(log)|, log);
      while received < |rounds|
        invariant received <= |rounds| && Valid() && !dropped && |tasks| == old(|tasks|) && old(log) <= log
        invariant |Takes(log)| == |Takes(old(log))| + received
        invariant WakesSent(rounds[..received], |Takes(old(log))|, log)
      {
        ghost var before := log;
        var more := Pass(rounds[received]);
        assert rounds[..received + 1] == rounds[..received] + [rounds[received]];
        RoundSent(rounds[..received], rounds[received], |Takes(old(log))|, before, log);
        if !more {
          RestAnswers(View());
          returned := true;
          return;
        }
        received := received + 1;
      }
    }

    /** drain, for as many receives as rounds are given.  It returns exactly when every task has finished, and so
        consumes the executor; it blocks when it finds the channel empty, and then no task that is still there
        has been woken without a later poll. */
    method Drain(rounds: seq<seq<nat>>) returns (ending: Ending, received: nat)
      requires Valid() && !dropped
      modifies this
      ensures Valid() && |tasks| == old(|tasks|) && old(log) <= log && (dropped <==> ending == Returned)
      ensures received <= |rounds| && |Takes(log)| == |Takes(old(log))| + received
      ensures WakesSent(rounds[..received], |Takes(old(log))|, log)
      ensures ending == Returned <==> forall h :: 0 <= h < |tasks| ==> !tasks[h]
      ensures ending == Blocked ==> channel == [] && AllAnswered(View())
      ensures ending == Running ==> received == |rounds|
    {
      hide Inv, Takes, WakesSent;
      received := 0;
      NothingSent(|Takes(log)|, log);
      NoneLeft(View());
      if numActive == 0 {
        dropped := true;
        return Returned, 0;
      }
      while received < |rounds|
        invariant received <= |rounds| && Valid() && !dropped && |tasks| == old(|tasks|) && old(log) <= log
        invariant |Takes(log)| == |Takes(old(log))| + received
        invariant WakesSent(rounds[..received], |Takes(old(log))|, log)
        invariant exists h :: 0 <= h < |tasks| && tasks[h]
      {
        ghost var before := log;
        var more := Pass(rounds[received]);
        assert rounds[..received + 1] == rounds[..received] + [rounds[received]];
        RoundSent(rounds[..received], rounds[received], |Takes(old(log))|, before, log);
        NoneLeft(View());
        if !more {
          RestAnswers(View());
          return Blocked, received;
        }
        received := received + 1;
        if numActive == 0 {
          dropped := true;
          return Returned, received;
        }
      }
      return Running, received;
    }
  }
}
