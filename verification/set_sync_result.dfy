/** set_sync from its arguments to its result. */
module SetSyncResult {
  import opened Counting
  import opened Words
  import opened Channel
  import CS = ChannelSafety
  import opened SetSync
  import opened SetSyncSafety
  import opened SetSyncProgress
  import opened SetSyncTheorems
  import opened SetSyncCapacity
  import opened Planner

  const QUEUE_BOUND: nat := 1_000_000

  lemma {:induction false} LoadsOfPlan<O>(c: Work<O>, cpus: nat, senders: nat, j: nat)
    requires Contiguous(c.chunks, c.len) && j <= |c.chunks|
    requires Bounded(c, Launch(c, cpus, senders, QUEUE_BOUND))
    ensures TotalFrom(Loads(c, Launch(c, cpus, senders, QUEUE_BOUND)), j) ==
              20 * (|c.chunks| - j) + c.len - (if j < |c.chunks| then c.chunks[j].base else c.len)
    decreases |c.chunks| - j
  {
    if j < |c.chunks| {
      LoadsOfPlan(c, cpus, senders, j + 1);
    }
  }

  /** The work at the start, in terms of the arguments. */
  lemma MeasureOfPlan<O>(c: Work<O>, cpus: nat, senders: nat)
    requires Contiguous(c.chunks, c.len)
    ensures Bounded(c, Launch(c, cpus, senders, QUEUE_BOUND))
    ensures Measure(c, Launch(c, cpus, senders, QUEUE_BOUND)) == 26 * |c.chunks| + c.len + 13 * cpus + 6
  {
    var s := Launch(c, cpus, senders, QUEUE_BOUND);
    assert Bounded(c, s);
    LoadsOfPlan(c, cpus, senders, 0);
    TotalFromZero(Ranks(c, s), 0);
  }

  /** From the arguments of set_sync, on a machine with a cpu whose pool has no thread yet: when the
      planner accepts its arguments, the output is the sequential map, under every schedule, with
      other tasks coming and going on both levels and threads starting and leaving; the steps are
      linear in the length, the jobs, the cpus and what comes from outside; a system that has come to
      rest has produced the whole output, unless the queue was full, which it is not while the jobs and
      what the others send to their level fit in it, or foreign panics took every thread. */
  lemma SetSyncResult<O>(f: nat -> O, len: usize, strategy: Strategy, cpus: u16, checked: bool,
                         senders: nat, events: seq<Event>)
    requires len > 0 && cpus >= 1
    requires Asked(strategy, cpus) % TWO_32 > 0 && (checked ==> Asked(strategy, cpus) < TWO_32)
    ensures Asked(strategy, cpus) == if strategy.Jobs? then strategy.jobs else strategy.jobs * cpus
    ensures var jobs := Min(Asked(strategy, cpus) % TWO_32, len);
            var c := Work.Work(f, Plans(len, jobs), len);
            var start := Launch(c, cpus, senders, QUEUE_BOUND);
            var end := RunEvents(c, start, events);
            && Effective(c, start, events) <= 26 * jobs + len + 13 * cpus + 6 + Costs(events, cpus)
            && (jobs + Burden(events) <= QUEUE_BOUND ==> !SpawnPanics(end))
            && (Settled(c, end) && !SpawnPanics(end) && (NoPanic(events) || !Deserted(end)) ==> end.poller.Finished?)
            && (end.poller.Finished? ==>
                  |end.poller.output| == len && forall x :: 0 <= x < len ==> end.poller.output[x] == Some(f(x)) && end.writes[x] == 1)
  {
    hide Inv, CS.Inv, Settled, NoPanic, Deserted, Effective, Costs, Measure, RunEvents, SpawnPanics, Burden;
    var jobs := Min(Asked(strategy, cpus) % TWO_32, len);
    var c := Work.Work(f, Plans(len, jobs), len);
    PlansPartition(len, jobs);
    MeasureOfPlan(c, cpus, senders);
    SetSyncIsMap(c, cpus, senders, QUEUE_BOUND, events);
    if jobs + Burden(events) <= QUEUE_BOUND { FittingSpawns(c, cpus, senders, QUEUE_BOUND, events); }
  }
}
