/** The planner that cuts [0, len) into jobs, and the loop a job runs. */
module Planner {
  import opened Counting
  import opened Words
  import opened SetSync
  import opened SetSyncSafety

  datatype Strategy = Jobs(jobs: u32) | JobsPerCore(jobs: u32)

  datatype PlanFault = MultiplyOverflow | DivideByZero

  /** The number of jobs asked for.  A build with overflow checks panics when the product does
      not fit (None); one without wraps. */
  function Proposed(strategy: Strategy, cpus: u16, checked: bool): Option<u32> {
    match strategy
    case Jobs(n) => Some(n)
    case JobsPerCore(n) =>
      if n * cpus < TWO_32 then Some(n * cpus)
      else if checked then None
      else Some((n * cpus) % TWO_32)
  }

  function TargetJobs(proposed: u32, len: usize): u32 {
    if proposed >= len then len % TWO_32 else proposed
  }

  /** Where the i-th of n chunks starts. */
  function Start(len: nat, n: nat, i: nat): nat
    requires n > 0
  {
    i * (len / n) + Min(i, len % n)
  }

  lemma StartStep(len: nat, n: nat, i: nat)
    requires n > 0
    ensures Start(len, n, i + 1) == Start(len, n, i) + len / n + (if i < len % n then 1 else 0)
  {
    assert (i + 1) * (len / n) == i * (len / n) + len / n;
  }

  lemma {:induction false} StartMonotone(len: nat, n: nat, i: nat, j: nat)
    requires n > 0 && i <= j
    ensures Start(len, n, i) <= Start(len, n, j)
    decreases j - i
  {
    if i < j {
      StartStep(len, n, i);
      StartMonotone(len, n, i + 1, j);
    }
  }

  lemma StartEnds(len: nat, n: nat)
    requires n > 0
    ensures Start(len, n, 0) == 0 && Start(len, n, n) == len
  {
  }

  function Plan(len: nat, n: nat, i: nat): Chunk
    requires n > 0
  {
    StartMonotone(len, n, i, i + 1);
    Chunk(Start(len, n, i), Start(len, n, i + 1) - Start(len, n, i))
  }

  function Plans(len: nat, n: nat): (r: seq<Chunk>)
    requires n > 0
    ensures |r| == n
  {
    seq(n, i requires 0 <= i < n => Plan(len, n, i))
  }

  /** Chunks follow one another without gap or overlap from 0 to len. */
  ghost predicate Contiguous(chunks: seq<Chunk>, len: nat) {
    && |chunks| > 0
    && chunks[0].base == 0
    && (forall i :: 0 <= i < |chunks| - 1 ==> chunks[i + 1].base == chunks[i].base + chunks[i].len)
    && chunks[|chunks| - 1].base + chunks[|chunks| - 1].len == len
  }

  /** No two chunks differ by more than one slot, and the longer ones come first. */
  ghost predicate Balanced(chunks: seq<Chunk>) {
    forall i, j :: 0 <= i < j < |chunks| ==> chunks[j].len <= chunks[i].len <= chunks[j].len + 1
  }

  /** A plan is contiguous, balanced, and without an empty chunk. */
  lemma PlansPartition(len: nat, n: nat)
    requires 0 < n
    ensures Contiguous(Plans(len, n), len) && Balanced(Plans(len, n)) && Tiles(Plans(len, n), len)
    ensures n <= len ==> forall i :: 0 <= i < n ==> Plans(len, n)[i].len >= 1
  {
    StartEnds(len, n);
    forall i | 0 <= i < n
      ensures Plans(len, n)[i].len == len / n + (if i < len % n then 1 else 0)
    {
      StartStep(len, n, i);
    }
    if n <= len { assert len / n >= 1; }
    ContiguousTiles(Plans(len, n), len);
  }

  lemma {:induction false} ChunksOrdered(chunks: seq<Chunk>, len: nat, i: nat, j: nat)
    requires Contiguous(chunks, len) && i < j < |chunks|
    ensures chunks[i].base + chunks[i].len <= chunks[j].base
    decreases j - i
  {
    if i + 1 < j { ChunksOrdered(chunks, len, i + 1, j); }
  }

  lemma {:induction false} SlotCovered(chunks: seq<Chunk>, len: nat, i: nat, x: nat)
    requires Contiguous(chunks, len) && i < |chunks| && chunks[i].base <= x < len
    ensures Covered(chunks, x)
    decreases |chunks| - i
  {
    if x < chunks[i].base + chunks[i].len {
      assert InChunk(chunks[i], x);
    } else {
      SlotCovered(chunks, len, i + 1, x);
    }
  }

  lemma ContiguousTiles(chunks: seq<Chunk>, len: nat)
    requires Contiguous(chunks, len)
    ensures Tiles(chunks, len)
  {
    var last := |chunks| - 1;
    forall i, j | 0 <= i < j < |chunks| ensures chunks[i].base + chunks[i].len <= chunks[j].base {
      ChunksOrdered(chunks, len, i, j);
    }
    forall j | 0 <= j < |chunks| ensures chunks[j].base + chunks[j].len <= len {
      if j < last { ChunksOrdered(chunks, len, j, last); }
    }
    forall x | 0 <= x < len ensures Covered(chunks, x) {
      SlotCovered(chunks, len, 0, x);
    }
  }

  lemma {:induction false} LongerFirst(chunks: seq<Chunk>, len: nat, i: nat, q: nat)
    requires Contiguous(chunks, len) && i < |chunks|
    requires forall j :: i <= j < |chunks| ==> chunks[j].len <= q
    ensures len - chunks[i].base <= (|chunks| - i) * q
    decreases |chunks| - i
  {
    if i + 1 < |chunks| {
      LongerFirst(chunks, len, i + 1, q);
      assert (|chunks| - i) * q == (|chunks| - i - 1) * q + q;
    }
  }

  lemma {:induction false} ShorterLast(chunks: seq<Chunk>, len: nat, i: nat, q: nat)
    requires Contiguous(chunks, len) && i < |chunks|
    requires forall j :: i <= j < |chunks| ==> chunks[j].len >= q
    ensures len - chunks[i].base >= (|chunks| - i) * q
    decreases |chunks| - i
  {
    if i + 1 < |chunks| {
      ShorterLast(chunks, len, i + 1, q);
      assert (|chunks| - i) * q == (|chunks| - i - 1) * q + q;
    }
  }

  /** The plan is the only balanced contiguous cut into n chunks. */
  lemma {:induction false} PlanIsUnique(chunks: seq<Chunk>, len: nat, n: nat, i: nat)
    requires |chunks| == n && Contiguous(chunks, len) && Balanced(chunks) && i < n
    ensures chunks[i] == Plan(len, n, i)
  {
    PlansPartition(len, n);
    if i > 0 { PlanIsUnique(chunks, len, n, i - 1); }
    SameCutSameLength(chunks, Plans(len, n), len, i);
  }

  /** Two balanced cuts that agree up to chunk i agree on its length. */
  lemma SameCutSameLength(a: seq<Chunk>, b: seq<Chunk>, len: nat, i: nat)
    requires |a| == |b| && Contiguous(a, len) && Balanced(a) && Contiguous(b, len) && Balanced(b)
    requires i < |a| && a[i].base == b[i].base
    ensures a[i].len == b[i].len
  {
    NotShorter(a, b, len, i);
    NotShorter(b, a, len, i);
  }

  /** A shorter chunk here would leave more for the rest than the rest can hold. */
  lemma NotShorter(a: seq<Chunk>, b: seq<Chunk>, len: nat, i: nat)
    requires |a| == |b| && Contiguous(a, len) && Balanced(a) && Contiguous(b, len) && Balanced(b)
    requires i < |a| && a[i].base == b[i].base
    ensures a[i].len >= b[i].len
  {
    if a[i].len < b[i].len && i + 1 < |a| {
      LongerFirst(a, len, i + 1, a[i].len);
      ShorterLast(b, len, i + 1, a[i].len);
    }
  }

  /** ChildPlanner: an iterator whose only moving part is i. */
  class ChildPlanner {
    var i: u32
    const k: nat
    const m: nat
    const targetJobs: u32
    ghost const len: usize

    ghost predicate Valid() reads this {
      && targetJobs > 0 && k == len / targetJobs && m == len % targetJobs && i <= targetJobs
    }

    constructor (target: u32, len: usize)
      requires target > 0
      ensures Valid() && i == 0 && targetJobs == target && this.len == len
    {
      this.k, this.m := len / target, len % target;
      this.i, this.targetJobs := 0, target;
      this.len := len;
    }

    /** Iterator::next.  Neither i + 1 nor a product or sum overflows. */
    method Next() returns (plan: Option<Chunk>)
      requires Valid()
      modifies this`i
      ensures Valid()
      ensures old(i) == targetJobs ==> plan == None && i == old(i)
      ensures old(i) < targetJobs ==> i == old(i) + 1 && plan == Some(Plan(len, targetJobs, old(i)))
    {
      if i == targetJobs { return None; }
      StartMonotone(len, targetJobs, i, i + 1);
      StartMonotone(len, targetJobs, i + 1, targetJobs);
      StartEnds(len, targetJobs);
      var start: usize := i * k + Min(i, m);
      var iPlusOne: u32 := i + 1;
      var end: usize := iPlusOne * k + Min(iPlusOne, m);
      i := i + 1;
      return Some(Chunk(start, end - start));
    }

    /** The loop of set_sync that turns the planner into the list of jobs. */
    method Collect() returns (jobs: seq<Chunk>)
      requires Valid() && i == 0
      modifies this`i
      ensures Valid() && jobs == Plans(len, targetJobs)
    {
      jobs := [];
      var plan := Next();
      while plan != None
        invariant Valid()
        invariant plan != None ==> i == |jobs| + 1 && plan == Some(Plan(len, targetJobs, |jobs|))
        invariant plan == None ==> |jobs| == targetJobs
        invariant |jobs| <= targetJobs
        invariant forall j :: 0 <= j < |jobs| ==> jobs[j] == Plan(len, targetJobs, j)
        decreases targetJobs - |jobs|, plan != None
      {
        jobs := jobs + [plan.value];
        plan := Next();
      }
    }
  }

  /** The number asked for, before any limit of the machine word. */
  function Asked(strategy: Strategy, cpus: u16): nat {
    if strategy.Jobs? then strategy.jobs else strategy.jobs * cpus
  }

  lemma ProposedSays(strategy: Strategy, cpus: u16, checked: bool)
    ensures Proposed(strategy, cpus, checked) == None <==> checked && strategy.JobsPerCore? && strategy.jobs * cpus >= TWO_32
    ensures Proposed(strategy, cpus, checked) != None ==>
              Proposed(strategy, cpus, checked).value == Asked(strategy, cpus) % TWO_32
    ensures strategy.Jobs? ==> Asked(strategy, cpus) == strategy.jobs < TWO_32
  {
  }

  lemma TargetSays(strategy: Strategy, len: usize, cpus: u16, checked: bool)
    requires Proposed(strategy, cpus, checked) != None
    ensures var target := TargetJobs(Proposed(strategy, cpus, checked).value, len);
            && (strategy.Jobs? ==> target == Min(strategy.jobs, len))
            && (strategy.JobsPerCore? && strategy.jobs * cpus < TWO_32 ==> target == Min(strategy.jobs * cpus, len))
            && (strategy.JobsPerCore? && strategy.jobs * cpus >= TWO_32 ==> !checked && target == Min((strategy.jobs * cpus) % TWO_32, len))
  {
  }

  /** ChildPlanner::new: it succeeds exactly when there is something to build and a positive
      number of jobs was asked for, and then plans the smaller of the two numbers of jobs. */
  method NewPlanner(strategy: Strategy, len: usize, cpus: u16, checked: bool)
    returns (fault: Option<PlanFault>, planner: ChildPlanner?)
    ensures fault == Some(MultiplyOverflow) <==> checked && strategy.JobsPerCore? && strategy.jobs * cpus >= TWO_32
    ensures fault == Some(DivideByZero) <==>
              && fault != Some(MultiplyOverflow)
              && (len == 0 || (strategy.Jobs? && strategy.jobs == 0) || (strategy.JobsPerCore? && (strategy.jobs * cpus) % TWO_32 == 0))
    ensures fault == None ==>
              planner != null && fresh(planner) && planner.Valid() && planner.i == 0 && planner.len == len
    ensures fault == None && strategy.Jobs? ==> planner.targetJobs == Min(strategy.jobs, len)
    ensures fault == None && strategy.JobsPerCore? && strategy.jobs * cpus < TWO_32 ==>
              planner.targetJobs == Min(strategy.jobs * cpus, len)
    ensures fault == None && strategy.JobsPerCore? && strategy.jobs * cpus >= TWO_32 ==>
              !checked && planner.targetJobs == Min((strategy.jobs * cpus) % TWO_32, len)
  {
    ProposedSays(strategy, cpus, checked);
    if Proposed(strategy, cpus, checked) != None { TargetSays(strategy, len, cpus, checked); }
    hide Proposed, TargetJobs, Asked, ChildPlanner.Valid;
    planner := null;
    var proposed := Proposed(strategy, cpus, checked);
    if proposed == None { return Some(MultiplyOverflow), null; }
    var target := TargetJobs(proposed.value, len);
    if target == 0 { return Some(DivideByZero), null; }
    planner := new ChildPlanner(target, len);
    return None, planner;
  }

  /** job_creator for one job: the loop over the chunk's slots. */
  method RunJob<O>(f: nat -> O, output: array<O>, item: Chunk)
    requires item.base + item.len <= output.Length
    modifies output
    ensures forall x :: 0 <= x < output.Length ==> output[x] == if InChunk(item, x) then f(x) else old(output[x])
  {
    var slot := item.base;
    for done := 0 to item.len
      invariant slot == item.base + done
      invariant forall x :: 0 <= x < output.Length ==> output[x] == if item.base <= x < slot then f(x) else old(output[x])
    {
      output[slot] := f(slot);
      slot := slot + 1;
    }
  }
}
