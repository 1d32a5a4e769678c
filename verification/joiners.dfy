/** join2 and try_join2, polled any number of times over children that are described by what each
    of their polls would return. */
module Joiners {
  import opened Counting

  datatype Result<V, E> = Ok(value: V) | Err(error: E)

  /** A child not yet ready, or the output it left. */
  datatype ReadyOrNot<V> = Future | Ready(value: V)

  datatype PollResult<V> = Done(value: V) | Pending | Panicked

  datatype Error2<A, B> = InA(a: A) | InB(b: B)

  /** Poll k is the first at which the child is ready. */
  ghost predicate FirstAt<V>(child: nat -> Option<V>, k: nat) {
    child(k).Some? && forall i: nat :: i < k ==> child(i) == None
  }

  ghost predicate NoneBefore<V>(child: nat -> Option<V>, k: nat) {
    forall i: nat :: i < k ==> child(i) == None
  }

  ghost predicate FirstBefore<V>(child: nat -> Option<V>, k: nat, v: V) {
    exists i: nat :: i < k && FirstAt(child, i) && child(i) == Some(v)
  }

  /** Both children are ready by poll k, and not both before it: k is the later of their first
      ready polls. */
  ghost predicate BothAt<A, B>(a: nat -> Option<A>, b: nat -> Option<B>, k: nat, x: A, y: B) {
    exists i: nat, j: nat :: FirstAt(a, i) && FirstAt(b, j) && a(i) == Some(x) && b(j) == Some(y)
                             && k == (if i <= j then j else i)
  }

  /** There is at most one such poll, with one pair of outputs. */
  lemma JoinEndsOnce<A, B>(a: nat -> Option<A>, b: nat -> Option<B>, k: nat, x: A, y: B, k': nat, x': A, y': B)
    requires BothAt(a, b, k, x, y) && BothAt(a, b, k', x', y')
    ensures k == k' && x == x' && y == y'
  {
  }

  /** One child as a joiner sees it after `rounds` polls of its own. */
  ghost predicate ChildOk<V>(child: nat -> Option<V>, slot: ReadyOrNot<V>, polls: nat, rounds: nat) {
    match slot
    case Future => polls == rounds && NoneBefore(child, rounds)
    case Ready(v) => 0 < polls <= rounds && FirstAt(child, polls - 1) && child(polls - 1) == Some(v)
  }

  class Join2<A, B> {
    const childA: nat -> Option<A>
    const childB: nat -> Option<B>
    var done: bool
    var a: ReadyOrNot<A>
    var b: ReadyOrNot<B>
    // How often the joiner, and each child, has been polled.
    var rounds: nat
    var pollsA: nat
    var pollsB: nat

    ghost predicate Valid() reads this {
      && ChildOk(childA, a, pollsA, rounds) && ChildOk(childB, b, pollsB, rounds)
      && (done <==> a.Ready? && b.Ready?)
    }

    constructor (childA: nat -> Option<A>, childB: nat -> Option<B>)
      ensures Valid() && rounds == 0 && !done && this.childA == childA && this.childB == childB
    {
      this.childA, this.childB := childA, childB;
      done, a, b, rounds, pollsA, pollsB := false, Future, Future, 0, 0, 0;
    }

    /** Join2::poll.  The rounds-th poll is ready exactly if it is the later of the children's
        first ready polls, with both outputs; afterwards it panics; and no child is polled after
        it was ready, since every earlier poll of it was pending. */
    method Poll() returns (r: PollResult<(A, B)>)
      requires Valid()
      modifies this
      ensures Valid()
      ensures r == Panicked <==> old(done)
      ensures r.Done? ==> done && BothAt(childA, childB, old(rounds), r.value.0, r.value.1)
      ensures r == Pending ==> !done && forall x, y :: !BothAt(childA, childB, old(rounds), x, y)
      ensures !old(done) ==> rounds == old(rounds) + 1
      ensures NoneBefore(childA, if pollsA == 0 then 0 else pollsA - 1)
      ensures NoneBefore(childB, if pollsB == 0 then 0 else pollsB - 1)
    {
      if done { return Panicked; }
      if a == Future {
        var p := childA(pollsA);
        pollsA := pollsA + 1;
        if p.Some? { a := Ready(p.value); }
      }
      if b == Future {
        var p := childB(pollsB);
        pollsB := pollsB + 1;
        if p.Some? { b := Ready(p.value); }
      }
      rounds := rounds + 1;
      if a.Ready? && b.Ready? {
        done := true;
        return Done((a.value, b.value));
      }
      return Pending;
    }
  }

  /** Whole histories of join2: ready once both children have been, at no other poll. */
  method PollJoin<A, B>(join: Join2<A, B>, limit: nat) returns (r: PollResult<(A, B)>)
    requires join.Valid() && !join.done && join.rounds == 0
    modifies join
    ensures r.Done? ==> 0 < join.rounds <= limit && BothAt(join.childA, join.childB, join.rounds - 1, r.value.0, r.value.1)
    ensures r == Pending ==> forall k: nat, x, y :: k < limit ==> !BothAt(join.childA, join.childB, k, x, y)
    ensures r != Panicked
  {
    r := Pending;
    var k := 0;
    while k < limit && r == Pending
      invariant 0 <= k <= limit && join.Valid() && join.rounds == k && r != Panicked
      invariant r == Pending ==> !join.done && forall i: nat, x, y :: i < k ==> !BothAt(join.childA, join.childB, i, x, y)
      invariant r.Done? ==> k > 0 && BothAt(join.childA, join.childB, k - 1, r.value.0, r.value.1)
    {
      r := join.Poll();
      k := k + 1;
    }
  }

  // try_join2

  ghost predicate FailsAt<V, E>(child: nat -> Option<Result<V, E>>, k: nat) {
    FirstAt(child, k) && child(k).value.Err?
  }

  ghost predicate BothOkAt<A, B, E, F>(a: nat -> Option<Result<A, E>>, b: nat -> Option<Result<B, F>>, k: nat) {
    exists i: nat, j: nat :: FirstAt(a, i) && FirstAt(b, j) && a(i).value.Ok? && b(j).value.Ok? && k == (if i <= j then j else i)
  }

  ghost predicate TryEndsAt<A, B, E, F>(a: nat -> Option<Result<A, E>>, b: nat -> Option<Result<B, F>>, k: nat) {
    FailsAt(a, k) || FailsAt(b, k) || BothOkAt(a, b, k)
  }

  ghost predicate TryChildOk<V, E>(child: nat -> Option<Result<V, E>>, slot: ReadyOrNot<V>, polls: nat, rounds: nat) {
    match slot
    case Future => polls == rounds && NoneBefore(child, rounds)
    case Ready(v) => 0 < polls <= rounds && FirstAt(child, polls - 1) && child(polls - 1) == Some(Ok(v))
  }

  class TryJoin2<A, B, E, F> {
    const childA: nat -> Option<Result<A, E>>
    const childB: nat -> Option<Result<B, F>>
    var done: bool
    var a: ReadyOrNot<A>
    var b: ReadyOrNot<B>
    var rounds: nat
    var pollsA: nat
    var pollsB: nat

    /** Holds as long as no poll has returned an error or both outputs. */
    ghost predicate Open() reads this {
      && !done && TryChildOk(childA, a, pollsA, rounds) && TryChildOk(childB, b, pollsB, rounds)
      && !(a.Ready? && b.Ready?)
    }

    constructor (childA: nat -> Option<Result<A, E>>, childB: nat -> Option<Result<B, F>>)
      ensures Open() && rounds == 0 && this.childA == childA && this.childB == childB
    {
      this.childA, this.childB := childA, childB;
      done, a, b, rounds, pollsA, pollsB := false, Future, Future, 0, 0, 0;
    }

    /** TryJoin2::poll.  It ends at the first poll at which a child fails for the first time or
        the second of two outputs comes; if both children fail in the same poll the first child's
        error is returned and the second child is not polled.  An error leaves the joiner as if
        still polling, with the failed child in place: polling it again polls that child again. */
    method Poll() returns (r: PollResult<Result<(A, B), Error2<E, F>>>)
      modifies this
      ensures r == Panicked <==> old(done)
      ensures old(done) ==> done && rounds == old(rounds) && pollsA == old(pollsA) && pollsB == old(pollsB)
      ensures old(Open()) ==> (r == Pending <==> Open()) && (r == Pending <==> !TryEndsAt(childA, childB, old(rounds)))
      ensures old(Open()) && r.Done? && r.value.Ok? ==> done && BothOkAt(childA, childB, old(rounds))
      ensures old(Open()) && r.Done? && r.value.Ok? ==>
                FirstBefore(childA, rounds, Ok(r.value.value.0)) && FirstBefore(childB, rounds, Ok(r.value.value.1))
      ensures old(Open()) && r.Done? && r.value.Err? && r.value.error.InA? ==>
                FailsAt(childA, old(rounds)) && childA(old(rounds)) == Some(Err(r.value.error.a)) && pollsB == old(pollsB)
      ensures old(Open()) && r.Done? && r.value.Err? && r.value.error.InB? ==>
                FailsAt(childB, old(rounds)) && !FailsAt(childA, old(rounds)) && childB(old(rounds)) == Some(Err(r.value.error.b))
      ensures r.Done? && r.value.Err? ==> !done && (if r.value.error.InA? then a == Future else b == Future)
      ensures !old(done) ==> rounds == old(rounds) + 1
      ensures !old(done) && old(a) == Future ==> pollsA == old(pollsA) + 1
      ensures old(a) != Future ==> a == old(a) && pollsA == old(pollsA)
    {
      if done { return Panicked; }
      rounds := rounds + 1;
      if a == Future {
        var p := childA(pollsA);
        pollsA := pollsA + 1;
        if p.Some? {
          match p.value
          case Ok(item) => a := Ready(item);
          case Err(e) => return Done(Err(InA(e)));
        }
      }
      if b == Future {
        var p := childB(pollsB);
        pollsB := pollsB + 1;
        if p.Some? {
          match p.value
          case Ok(item) => b := Ready(item);
          case Err(e) => return Done(Err(InB(e)));
        }
      }
      if a.Ready? && b.Ready? {
        done := true;
        return Done(Ok((a.value, b.value)));
      }
      return Pending;
    }
  }

  /** Whole histories of try_join2: it ends at the first poll at which a child fails or both have
      their outputs, and at no earlier one. */
  method PollTryJoin<A, B, E, F>(join: TryJoin2<A, B, E, F>, limit: nat) returns (r: PollResult<Result<(A, B), Error2<E, F>>>)
    requires join.Open() && join.rounds == 0
    modifies join
    ensures r == Pending ==> forall k: nat :: k < limit ==> !TryEndsAt(join.childA, join.childB, k)
    ensures r.Done? ==> 0 < join.rounds <= limit && TryEndsAt(join.childA, join.childB, join.rounds - 1)
    ensures r.Done? ==> forall k: nat :: k < join.rounds - 1 ==> !TryEndsAt(join.childA, join.childB, k)
    ensures r.Done? && FailsAt(join.childA, join.rounds - 1) ==> r.value == Err(InA(join.childA(join.rounds - 1).value.error))
    ensures r != Panicked
  {
    r := Pending;
    var k := 0;
    while k < limit && r == Pending
      invariant 0 <= k <= limit && join.rounds == k && r != Panicked
      invariant r == Pending ==> join.Open() && forall i: nat :: i < k ==> !TryEndsAt(join.childA, join.childB, i)
      invariant r.Done? ==> k > 0 && TryEndsAt(join.childA, join.childB, k - 1)
      invariant r.Done? ==> forall i: nat :: i < k - 1 ==> !TryEndsAt(join.childA, join.childB, i)
      invariant r.Done? && FailsAt(join.childA, k - 1) ==> r.value == Err(InA(join.childA(k - 1).value.error))
    {
      r := join.Poll();
      k := k + 1;
    }
  }
}
