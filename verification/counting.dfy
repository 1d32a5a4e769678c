/** Weighted sums over sequences, and the lemmas that say how a sum moves when one
    element is replaced.  A count is a sum whose weights are 0 and 1. */
module Counting {

  datatype Option<+T> = None | Some(value: T)

  ghost function Sum<T>(s: seq<T>, w: T -> nat): nat {
    if s == [] then 0 else w(s[0]) + Sum(s[1..], w)
  }

  lemma {:induction false} SumUpdate<T>(s: seq<T>, i: nat, x: T, w: T -> nat)
    requires i < |s|
    ensures Sum(s[i := x], w) + w(s[i]) == Sum(s, w) + w(x)
  {
    var u := s[i := x];
    if i == 0 {
      assert u[1..] == s[1..];
    } else {
      assert u[1..] == s[1..][i - 1 := x];
      SumUpdate(s[1..], i - 1, x, w);
    }
  }

  lemma {:induction false} SumAppend<T>(s: seq<T>, x: T, w: T -> nat)
    ensures Sum(s + [x], w) == Sum(s, w) + w(x)
  {
    if s == [] {
      assert s + [x] == [x];
      assert [x][1..] == [];
    } else {
      assert (s + [x])[1..] == s[1..] + [x];
      SumAppend(s[1..], x, w);
    }
  }

  lemma {:induction false} SumAtLeast<T>(s: seq<T>, i: nat, w: T -> nat)
    requires i < |s|
    ensures w(s[i]) <= Sum(s, w)
  {
    if i != 0 {
      SumAtLeast(s[1..], i - 1, w);
    }
  }

  /** Two different positions contribute separately. */
  lemma {:induction false} SumAtLeastTwo<T>(s: seq<T>, i: nat, j: nat, w: T -> nat)
    requires i < j < |s|
    ensures w(s[i]) + w(s[j]) <= Sum(s, w)
  {
    if i == 0 {
      SumAtLeast(s[1..], j - 1, w);
    } else {
      SumAtLeastTwo(s[1..], i - 1, j - 1, w);
    }
  }

  lemma {:induction false} SumZero<T>(s: seq<T>, w: T -> nat)
    requires forall i :: 0 <= i < |s| ==> w(s[i]) == 0
    ensures Sum(s, w) == 0
  {
    if s != [] {
      SumZero(s[1..], w);
    }
  }

  /** A nonzero sum has a nonzero summand. */
  lemma {:induction false} SumWitness<T>(s: seq<T>, w: T -> nat) returns (i: nat)
    requires Sum(s, w) > 0
    ensures i < |s| && w(s[i]) > 0
  {
    if w(s[0]) > 0 {
      i := 0;
    } else {
      var k := SumWitness(s[1..], w);
      i := k + 1;
    }
  }

  lemma {:induction false} SumMonotone<T>(s: seq<T>, v: T -> nat, w: T -> nat)
    requires forall i :: 0 <= i < |s| ==> v(s[i]) <= w(s[i])
    ensures Sum(s, v) <= Sum(s, w)
  {
    if s != [] {
      SumMonotone(s[1..], v, w);
    }
  }

  lemma {:induction false} SumConstant<T>(s: seq<T>, w: T -> nat, c: nat)
    requires forall i :: 0 <= i < |s| ==> w(s[i]) == c
    ensures Sum(s, w) == c * |s|
  {
    if s != [] {
      SumConstant(s[1..], w, c);
    }
  }

  /** The sum of the elements from position p on. */
  ghost function TotalFrom(s: seq<nat>, p: nat): nat
    requires p <= |s|
    decreases |s| - p
  {
    if p == |s| then 0 else s[p] + TotalFrom(s, p + 1)
  }

  lemma {:induction false} TotalFromUpdate(s: seq<nat>, i: nat, v: nat, p: nat)
    requires i < |s| && p <= |s|
    ensures TotalFrom(s[i := v], p) == TotalFrom(s, p) + if p <= i then v - s[i] else 0
    decreases |s| - p
  {
    if p != |s| {
      TotalFromUpdate(s, i, v, p + 1);
    }
  }

  lemma {:induction false} TotalFromZero(s: seq<nat>, p: nat)
    requires p <= |s|
    ensures TotalFrom(s, p) == 0 <==> forall i :: p <= i < |s| ==> s[i] == 0
    decreases |s| - p
  {
    if p != |s| {
      TotalFromZero(s, p + 1);
    }
  }

  /** All the elements of a family of sequences, with multiplicity. */
  ghost function Bag<T>(ss: seq<seq<T>>): multiset<T> {
    if ss == [] then multiset{} else multiset(ss[0]) + Bag(ss[1..])
  }

  lemma {:induction false} BagUpdate<T>(ss: seq<seq<T>>, i: nat, r: seq<T>)
    requires i < |ss|
    ensures Bag(ss[i := r]) + multiset(ss[i]) == Bag(ss) + multiset(r)
  {
    var u := ss[i := r];
    if i == 0 {
      assert u[1..] == ss[1..];
    } else {
      assert u[1..] == ss[1..][i - 1 := r];
      BagUpdate(ss[1..], i - 1, r);
      assert u[0] == ss[0] && ss[1..][i - 1] == ss[i];
      assert Bag(u) + multiset(ss[i]) == multiset(ss[0]) + (Bag(u[1..]) + multiset(ss[i]));
    }
  }

  lemma BagAppend<T>(ss: seq<seq<T>>, i: nat, x: T)
    requires i < |ss|
    ensures Bag(ss[i := ss[i] + [x]]) == Bag(ss) + multiset{x}
  {
    BagUpdate(ss, i, ss[i] + [x]);
    var u := ss[i := ss[i] + [x]];
    assert multiset(ss[i] + [x]) == multiset(ss[i]) + multiset{x};
    assert Bag(u) == (Bag(u) + multiset(ss[i])) - multiset(ss[i]);
    assert Bag(ss) + multiset{x} == (Bag(ss) + (multiset(ss[i]) + multiset{x})) - multiset(ss[i]);
  }

  lemma {:induction false} BagEmpty<T>(ss: seq<seq<T>>)
    requires forall i :: 0 <= i < |ss| ==> ss[i] == []
    ensures Bag(ss) == multiset{}
  {
    if ss != [] {
      BagEmpty(ss[1..]);
    }
  }

  lemma {:induction false} BagSplit<T>(whole: seq<seq<T>>, front: seq<seq<T>>, back: seq<seq<T>>)
    requires |front| == |back| == |whole|
    requires forall i :: 0 <= i < |whole| ==> whole[i] == front[i] + back[i]
    ensures Bag(whole) == Bag(front) + Bag(back)
  {
    if whole != [] {
      BagSplit(whole[1..], front[1..], back[1..]);
    }
  }
}
