/** A loop over a sequence whose body may raise: the shape of every pass of the reconciliation. */
module Folds {
  import opened Wrappers

  /** Runs `f` on each element from the front and concatenates what it yields; the first fault aborts. */
  function FlatMap<X, Y>(xs: seq<X>, f: X -> Result<seq<Y>>): Result<seq<Y>>
    decreases |xs|
  {
    if xs == [] then Ok([])
    else
      var n := |xs| - 1;
      var ys :- FlatMap(xs[..n], f);
      var zs :- f(xs[n]);
      Ok(ys + zs)
  }

  /** One more iteration of the loop. */
  lemma FlatMapStep<X, Y>(xs: seq<X>, f: X -> Result<seq<Y>>, i: nat)
    requires i < |xs|
    ensures FlatMap(xs[..i + 1], f) ==
      match FlatMap(xs[..i], f)
      case Err(e) => Err(e)
      case Ok(ys) => (match f(xs[i]) case Err(e) => Err(e) case Ok(zs) => Ok(ys + zs))
  {
    assert xs[..i + 1][..i] == xs[..i];
  }

  /** A fault in some iteration is the fault of the whole loop. */
  lemma {:induction false} PrefixFault<X, Y>(xs: seq<X>, f: X -> Result<seq<Y>>, i: nat)
    requires i <= |xs| && FlatMap(xs[..i], f).Err?
    ensures FlatMap(xs, f) == FlatMap(xs[..i], f)
    decreases |xs|
  {
    if i == |xs| {
      assert xs[..i] == xs;
    } else {
      var n := |xs| - 1;
      assert xs[..n][..i] == xs[..i];
      PrefixFault(xs[..n], f, i);
    }
  }

  /** A loop that completes completed every iteration. */
  lemma {:induction false} FlatMapOk<X, Y>(xs: seq<X>, f: X -> Result<seq<Y>>, i: nat)
    requires FlatMap(xs, f).Ok? && i < |xs|
    ensures f(xs[i]).Ok?
    decreases |xs|
  {
    var n := |xs| - 1;
    if i < n {
      FlatMapOk(xs[..n], f, i);
      assert xs[..n][i] == xs[i];
    }
  }

  /** What a completed loop yields, it yielded in some iteration. */
  lemma {:induction false} FlatMapMember<X, Y>(xs: seq<X>, f: X -> Result<seq<Y>>, y: Y) returns (i: nat)
    requires FlatMap(xs, f).Ok? && y in FlatMap(xs, f).value
    ensures i < |xs| && f(xs[i]).Ok? && y in f(xs[i]).value
    decreases |xs|
  {
    var n := |xs| - 1;
    var ys := FlatMap(xs[..n], f).value;
    if y in ys {
      i := FlatMapMember(xs[..n], f, y);
      assert xs[..n][i] == xs[i];
    } else {
      i := n;
    }
  }

  /** A property of everything each iteration yields is a property of everything the loop yields. */
  lemma FlatMapAll<X, Y>(xs: seq<X>, f: X -> Result<seq<Y>>, q: Y -> bool)
    requires forall i :: 0 <= i < |xs| && f(xs[i]).Ok? ==> forall y :: y in f(xs[i]).value ==> q(y)
    ensures FlatMap(xs, f).Ok? ==> forall y :: y in FlatMap(xs, f).value ==> q(y)
  {
    if FlatMap(xs, f).Ok? {
      forall y | y in FlatMap(xs, f).value ensures q(y) {
        var i := FlatMapMember(xs, f, y);
      }
    }
  }

  /** Running the loop over two halves one after the other is running it over the whole. */
  lemma {:induction false} FlatMapAppend<X, Y>(xs: seq<X>, ys: seq<X>, f: X -> Result<seq<Y>>)
    requires FlatMap(xs + ys, f).Ok?
    ensures FlatMap(xs, f).Ok? && FlatMap(ys, f).Ok?
    ensures FlatMap(xs + ys, f).value == FlatMap(xs, f).value + FlatMap(ys, f).value
    decreases |ys|
  {
    if ys == [] {
      assert xs + ys == xs;
    } else {
      var n := |ys| - 1;
      assert (xs + ys)[..|xs + ys| - 1] == xs + ys[..n];
      assert (xs + ys)[|xs + ys| - 1] == ys[n];
      FlatMapAppend(xs, ys[..n], f);
    }
  }

  /** A completed loop yields what the iterations before `i` yield, then what iteration `i` yields, then the rest. */
  lemma FlatMapSplit<X, Y>(xs: seq<X>, f: X -> Result<seq<Y>>, i: nat)
    requires FlatMap(xs, f).Ok? && i < |xs|
    ensures FlatMap(xs[..i], f).Ok? && f(xs[i]).Ok? && FlatMap(xs[i + 1..], f).Ok?
    ensures FlatMap(xs, f).value == FlatMap(xs[..i], f).value + (f(xs[i]).value + FlatMap(xs[i + 1..], f).value)
  {
    var rest := xs[i..];
    assert xs[..i] + rest == xs;
    FlatMapAppend(xs[..i], rest, f);
    assert [xs[i]] + xs[i + 1..] == rest;
    FlatMapCons(xs[i], xs[i + 1..], f);
  }

  /** The loop over an element and then a sequence: that element's iteration, then the rest. */
  lemma FlatMapCons<X, Y>(x: X, ys: seq<X>, f: X -> Result<seq<Y>>)
    requires FlatMap([x] + ys, f).Ok?
    ensures f(x).Ok? && FlatMap(ys, f).Ok?
    ensures FlatMap([x] + ys, f).value == f(x).value + FlatMap(ys, f).value
  {
    FlatMapAppend([x], ys, f);
    FlatMapOne(x, f);
  }

  /** The loop over one element is that element's iteration. */
  lemma FlatMapOne<X, Y>(x: X, f: X -> Result<seq<Y>>)
    requires FlatMap([x], f).Ok?
    ensures f(x).Ok? && FlatMap([x], f).value == f(x).value
  {
    assert [x][..0] == [];
  }

  /** Everything an iteration of a completed loop yields is yielded by the loop. */
  lemma FlatMapCovers<X, Y>(xs: seq<X>, f: X -> Result<seq<Y>>, i: nat)
    requires FlatMap(xs, f).Ok? && i < |xs|
    ensures f(xs[i]).Ok? && forall y :: y in f(xs[i]).value ==> y in FlatMap(xs, f).value
  {
    FlatMapSplit(xs, f, i);
  }

  /** A completed loop whose every iteration yields one element yields one element per iteration, in order. */
  lemma {:induction false} FlatMapSingletons<X, Y>(xs: seq<X>, f: X -> Result<seq<Y>>)
    requires FlatMap(xs, f).Ok?
    requires forall i :: 0 <= i < |xs| && f(xs[i]).Ok? ==> |f(xs[i]).value| == 1
    ensures |FlatMap(xs, f).value| == |xs|
    ensures forall i :: 0 <= i < |xs| ==> f(xs[i]).Ok? && FlatMap(xs, f).value[i] == f(xs[i]).value[0]
    decreases |xs|
  {
    if xs != [] {
      var n := |xs| - 1;
      var prefix := xs[..n];
      FlatMapOk(xs, f, n);
      assert FlatMap(prefix, f).Ok?;
      forall i | 0 <= i < |prefix| && f(prefix[i]).Ok? ensures |f(prefix[i]).value| == 1 {
        assert prefix[i] == xs[i];
      }
      FlatMapSingletons(prefix, f);
      var ys := FlatMap(prefix, f).value;
      assert FlatMap(xs, f).value == ys + f(xs[n]).value;
      forall i | 0 <= i < |xs| ensures f(xs[i]).Ok? && FlatMap(xs, f).value[i] == f(xs[i]).value[0] {
        if i < n {
          assert prefix[i] == xs[i];
        }
      }
    }
  }

  /**
   The facts a loop needs at the top of iteration `i`: how the iteration extends the prefix,
   and that a fault raised in it is the fault of the whole loop.
   */
  lemma LoopStep<X, Y>(xs: seq<X>, f: X -> Result<seq<Y>>, i: nat)
    requires i < |xs| && FlatMap(xs[..i], f).Ok?
    ensures f(xs[i]).Err? ==> FlatMap(xs, f) == Err(f(xs[i]).fault)
    ensures f(xs[i]).Ok? ==> FlatMap(xs[..i + 1], f) == Ok(FlatMap(xs[..i], f).value + f(xs[i]).value)
  {
    FlatMapStep(xs, f, i);
    if f(xs[i]).Err? {
      PrefixFault(xs, f, i + 1);
    }
  }

  /** A running count followed by a later one: the first fault wins, otherwise the counts add up. */
  function Plus(a: Result<nat>, b: Result<nat>): Result<nat> {
    match a
    case Err(e) => Err(e)
    case Ok(x) =>
      match b
      case Err(e) => Err(e)
      case Ok(y) => Ok(x + y)
  }

  /** Adding up counts does not depend on how they are grouped; the first fault still wins. */
  lemma PlusAssociative(a: Result<nat>, b: Result<nat>, c: Result<nat>)
    ensures Plus(Plus(a, b), c) == Plus(a, Plus(b, c))
  {
  }

  /** Runs `f` on each element from the front and adds up what it counts; the first fault aborts. */
  function Sum<X>(xs: seq<X>, f: X -> Result<nat>): Result<nat>
    decreases |xs|
  {
    if xs == [] then Ok(0)
    else
      var n := |xs| - 1;
      Plus(Sum(xs[..n], f), f(xs[n]))
  }

  /** A fault in some iteration of a count is the fault of the whole count. */
  lemma {:induction false} SumPrefixFault<X>(xs: seq<X>, f: X -> Result<nat>, i: nat)
    requires i <= |xs| && Sum(xs[..i], f).Err?
    ensures Sum(xs, f) == Sum(xs[..i], f)
    decreases |xs|
  {
    if i == |xs| {
      assert xs[..i] == xs;
    } else {
      var n := |xs| - 1;
      assert xs[..n][..i] == xs[..i];
      SumPrefixFault(xs[..n], f, i);
    }
  }

  /** The facts a counting loop needs at the top of iteration `i`. */
  lemma SumLoopStep<X>(xs: seq<X>, f: X -> Result<nat>, i: nat)
    requires i < |xs| && Sum(xs[..i], f).Ok?
    ensures f(xs[i]).Err? ==> Sum(xs, f) == Err(f(xs[i]).fault)
    ensures f(xs[i]).Ok? ==> Sum(xs[..i + 1], f) == Ok(Sum(xs[..i], f).value + f(xs[i]).value)
  {
    assert xs[..i + 1][..i] == xs[..i];
    if f(xs[i]).Err? {
      SumPrefixFault(xs, f, i + 1);
    }
  }

  /** A count completes exactly when every iteration does. */
  lemma {:induction false} SumOk<X>(xs: seq<X>, f: X -> Result<nat>)
    ensures Sum(xs, f).Ok? <==> forall i :: 0 <= i < |xs| ==> f(xs[i]).Ok?
    decreases |xs|
  {
    if xs != [] {
      var n := |xs| - 1;
      SumOk(xs[..n], f);
      assert forall i :: 0 <= i < n ==> xs[..n][i] == xs[i];
    }
  }

  /** The fault of a count is the fault of one of its iterations. */
  lemma {:induction false} SumFault<X>(xs: seq<X>, f: X -> Result<nat>) returns (i: nat)
    requires Sum(xs, f).Err?
    ensures i < |xs| && f(xs[i]).Err? && Sum(xs, f) == Err(f(xs[i]).fault)
    decreases |xs|
  {
    var n := |xs| - 1;
    if Sum(xs[..n], f).Err? {
      i := SumFault(xs[..n], f);
      assert xs[..n][i] == xs[i];
    } else {
      i := n;
    }
  }

  lemma MulSucc(k: nat, n: nat)
    ensures k * (n + 1) == k * n + k
  {
  }

  /** When every iteration counts at most `k`, the count is at most `k` per element. */
  lemma {:induction false} SumBound<X>(xs: seq<X>, f: X -> Result<nat>, k: nat)
    requires Sum(xs, f).Ok?
    requires forall i :: 0 <= i < |xs| && f(xs[i]).Ok? ==> f(xs[i]).value <= k
    ensures Sum(xs, f).value <= k * |xs|
    decreases |xs|
  {
    if xs != [] {
      var n := |xs| - 1;
      var before, last := Sum(xs[..n], f), f(xs[n]);
      assert Sum(xs, f) == Plus(before, last);
      assert before.Ok? && last.Ok? && Sum(xs, f).value == before.value + last.value;
      assert last.value <= k;
      assert forall i :: 0 <= i < n ==> xs[..n][i] == xs[i];
      SumBound(xs[..n], f, k);
      MulSucc(k, n);
    }
  }

  /** Counting two runs one after the other adds their counts; the first fault wins. */
  lemma {:induction false} SumAppend<X>(xs: seq<X>, ys: seq<X>, f: X -> Result<nat>)
    ensures Sum(xs + ys, f) == Plus(Sum(xs, f), Sum(ys, f))
    decreases |ys|
  {
    if ys == [] {
      assert xs + ys == xs;
    } else {
      var n := |ys| - 1;
      var zs := xs + ys;
      SumAppend(xs, ys[..n], f);
      assert zs[..|zs| - 1] == xs + ys[..n];
      assert zs[|zs| - 1] == ys[n];
      assert Sum(zs, f) == Plus(Plus(Sum(xs, f), Sum(ys[..n], f)), f(ys[n]));
      assert Sum(ys, f) == Plus(Sum(ys[..n], f), f(ys[n]));
      PlusAssociative(Sum(xs, f), Sum(ys[..n], f), f(ys[n]));
    }
  }

  /** Each iteration of a completed count completes and counts no more than the whole. */
  lemma {:induction false} SumElement<X>(xs: seq<X>, f: X -> Result<nat>, i: nat)
    requires Sum(xs, f).Ok? && i < |xs|
    ensures f(xs[i]).Ok? && f(xs[i]).value <= Sum(xs, f).value
    decreases |xs|
  {
    var n := |xs| - 1;
    assert Sum(xs, f) == Plus(Sum(xs[..n], f), f(xs[n]));
    if i < n {
      SumElement(xs[..n], f, i);
      assert xs[..n][i] == xs[i];
    }
  }

  /** A completed count of zero means every iteration counted zero. */
  lemma SumZeroEach<X>(xs: seq<X>, f: X -> Result<nat>)
    requires Sum(xs, f) == Ok(0)
    ensures forall i :: 0 <= i < |xs| ==> f(xs[i]) == Ok(0)
  {
    forall i | 0 <= i < |xs| ensures f(xs[i]) == Ok(0) {
      SumElement(xs, f, i);
      var r := f(xs[i]);
      assert r == Ok(r.value);
    }
  }

  /** A completed count is zero exactly when every iteration counted zero. */
  lemma SumZero<X>(xs: seq<X>, f: X -> Result<nat>)
    requires Sum(xs, f).Ok?
    ensures Sum(xs, f).value == 0 <==> forall i :: 0 <= i < |xs| ==> f(xs[i]) == Ok(0)
  {
    if Sum(xs, f).value == 0 {
      SumZeroEach(xs, f);
    } else if forall i :: 0 <= i < |xs| ==> f(xs[i]) == Ok(0) {
      SumBound(xs, f, 0);
    }
  }

  /** When every iteration that fails raises `e`, so does a count that fails. */
  lemma SumFaultIs<X>(xs: seq<X>, f: X -> Result<nat>, e: Fault)
    requires forall i :: 0 <= i < |xs| && f(xs[i]).Err? ==> f(xs[i]).fault == e
    ensures Sum(xs, f).Err? ==> Sum(xs, f).fault == e
  {
    if Sum(xs, f).Err? {
      var i := SumFault(xs, f);
    }
  }
}
