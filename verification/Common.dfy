/** Definitions shared by the other modules: optional values and counting over sequences. */
module Common {

  datatype Option<+T> = None | Some(value: T)

  /** Identifiers of monitors, incidents, events and checks: fresh ULID strings in the source. */
  type Id = string

  /** The number of elements of `xs` that satisfy `p`. */
  ghost function Count<T>(xs: seq<T>, p: T -> bool): nat {
    if xs == [] then 0 else (if p(xs[0]) then 1 else 0) + Count(xs[1..], p)
  }

  lemma {:induction false} CountConcat<T>(xs: seq<T>, ys: seq<T>, p: T -> bool)
    ensures Count(xs + ys, p) == Count(xs, p) + Count(ys, p)
  {
    if xs == [] {
      assert xs + ys == ys;
    } else {
      assert (xs + ys)[1..] == xs[1..] + ys;
      CountConcat(xs[1..], ys, p);
    }
  }

  lemma CountAppend<T>(xs: seq<T>, y: T, p: T -> bool)
    ensures Count(xs + [y], p) == Count(xs, p) + (if p(y) then 1 else 0)
  {
    CountConcat(xs, [y], p);
  }

  lemma CountSplit<T>(xs: seq<T>, i: nat, p: T -> bool)
    requires i < |xs|
    ensures Count(xs, p) == Count(xs[..i], p) + (if p(xs[i]) then 1 else 0) + Count(xs[i + 1..], p)
  {
    assert xs == xs[..i] + xs[i..];
    CountConcat(xs[..i], xs[i..], p);
  }

  lemma CountRemove<T>(xs: seq<T>, i: nat, p: T -> bool)
    requires i < |xs|
    ensures Count(xs[..i] + xs[i + 1..], p) == Count(xs, p) - (if p(xs[i]) then 1 else 0)
  {
    CountSplit(xs, i, p);
    CountConcat(xs[..i], xs[i + 1..], p);
  }

  lemma CountUpdate<T>(xs: seq<T>, i: nat, y: T, p: T -> bool)
    requires i < |xs|
    ensures Count(xs[i := y], p) == Count(xs, p) - (if p(xs[i]) then 1 else 0) + (if p(y) then 1 else 0)
  {
    CountSplit(xs, i, p);
    CountSplit(xs[i := y], i, p);
    assert xs[i := y][..i] == xs[..i] && xs[i := y][i + 1..] == xs[i + 1..];
  }

  lemma {:induction false} CountZero<T>(xs: seq<T>, p: T -> bool)
    ensures Count(xs, p) == 0 <==> forall x | x in xs :: !p(x)
  {
    if xs == [] {
    } else {
      CountZero(xs[1..], p);
      assert xs == [xs[0]] + xs[1..];
    }
  }

  lemma CountHas<T>(xs: seq<T>, i: nat, p: T -> bool)
    requires i < |xs| && p(xs[i])
    ensures Count(xs, p) >= 1
  {
    CountSplit(xs, i, p);
  }

  lemma {:induction false} CountFull<T>(xs: seq<T>, p: T -> bool)
    ensures Count(xs, p) <= |xs|
    ensures Count(xs, p) == |xs| <==> forall x | x in xs :: p(x)
  {
    if xs == [] {
    } else {
      CountFull(xs[1..], p);
      assert xs == [xs[0]] + xs[1..];
    }
  }

  /** The elements that satisfy `p`, in order. */
  function Filter<T>(xs: seq<T>, p: T -> bool): seq<T> {
    if xs == [] then [] else (if p(xs[0]) then [xs[0]] else []) + Filter(xs[1..], p)
  }

  lemma {:induction false} FilterConcat<T>(xs: seq<T>, ys: seq<T>, p: T -> bool)
    ensures Filter(xs + ys, p) == Filter(xs, p) + Filter(ys, p)
  {
    if xs == [] {
      assert xs + ys == ys;
    } else {
      assert (xs + ys)[1..] == xs[1..] + ys;
      FilterConcat(xs[1..], ys, p);
      var head := if p(xs[0]) then [xs[0]] else [];
      var a, b := Filter(xs[1..], p), Filter(ys, p);
      assert Filter(xs + ys, p) == head + (a + b) == (head + a) + b;
    }
  }

  lemma FilterAppend<T>(xs: seq<T>, y: T, p: T -> bool)
    ensures Filter(xs + [y], p) == if p(y) then Filter(xs, p) + [y] else Filter(xs, p)
  {
    FilterConcat(xs, [y], p);
    assert Filter(xs, p) + [] == Filter(xs, p);
  }

  lemma {:induction false} FilterHas<T>(xs: seq<T>, p: T -> bool)
    ensures forall x :: x in Filter(xs, p) <==> x in xs && p(x)
  {
    if xs == [] {
    } else {
      FilterHas(xs[1..], p);
      assert xs == [xs[0]] + xs[1..];
    }
  }
}
