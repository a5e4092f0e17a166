/** Sequence helpers shared by the stores and the list pages: `Array.prototype.filter`,
    `findIndex` and `splice(index, 1)`. */
module Seqs {

  /** `xs.filter(p)`: the elements satisfying `p`, in their original order. */
  function Filter<T>(xs: seq<T>, p: T -> bool): (r: seq<T>)
    ensures |r| <= |xs|
    ensures forall i :: 0 <= i < |r| ==> r[i] in xs && p(r[i])
    ensures forall i :: 0 <= i < |xs| && p(xs[i]) ==> xs[i] in r
  {
    if xs == [] then [] else (if p(xs[0]) then [xs[0]] else []) + Filter(xs[1..], p)
  }

  /** One optional `filter` step: the sequence unchanged when off, exactly the passing
      elements when on. */
  function FilterIf<T(!new)>(xs: seq<T>, on: bool, p: T -> bool): (r: seq<T>)
    ensures !on ==> r == xs
    ensures on ==> forall x :: x in r <==> x in xs && p(x)
  {
    if on then Filter(xs, p) else xs
  }

  /** A one-element sequence is kept or dropped whole. */
  lemma FilterSingleton<T>(x: T, p: T -> bool)
    ensures Filter([x], p) == if p(x) then [x] else []
  {
    assert [x][1..] == [];
  }

  /** Filtering a concatenation filters each part: the kept elements keep their order. */
  lemma {:induction false} FilterAppend<T>(xs: seq<T>, ys: seq<T>, p: T -> bool)
    ensures Filter(xs + ys, p) == Filter(xs, p) + Filter(ys, p)
  {
    if xs == [] {
      assert xs + ys == ys;
    } else {
      assert (xs + ys)[1..] == xs[1..] + ys;
      FilterAppend(xs[1..], ys, p);
    }
  }

  /** A filter that keeps everything is the identity. */
  lemma {:induction false} FilterAll<T>(xs: seq<T>, p: T -> bool)
    requires forall i :: 0 <= i < |xs| ==> p(xs[i])
    ensures Filter(xs, p) == xs
  {
    if xs != [] {
      FilterAll(xs[1..], p);
    }
  }

  /** Filtering drops an element `p` rejects from between two runs that `p` keeps whole. */
  lemma FilterDropsMiddle<T>(xs: seq<T>, x: T, ys: seq<T>, p: T -> bool)
    requires forall i :: 0 <= i < |xs| ==> p(xs[i])
    requires forall i :: 0 <= i < |ys| ==> p(ys[i])
    requires !p(x)
    ensures Filter(xs + [x] + ys, p) == xs + ys
  {
    FilterAll(xs, p);
    FilterAll(ys, p);
    FilterSingleton(x, p);
    FilterAppend(xs, [x], p);
    assert xs + [] == xs;
    FilterAppend(xs + [x], ys, p);
  }

  /** Filtering twice with predicates `p` then `q` is filtering once with their conjunction. */
  lemma {:induction false} FilterFilter<T>(xs: seq<T>, p: T -> bool, q: T -> bool)
    ensures Filter(Filter(xs, p), q) == Filter(xs, x => p(x) && q(x))
  {
    if xs != [] {
      FilterFilter(xs[1..], p, q);
      var head := if p(xs[0]) then [xs[0]] else [];
      FilterAppend(head, Filter(xs[1..], p), q);
    }
  }

  /** `xs.findIndex(p)`: the first index satisfying `p`, or -1. */
  function FindIndex<T>(xs: seq<T>, p: T -> bool): (r: int)
    ensures -1 <= r < |xs|
    ensures r == -1 <==> forall i :: 0 <= i < |xs| ==> !p(xs[i])
    ensures r >= 0 ==> p(xs[r]) && forall i :: 0 <= i < r ==> !p(xs[i])
  {
    if xs == [] then -1
    else if p(xs[0]) then 0
    else var k := FindIndex(xs[1..], p); if k == -1 then -1 else k + 1
  }

  /** `xs.splice(i, 1)` as a value: the sequence without position `i`. */
  function RemoveAt<T>(xs: seq<T>, i: nat): (r: seq<T>)
    requires i < |xs|
    ensures |r| == |xs| - 1
    ensures forall j :: 0 <= j < i ==> r[j] == xs[j]
    ensures forall j :: i <= j < |r| ==> r[j] == xs[j + 1]
  {
    xs[..i] + xs[i + 1..]
  }

  /** A filter that rejects exactly one position removes that position. */
  lemma FilterRemovesOne<T>(xs: seq<T>, i: nat, p: T -> bool)
    requires i < |xs| && !p(xs[i])
    requires forall k :: 0 <= k < |xs| && k != i ==> p(xs[k])
    ensures Filter(xs, p) == RemoveAt(xs, i)
  {
    var before, after := xs[..i], xs[i + 1..];
    assert xs == before + [xs[i]] + after;
    assert forall k :: 0 <= k < |after| ==> after[k] == xs[i + 1 + k];
    FilterDropsMiddle(before, xs[i], after, p);
  }
}
