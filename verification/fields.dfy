/** Height-and-gradient fields over the surface lattice and their
    element-wise mean, the combination rule of the wave aggregator. */
module Fields {

  /** A surface gradient at one lattice point. */
  datatype Vec2 = Vec2(x: real, y: real) {
    function Plus(o: Vec2): Vec2 { Vec2(x + o.x, y + o.y) }
    /** Division of both components, as numpy divides an array by a count. */
    function Over(n: real): Vec2
      requires n != 0.0
    {
      Vec2(x / n, y / n)
    }
  }

  /** One height and one gradient per lattice point, in lattice order. */
  datatype Field = Field(height: seq<real>, grad: seq<Vec2>)

  /** f has exactly one height and one gradient per point of an n-point
      lattice. */
  predicate HasSize(f: Field, n: nat) {
    |f.height| == n && |f.grad| == n
  }

  predicate AllSized(fs: seq<Field>, n: nat) {
    forall i :: 0 <= i < |fs| ==> HasSize(fs[i], n)
  }

  /** The sum over fs of the height at lattice point k. */
  function HeightSum(fs: seq<Field>, n: nat, k: nat): (total: real)
    requires AllSized(fs, n) && k < n
  {
    if fs == [] then 0.0 else HeightSum(fs[..|fs| - 1], n, k) + fs[|fs| - 1].height[k]
  }

  /** The sum over fs of the gradient at lattice point k. */
  function GradSum(fs: seq<Field>, n: nat, k: nat): (total: Vec2)
    requires AllSized(fs, n) && k < n
  {
    if fs == [] then Vec2(0.0, 0.0) else GradSum(fs[..|fs| - 1], n, k).Plus(fs[|fs| - 1].grad[k])
  }

  /** The element-wise mean of a non-empty list of fields: at every lattice
      point, the sum of the heights and of the gradients divided by the
      number of fields. */
  function Mean(fs: seq<Field>, n: nat): (m: Field)
    requires fs != [] && AllSized(fs, n)
    ensures HasSize(m, n)
  {
    var count := |fs| as real;
    Field(seq(n, k requires 0 <= k < n => HeightSum(fs, n, k) / count),
          seq(n, k requires 0 <= k < n => GradSum(fs, n, k).Over(count)))
  }

  /** Element-wise sum of two height arrays (numpy's +=). */
  function AddHeights(a: seq<real>, b: seq<real>): (r: seq<real>)
    requires |a| == |b|
  {
    seq(|a|, k requires 0 <= k < |a| => a[k] + b[k])
  }

  /** Element-wise sum of two gradient arrays. */
  function AddGrads(a: seq<Vec2>, b: seq<Vec2>): (r: seq<Vec2>)
    requires |a| == |b|
  {
    seq(|a|, k requires 0 <= k < |a| => a[k].Plus(b[k]))
  }

  /** Adding one more field into running totals of fs gives the totals of
      fs followed by that field: the accumulation step of the aggregator. */
  lemma AddingAFieldExtendsTheSums(fs: seq<Field>, f: Field, n: nat, heights: seq<real>, grads: seq<Vec2>)
    requires AllSized(fs, n) && HasSize(f, n)
    requires |heights| == n && forall k :: 0 <= k < n ==> heights[k] == HeightSum(fs, n, k)
    requires |grads| == n && forall k :: 0 <= k < n ==> grads[k] == GradSum(fs, n, k)
    ensures AllSized(fs + [f], n)
    ensures |AddHeights(heights, f.height)| == n && |AddGrads(grads, f.grad)| == n
    ensures forall k :: 0 <= k < n ==> AddHeights(heights, f.height)[k] == HeightSum(fs + [f], n, k)
    ensures forall k :: 0 <= k < n ==> AddGrads(grads, f.grad)[k] == GradSum(fs + [f], n, k)
  {
    assert (fs + [f])[..|fs|] == fs;
  }

  lemma {:induction false} HeightSumBounds(fs: seq<Field>, n: nat, k: nat, lo: real, hi: real)
    requires AllSized(fs, n) && k < n
    requires forall i :: 0 <= i < |fs| ==> lo <= fs[i].height[k] <= hi
    ensures |fs| as real * lo <= HeightSum(fs, n, k) <= |fs| as real * hi
  {
    if fs != [] {
      HeightSumBounds(fs[..|fs| - 1], n, k, lo, hi);
    }
  }

  /** Averaging keeps the combined height within the range of the
      sources' heights, however many sources there are. */
  lemma MeanHeightBounded(fs: seq<Field>, n: nat, k: nat, lo: real, hi: real)
    requires fs != [] && AllSized(fs, n) && k < n
    requires forall i :: 0 <= i < |fs| ==> lo <= fs[i].height[k] <= hi
    ensures lo <= Mean(fs, n).height[k] <= hi
  {
    HeightSumBounds(fs, n, k, lo, hi);
    var c := |fs| as real;
    var sum := HeightSum(fs, n, k);
    assert Mean(fs, n).height[k] == sum / c;
    QuotientBounds(sum, c, lo, hi);
  }

  /** Dividing by a positive count keeps a bound scaled by that count. */
  lemma QuotientBounds(s: real, c: real, lo: real, hi: real)
    requires c > 0.0 && c * lo <= s <= c * hi
    ensures lo <= s / c <= hi
  {
    var q := s / c;
    assert q * c == s;
  }

  lemma {:induction false} SumOfCopies(fs: seq<Field>, f: Field, n: nat, k: nat)
    requires AllSized(fs, n) && HasSize(f, n) && k < n
    requires forall i :: 0 <= i < |fs| ==> fs[i] == f
    ensures HeightSum(fs, n, k) == |fs| as real * f.height[k]
    ensures GradSum(fs, n, k) == Vec2(|fs| as real * f.grad[k].x, |fs| as real * f.grad[k].y)
  {
    if fs != [] {
      SumOfCopies(fs[..|fs| - 1], f, n, k);
    }
  }

  /** Sources that all report the same field average to that field; in
      particular a single source passes through unchanged. */
  lemma MeanOfCopies(fs: seq<Field>, f: Field, n: nat)
    requires fs != [] && AllSized(fs, n) && HasSize(f, n)
    requires forall i :: 0 <= i < |fs| ==> fs[i] == f
    ensures Mean(fs, n) == f
  {
    var m := Mean(fs, n);
    var c := |fs| as real;
    forall k | 0 <= k < n
      ensures m.height[k] == f.height[k] && m.grad[k] == f.grad[k]
    {
      SumOfCopies(fs, f, n, k);
      assert (c * f.height[k]) / c == f.height[k];
      assert (c * f.grad[k].x) / c == f.grad[k].x;
      assert (c * f.grad[k].y) / c == f.grad[k].y;
    }
  }
}
