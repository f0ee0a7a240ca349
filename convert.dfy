/**
 * The strided conversion loop of imgcodec (util/convert.h): a recursion over the
 * dimensions that applies an element functor at every position of a size box, the
 * colour-space functor that loads and stores strided channels, and the dispatch
 * on the pair of image formats.
 *
 * Pointers are offsets: `out` is the whole output buffer and `o` the offset the
 * source's `out` pointer has in it; the input is read-only and addressed the same way.
 */
module ImageConvert {
  import opened Wrappers
  import opened DaliTypes

  // ---- Element functors ----

  /** The functor `func` that Convert applies at each position. */
  datatype Functor =
      /** ConvertDType: *out = ConvertSatNorm(*in); the saturating conversion is a parameter. */
    | ConvertDType(conv: int -> int)
      /**
       * ConvertColorSpace: load nIn channels, apply the colour function (channel c of
       * its result is func(v, c)), store nOut channels; channel c sits c strides away.
       */
    | ColorSpace(func: (seq<int>, nat) -> int, nIn: nat, nOut: nat, outChannelStride: int, inChannelStride: int)

  /** The position of channel c, `c` channel strides from `base`. */
  function Chan(base: int, c: int, stride: int): int {
    base + c * stride
  }

  /** Every channel position a functor touches at output offset o and input offset i lies inside the buffers. */
  predicate Fits(outLen: nat, inLen: nat, o: int, i: int, fn: Functor) {
    match fn
    case ConvertDType(_) => 0 <= o < outLen && 0 <= i < inLen
    case ColorSpace(_, nIn, nOut, ocs, ics) =>
      (forall c :: 0 <= c < nOut ==> 0 <= Chan(o, c, ocs) < outLen) &&
      (forall c :: 0 <= c < nIn ==> 0 <= Chan(i, c, ics) < inLen)
  }

  /** The channels a vector load reads. */
  function Load(input: seq<int>, i: int, ics: int, n: nat): (v: seq<int>)
    requires forall c :: 0 <= c < n ==> 0 <= Chan(i, c, ics) < |input|
  {
    seq(n, c requires 0 <= c < n => input[Chan(i, c, ics)])
  }

  /** A vector store: channel c of `vals` goes to Chan(o, c, ocs), in increasing c. */
  function StoreN(s: seq<int>, o: int, ocs: int, vals: seq<int>): (r: seq<int>)
    requires forall c :: 0 <= c < |vals| ==> 0 <= Chan(o, c, ocs) < |s|
    ensures |r| == |s|
    decreases |vals|
  {
    if vals == [] then s
    else StoreN(s, o, ocs, vals[..|vals| - 1])[Chan(o, |vals| - 1, ocs) := vals[|vals| - 1]]
  }

  /** The output buffer after one application of the functor at output offset o and input offset i. */
  function Apply(s: seq<int>, o: int, input: seq<int>, i: int, fn: Functor): (r: seq<int>)
    requires Fits(|s|, |input|, o, i, fn)
    ensures |r| == |s|
  {
    match fn
    case ConvertDType(conv) => s[o := conv(input[i])]
    case ColorSpace(f, nIn, nOut, ocs, ics) =>
      var v := Load(input, i, ics, nIn);
      StoreN(s, o, ocs, seq(nOut, c requires 0 <= c < nOut => f(v, c)))
  }

  /** load (vector form): target[c] = in[c * in_channel_stride]. */
  method LoadChannels(input: seq<int>, i: int, ics: int, n: nat) returns (v: seq<int>)
    requires forall c :: 0 <= c < n ==> 0 <= Chan(i, c, ics) < |input|
    ensures |v| == n && forall c :: 0 <= c < n ==> v[c] == input[Chan(i, c, ics)]
    ensures v == Load(input, i, ics, n)
  {
    v := [];
    for c := 0 to n
      invariant |v| == c && forall k :: 0 <= k < c ==> v[k] == input[Chan(i, k, ics)]
    {
      v := v + [input[Chan(i, c, ics)]];
    }
  }

  /** store (vector form): out[c * out_channel_stride] = source[c]. */
  method StoreChannels(out: array<int>, o: int, ocs: int, vals: seq<int>)
    requires forall c :: 0 <= c < |vals| ==> 0 <= Chan(o, c, ocs) < out.Length
    modifies out
    ensures out[..] == StoreN(old(out[..]), o, ocs, vals)
  {
    for c := 0 to |vals|
      invariant out[..] == StoreN(old(out[..]), o, ocs, vals[..c])
    {
      assert vals[..c + 1][..c] == vals[..c];
      out[Chan(o, c, ocs)] := vals[c];
    }
    assert vals[..|vals|] == vals;
  }

  /** What a store leaves behind: each channel written, every other position untouched. */
  lemma {:induction false} StoreEffect(s: seq<int>, o: int, ocs: int, vals: seq<int>, p: int)
    requires forall c :: 0 <= c < |vals| ==> 0 <= Chan(o, c, ocs) < |s|
    requires 0 <= p < |s|
    ensures (forall c :: 0 <= c < |vals| ==> Chan(o, c, ocs) != p) ==> StoreN(s, o, ocs, vals)[p] == s[p]
    ensures ocs != 0 ==> forall c :: 0 <= c < |vals| && Chan(o, c, ocs) == p ==> StoreN(s, o, ocs, vals)[p] == vals[c]
    decreases |vals|
  {
    if vals != [] {
      var n := |vals| - 1;
      var front := vals[..n];
      var prev := StoreN(s, o, ocs, front);
      assert StoreN(s, o, ocs, vals) == prev[Chan(o, n, ocs) := vals[n]];
      StoreEffect(s, o, ocs, front, p);
      if ocs != 0 {
        forall c | 0 <= c < n && Chan(o, c, ocs) == p
          ensures Chan(o, n, ocs) != p && prev[p] == vals[c]
        {
          ChanDistinct(o, c, n, ocs);
          assert front[c] == vals[c];
        }
      }
      if forall c :: 0 <= c < |vals| ==> Chan(o, c, ocs) != p {
        forall c | 0 <= c < |front| ensures Chan(o, c, ocs) != p {
          assert front[c] == vals[c];
        }
      }
    }
  }

  /** Distinct channels sit at distinct positions when the channel stride is not zero. */
  lemma ChanDistinct(base: int, c: int, d: int, stride: int)
    requires c != d && stride != 0
    ensures Chan(base, c, stride) != Chan(base, d, stride)
  {
    assert Chan(base, d, stride) - Chan(base, c, stride) == (d - c) * stride;
  }

  /** operator(): load the input channels, apply the function, store the output channels. */
  method ApplyFunctor(out: array<int>, o: int, input: seq<int>, i: int, fn: Functor)
    requires Fits(out.Length, |input|, o, i, fn)
    modifies out
    ensures out[..] == Apply(old(out[..]), o, input, i, fn)
  {
    match fn
    case ConvertDType(conv) =>
      out[o] := conv(input[i]);
    case ColorSpace(f, nIn, nOut, ocs, ics) =>
      var v := LoadChannels(input, i, ics, nIn);
      var result := seq(nOut, c requires 0 <= c < nOut => f(v, c));
      StoreChannels(out, o, ocs, result);
  }

  // ---- The strided recursion ----

  /** An (output offset, input offset) pair at which the functor is applied. */
  type Visit = (int, int)

  /**
   * The visits Convert makes from the bases o and i, in order: one at the bases when
   * no dimension is left, otherwise one pass over the inner dimensions per index of the
   * outer one.
   */
  function Visits(o: int, i: int, size: Shape, os: seq<int>, ins: seq<int>): (r: seq<Visit>)
    requires |os| == |size| && |ins| == |size|
    decreases |size|, 1, 0
  {
    if |size| == 0 then [(o, i)] else Rows(o, i, size, os, ins, size[0])
  }

  /** The visits of the first n iterations of the outermost loop. */
  function Rows(o: int, i: int, size: Shape, os: seq<int>, ins: seq<int>, n: nat): (r: seq<Visit>)
    requires |size| > 0 && |os| == |size| && |ins| == |size|
    decreases |size|, 0, n
  {
    if n == 0 then []
    else Rows(o, i, size, os, ins, n - 1) + Visits(o + (n - 1) * os[0], i + (n - 1) * ins[0], size[1..], os[1..], ins[1..])
  }

  /** Every visit fits the buffers. */
  predicate AllFit(outLen: nat, inLen: nat, vs: seq<Visit>, fn: Functor) {
    forall k :: 0 <= k < |vs| ==> Fits(outLen, inLen, vs[k].0, vs[k].1, fn)
  }

  /** The output buffer after the functor was applied at every visit, in order. */
  function RunAll(s: seq<int>, input: seq<int>, vs: seq<Visit>, fn: Functor): (r: seq<int>)
    requires AllFit(|s|, |input|, vs, fn)
    ensures |r| == |s|
    decreases |vs|
  {
    if vs == [] then s
    else
      var last := vs[|vs| - 1];
      Apply(RunAll(s, input, vs[..|vs| - 1], fn), last.0, input, last.1, fn)
  }

  lemma AllFitAppend(outLen: nat, inLen: nat, a: seq<Visit>, b: seq<Visit>, fn: Functor)
    requires AllFit(outLen, inLen, a + b, fn)
    ensures AllFit(outLen, inLen, a, fn) && AllFit(outLen, inLen, b, fn)
  {
    forall k | 0 <= k < |a| ensures Fits(outLen, inLen, a[k].0, a[k].1, fn) {
      assert (a + b)[k] == a[k];
    }
    forall k | 0 <= k < |b| ensures Fits(outLen, inLen, b[k].0, b[k].1, fn) {
      assert (a + b)[|a| + k] == b[k];
    }
  }

  /** Running two lists of visits one after the other is running their concatenation. */
  lemma {:induction false} RunAllAppend(s: seq<int>, input: seq<int>, a: seq<Visit>, b: seq<Visit>, fn: Functor)
    requires AllFit(|s|, |input|, a + b, fn)
    ensures AllFit(|s|, |input|, a, fn) && AllFit(|s|, |input|, b, fn)
    ensures RunAll(s, input, a + b, fn) == RunAll(RunAll(s, input, a, fn), input, b, fn)
    decreases |b|
  {
    AllFitAppend(|s|, |input|, a, b, fn);
    if b == [] {
      assert a + b == a;
    } else {
      var b' := b[..|b| - 1];
      assert (a + b)[..|a + b| - 1] == a + b';
      assert b == b' + [b[|b| - 1]];
      AllFitAppend(|s|, |input|, b', [b[|b| - 1]], fn);
      RunAllAppend(s, input, a, b', fn);
    }
  }

  /** One more iteration of the outermost loop runs the inner visits at index k after the state so far. */
  lemma RowsStep(s: seq<int>, input: seq<int>, o: int, i: int, size: Shape, os: seq<int>, ins: seq<int>, k: nat, fn: Functor)
    requires |size| > 0 && |os| == |size| && |ins| == |size|
    requires AllFit(|s|, |input|, Rows(o, i, size, os, ins, k + 1), fn)
    ensures AllFit(|s|, |input|, Rows(o, i, size, os, ins, k), fn)
    ensures AllFit(|s|, |input|, Visits(o + k * os[0], i + k * ins[0], size[1..], os[1..], ins[1..]), fn)
    ensures RunAll(s, input, Rows(o, i, size, os, ins, k + 1), fn) ==
            RunAll(RunAll(s, input, Rows(o, i, size, os, ins, k), fn), input,
                   Visits(o + k * os[0], i + k * ins[0], size[1..], os[1..], ins[1..]), fn)
  {
    RunAllAppend(s, input, Rows(o, i, size, os, ins, k), Visits(o + k * os[0], i + k * ins[0], size[1..], os[1..], ins[1..]), fn);
  }

  /** The later iterations of the outermost loop only add visits. */
  lemma {:induction false} RowsFit(outLen: nat, inLen: nat, o: int, i: int, size: Shape, os: seq<int>, ins: seq<int>, k: nat, fn: Functor)
    requires |size| > 0 && |os| == |size| && |ins| == |size|
    requires k <= size[0] && AllFit(outLen, inLen, Visits(o, i, size, os, ins), fn)
    ensures AllFit(outLen, inLen, Rows(o, i, size, os, ins, k), fn)
    decreases size[0] - k
  {
    if k < size[0] {
      RowsFit(outLen, inLen, o, i, size, os, ins, k + 1, fn);
      AllFitAppend(outLen, inLen, Rows(o, i, size, os, ins, k),
                   Visits(o + k * os[0], i + k * ins[0], size[1..], os[1..], ins[1..]), fn);
    }
  }

  /**
   * Convert<static_ndim>: with no dimension left apply the functor once, with one
   * dimension apply it at each index of that dimension, and otherwise recurse over the
   * outer dimension. The output is the functor applied at every visit, in order.
   */
  method ConvertStrided(out: array<int>, o: int, outStrides: seq<int>, input: seq<int>, i: int, inStrides: seq<int>,
                        size: Shape, fn: Functor)
    requires |outStrides| == |size| && |inStrides| == |size|
    requires AllFit(out.Length, |input|, Visits(o, i, size, outStrides, inStrides), fn)
    modifies out
    ensures out[..] == RunAll(old(out[..]), input, Visits(o, i, size, outStrides, inStrides), fn)
    decreases |size|, 1
  {
    if |size| == 0 {
      SingleVisit(out[..], input, o, i, fn);
      ApplyFunctor(out, o, input, i, fn);
    } else {
      ConvertOuter(out, o, outStrides, input, i, inStrides, size, fn);
    }
  }

  /**
   * The loop over the outermost dimension: at index k the inner dimensions are
   * converted from the bases moved by k strides (for one dimension that is a single
   * application of the functor).
   */
  method ConvertOuter(out: array<int>, o: int, outStrides: seq<int>, input: seq<int>, i: int, inStrides: seq<int>,
                      size: Shape, fn: Functor)
    requires |size| > 0 && |outStrides| == |size| && |inStrides| == |size|
    requires AllFit(out.Length, |input|, Visits(o, i, size, outStrides, inStrides), fn)
    modifies out
    ensures out[..] == RunAll(old(out[..]), input, Visits(o, i, size, outStrides, inStrides), fn)
    decreases |size|, 0
  {
    var extent, outStride, inStride := size[0], outStrides[0], inStrides[0];
    ghost var s0 := out[..];
    for k := 0 to extent
      invariant AllFit(out.Length, |input|, Rows(o, i, size, outStrides, inStrides, k), fn)
      invariant out[..] == RunAll(s0, input, Rows(o, i, size, outStrides, inStrides, k), fn)
    {
      RowsFit(out.Length, |input|, o, i, size, outStrides, inStrides, k + 1, fn);
      RowsStep(s0, input, o, i, size, outStrides, inStrides, k, fn);
      var ok, ik := o + k * outStride, i + k * inStride;
      if |size| == 1 {
        SingleVisit(out[..], input, ok, ik, fn);
        ApplyFunctor(out, ok, input, ik, fn);
      } else {
        ConvertStrided(out, ok, outStrides[1..], input, ik, inStrides[1..], size[1..], fn);
      }
    }
  }

  /** With no dimension left there is exactly one visit, at the bases themselves. */
  lemma SingleVisit(s: seq<int>, input: seq<int>, o: int, i: int, fn: Functor)
    requires AllFit(|s|, |input|, Visits(o, i, [], [], []), fn)
    ensures Fits(|s|, |input|, o, i, fn)
    ensures RunAll(s, input, Visits(o, i, [], [], []), fn) == Apply(s, o, input, i, fn)
  {
    var vs := Visits(o, i, [], [], []);
    assert vs[0] == (o, i) && vs[..0] == [];
  }

  // ---- The visits enumerate the size box in row-major order ----

  /** A multi-index is inside the box `size`. */
  predicate InBox(idx: seq<nat>, size: Shape) {
    |idx| == |size| && forall d :: 0 <= d < |idx| ==> idx[d] < size[d]
  }

  /** The sub-indices with x put in front. */
  function Prefixed(x: nat, sub: seq<seq<nat>>): (r: seq<seq<nat>>)
    ensures |r| == |sub|
    ensures forall k :: 0 <= k < |sub| ==> r[k] == [x] + sub[k]
  {
    seq(|sub|, k requires 0 <= k < |sub| => [x] + sub[k])
  }

  /** The sub-indices behind every first index below n, first index outermost. */
  function Blocks(sub: seq<seq<nat>>, n: nat): (r: seq<seq<nat>>)
    ensures |r| == n * |sub|
  {
    if n == 0 then [] else Blocks(sub, n - 1) + Prefixed(n - 1, sub)
  }

  /** The multi-indices of the box in row-major (lexicographic) order. */
  function MultiIndices(size: Shape): seq<seq<nat>>
    decreases |size|
  {
    if |size| == 0 then [[]] else Blocks(MultiIndices(size[1..]), size[0])
  }

  /** The linear offset of a multi-index under the given strides. */
  function Offset(idx: seq<nat>, strides: seq<int>): int
    requires |idx| == |strides|
  {
    if |idx| == 0 then 0 else idx[0] * strides[0] + Offset(idx[1..], strides[1..])
  }

  /** There are as many multi-indices as the volume of the box. */
  lemma {:induction false} MultiIndicesCount(size: Shape)
    ensures |MultiIndices(size)| == Volume(size)
    decreases |size|
  {
    if |size| > 0 {
      MultiIndicesCount(size[1..]);
    }
  }

  lemma {:induction false} BlocksMember(sub: seq<seq<nat>>, n: nat, idx: seq<nat>)
    ensures idx in Blocks(sub, n) <==> |idx| > 0 && idx[0] < n && idx[1..] in sub
  {
    if n > 0 {
      BlocksMember(sub, n - 1, idx);
      var pre := Prefixed(n - 1, sub);
      if idx in pre {
        var k :| 0 <= k < |pre| && pre[k] == idx;
        assert idx[1..] == sub[k];
      }
      if |idx| > 0 && idx[0] == n - 1 && idx[1..] in sub {
        var k :| 0 <= k < |sub| && sub[k] == idx[1..];
        assert pre[k] == idx;
      }
    }
  }

  /** The multi-indices are exactly the points of the box. */
  lemma {:induction false} MultiIndicesMember(size: Shape, idx: seq<nat>)
    ensures idx in MultiIndices(size) <==> InBox(idx, size)
    decreases |size|
  {
    if |size| > 0 {
      BlocksMember(MultiIndices(size[1..]), size[0], idx);
      if |idx| > 0 {
        MultiIndicesMember(size[1..], idx[1..]);
        if InBox(idx[1..], size[1..]) && idx[0] < size[0] {
          forall d | 0 <= d < |idx| ensures idx[d] < size[d] {
            if d > 0 {
              assert idx[1..][d - 1] == idx[d];
            }
          }
        }
        if InBox(idx, size) {
          forall d | 0 <= d < |idx| - 1 ensures idx[1..][d] < size[1..][d] {
            assert idx[1..][d] == idx[d + 1];
          }
        }
      }
    } else {
      assert idx in [[]] <==> idx == [];
    }
  }

  /** Strict lexicographic order on multi-indices of the same length. */
  predicate LexLess(a: seq<nat>, b: seq<nat>)
    requires |a| == |b|
  {
    |a| > 0 && (a[0] < b[0] || (a[0] == b[0] && LexLess(a[1..], b[1..])))
  }

  predicate Uniform(ms: seq<seq<nat>>, len: nat) {
    forall k :: 0 <= k < |ms| ==> |ms[k]| == len
  }

  predicate LexSorted(ms: seq<seq<nat>>, len: nat)
    requires Uniform(ms, len)
  {
    forall p, q :: 0 <= p < q < |ms| ==> LexLess(ms[p], ms[q])
  }

  lemma {:induction false} BlocksSorted(sub: seq<seq<nat>>, len: nat, n: nat)
    requires Uniform(sub, len) && LexSorted(sub, len)
    ensures Uniform(Blocks(sub, n), len + 1) && LexSorted(Blocks(sub, n), len + 1)
    ensures forall k :: 0 <= k < |Blocks(sub, n)| ==> Blocks(sub, n)[k][0] < n
  {
    if n > 0 {
      var front := Blocks(sub, n - 1);
      var pre := Prefixed(n - 1, sub);
      var all := Blocks(sub, n);
      BlocksSorted(sub, len, n - 1);
      forall k | 0 <= k < |all|
        ensures |all[k]| == len + 1 && all[k][0] < n
      {
        if k < |front| {
          assert all[k] == front[k];
        } else {
          assert all[k] == pre[k - |front|];
        }
      }
      forall p, q | 0 <= p < q < |all|
        ensures LexLess(all[p], all[q])
      {
        if q < |front| {
          assert all[p] == front[p] && all[q] == front[q];
        } else if p < |front| {
          assert all[p] == front[p] && all[q] == pre[q - |front|];
        } else {
          var a, b := p - |front|, q - |front|;
          assert all[p] == pre[a] && all[q] == pre[b];
          assert all[p][1..] == sub[a] && all[q][1..] == sub[b];
        }
      }
    }
  }

  /** The multi-indices come in strictly increasing lexicographic order, so none repeats. */
  lemma {:induction false} MultiIndicesSorted(size: Shape)
    ensures Uniform(MultiIndices(size), |size|) && LexSorted(MultiIndices(size), |size|)
    decreases |size|
  {
    if |size| > 0 {
      MultiIndicesSorted(size[1..]);
      BlocksSorted(MultiIndices(size[1..]), |size| - 1, size[0]);
    }
  }

  lemma {:induction false} LexLessIrreflexive(a: seq<nat>)
    ensures !LexLess(a, a)
  {
    if |a| > 0 {
      LexLessIrreflexive(a[1..]);
    }
  }

  /** Each point of the box appears once. */
  lemma MultiIndicesDistinct(size: Shape)
    ensures forall p, q :: 0 <= p < q < |MultiIndices(size)| ==> MultiIndices(size)[p] != MultiIndices(size)[q]
  {
    MultiIndicesSorted(size);
    forall p, q | 0 <= p < q < |MultiIndices(size)|
      ensures MultiIndices(size)[p] != MultiIndices(size)[q]
    {
      LexLessIrreflexive(MultiIndices(size)[p]);
    }
  }

  /** The offset of x followed by a sub-index: x outer strides plus the sub-index's offset. */
  lemma OffsetPrefixed(x: nat, idx: seq<nat>, strides: seq<int>)
    requires |strides| == |idx| + 1
    ensures Offset([x] + idx, strides) == x * strides[0] + Offset(idx, strides[1..])
  {
    assert ([x] + idx)[1..] == idx;
  }

  /**
   * The k-th visit of Convert is the k-th point of the box in row-major order, at the
   * bases moved by that point's offset under the output and input strides.
   */
  lemma {:induction false} VisitsAreIndices(o: int, i: int, size: Shape, os: seq<int>, ins: seq<int>)
    requires |os| == |size| && |ins| == |size|
    ensures |Visits(o, i, size, os, ins)| == |MultiIndices(size)|
    ensures Uniform(MultiIndices(size), |size|)
    ensures forall k :: 0 <= k < |MultiIndices(size)| ==>
              Visits(o, i, size, os, ins)[k] == (o + Offset(MultiIndices(size)[k], os), i + Offset(MultiIndices(size)[k], ins))
    decreases |size|, 1
  {
    MultiIndicesSorted(size);
    if |size| > 0 {
      RowsAreIndices(o, i, size, os, ins, size[0]);
    }
  }

  lemma {:induction false} RowsAreIndices(o: int, i: int, size: Shape, os: seq<int>, ins: seq<int>, n: nat)
    requires |size| > 0 && |os| == |size| && |ins| == |size|
    ensures Uniform(MultiIndices(size[1..]), |size| - 1)
    ensures |Rows(o, i, size, os, ins, n)| == |Blocks(MultiIndices(size[1..]), n)|
    ensures Uniform(Blocks(MultiIndices(size[1..]), n), |size|)
    ensures forall k :: 0 <= k < |Rows(o, i, size, os, ins, n)| ==>
              Rows(o, i, size, os, ins, n)[k] ==
              (o + Offset(Blocks(MultiIndices(size[1..]), n)[k], os), i + Offset(Blocks(MultiIndices(size[1..]), n)[k], ins))
    decreases |size|, 0, n
  {
    var sub := MultiIndices(size[1..]);
    MultiIndicesSorted(size[1..]);
    BlocksSorted(sub, |size| - 1, n);
    if n > 0 {
      var x := n - 1;
      var front := Rows(o, i, size, os, ins, x);
      var bfront := Blocks(sub, x);
      var vs := Visits(o + x * os[0], i + x * ins[0], size[1..], os[1..], ins[1..]);
      var pre := Prefixed(x, sub);
      RowsAreIndices(o, i, size, os, ins, x);
      VisitsAreIndices(o + x * os[0], i + x * ins[0], size[1..], os[1..], ins[1..]);
      var rows := Rows(o, i, size, os, ins, n);
      var blocks := Blocks(sub, n);
      forall k | 0 <= k < |rows|
        ensures rows[k] == (o + Offset(blocks[k], os), i + Offset(blocks[k], ins))
      {
        if k < |front| {
          assert rows[k] == front[k] && blocks[k] == bfront[k];
        } else {
          var j := k - |front|;
          assert rows[k] == vs[j] && blocks[k] == pre[j];
          OffsetPrefixed(x, sub[j], os);
          OffsetPrefixed(x, sub[j], ins);
        }
      }
    }
  }

  // ---- Conversion between image formats ----

  /** DALIImageType, the colour format of an image. */
  datatype ImageFormat = RGB | BGR | Gray | YCbCr | XYZ | AnyData

  /** Which element conversion the format pair selects. */
  datatype Conversion = SameFormat | RgbToGray | GrayToRgb

  /**
   * The choice Convert makes before converting: only channels-last layouts, and only the
   * identity format change or RGB to and from grey; everything else is not implemented.
   */
  function SelectConversion(outChannelDim: int, outFormat: ImageFormat, inChannelDim: int, inFormat: ImageFormat,
                            ndim: int): (r: Result<Conversion>)
    ensures r.Ok? <==> outChannelDim == ndim - 1 && inChannelDim == ndim - 1 &&
                        (inFormat == outFormat || (inFormat == RGB && outFormat == Gray) || (inFormat == Gray && outFormat == RGB))
    ensures r.Ok? ==> (r.value == SameFormat <==> inFormat == outFormat)
    ensures r.Ok? ==> (r.value == RgbToGray <==> inFormat == RGB && outFormat == Gray)
    ensures r.Fail? ==> r.error == Unsupported
  {
    if !(outChannelDim == ndim - 1 && inChannelDim == ndim - 1) then Fail(Unsupported)
    else if inFormat == outFormat then Ok(SameFormat)
    else if inFormat == RGB && outFormat == Gray then Ok(RgbToGray)
    else if inFormat == Gray && outFormat == RGB then Ok(GrayToRgb)
    else Fail(Unsupported)
  }

  /**
   * The functor of a conversion: the saturating type conversion per element, or the
   * colour function over three channels in or three channels out, channel stride 1.
   */
  function FunctorFor(c: Conversion, satNorm: int -> int, rgbToGray: (seq<int>, nat) -> int,
                      grayToRgb: (seq<int>, nat) -> int): Functor
  {
    match c
    case SameFormat => ConvertDType(satNorm)
    case RgbToGray => ColorSpace(rgbToGray, 3, 1, 1, 1)
    case GrayToRgb => ColorSpace(grayToRgb, 1, 3, 1, 1)
  }

  /**
   * The number of dimensions the strided loop walks: all of them when only the type
   * changes, all but the channel dimension (which the colour functor walks) otherwise.
   */
  function LoopDims(c: Conversion, ndim: nat): (d: int)
    ensures c == SameFormat ==> d == ndim
    ensures c != SameFormat ==> d == ndim - 1
  {
    if c == SameFormat then ndim else ndim - 1
  }

  /**
   * Convert (format-aware): select the conversion, then run the strided loop over the
   * first LoopDims dimensions of the size and stride arrays with its functor.
   */
  method ConvertImage(out: array<int>, outStrides: seq<int>, outChannelDim: int, outFormat: ImageFormat,
                      input: seq<int>, inStrides: seq<int>, inChannelDim: int, inFormat: ImageFormat,
                      size: Shape, satNorm: int -> int, rgbToGray: (seq<int>, nat) -> int, grayToRgb: (seq<int>, nat) -> int)
      returns (r: Outcome)
    requires |outStrides| == |size| && |inStrides| == |size|
    requires var sel := SelectConversion(outChannelDim, outFormat, inChannelDim, inFormat, |size|);
             sel.Ok? ==> LoopDims(sel.value, |size|) >= 0
    requires var sel := SelectConversion(outChannelDim, outFormat, inChannelDim, inFormat, |size|);
             sel.Ok? && LoopDims(sel.value, |size|) >= 0 ==>
               var d := LoopDims(sel.value, |size|);
               AllFit(out.Length, |input|, Visits(0, 0, size[..d], outStrides[..d], inStrides[..d]),
                      FunctorFor(sel.value, satNorm, rgbToGray, grayToRgb))
    modifies out
    ensures var sel := SelectConversion(outChannelDim, outFormat, inChannelDim, inFormat, |size|);
            (r.Failure? <==> sel.Fail?) &&
            (r.Failure? ==> r.error == Unsupported && out[..] == old(out[..])) &&
            (r.Pass? ==> (LoopDims(sel.value, |size|) >= 0 &&
               var d := LoopDims(sel.value, |size|);
               out[..] == RunAll(old(out[..]), input, Visits(0, 0, size[..d], outStrides[..d], inStrides[..d]),
                                 FunctorFor(sel.value, satNorm, rgbToGray, grayToRgb))))
  {
    var sel := SelectConversion(outChannelDim, outFormat, inChannelDim, inFormat, |size|);
    if sel.Fail? {
      return Failure(sel.error);
    }
    var fn := FunctorFor(sel.value, satNorm, rgbToGray, grayToRgb);
    var d := LoopDims(sel.value, |size|);
    ConvertStrided(out, 0, outStrides[..d], input, 0, inStrides[..d], size[..d], fn);
    return Pass;
  }
}
