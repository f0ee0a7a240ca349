/**
 * TensorVector (dali/pipeline/data/tensor_vector.cc): a batch held either as one flat
 * block whose slices the samples alias (state contiguous) or as independent samples
 * (state noncontiguous). `viewsCount` counts the samples that alias the block; every
 * such sample carries a ViewRefDeleter whose release is the method ReleaseView.
 *
 * The class keeps the count equal to the number of live views at every step. The source
 * assigns the count before the old views are released; UpdateViewsAsWritten models that
 * order and shows what it does to IsContiguous. ShareDataBatchAsWritten models the
 * source's ShareData(TensorVector), which zeroes the count first.
 */
module TensorVectors {
  import opened Wrappers
  import opened DaliTypes
  import opened Batch

  datatype State = Contiguous | Noncontiguous

  // ---- Counting views ----

  /** The number of samples that carry this batch's ViewRefDeleter. */
  function CountViews(ts: seq<Tensor>): (n: nat)
    ensures n <= |ts|
  {
    if ts == [] then 0 else CountViews(ts[..|ts| - 1]) + (if ts[|ts| - 1].view then 1 else 0)
  }

  /** Replacing one sample changes the count by what that sample dropped and took. */
  lemma {:induction false} CountViewsUpdate(ts: seq<Tensor>, i: nat, t: Tensor)
    requires i < |ts|
    ensures CountViews(ts[i := t]) == CountViews(ts) - (if ts[i].view then 1 else 0) + (if t.view then 1 else 0)
    decreases |ts|
  {
    var last := |ts| - 1;
    if i == last {
      assert ts[i := t][..last] == ts[..last];
    } else {
      assert ts[i := t][..last] == ts[..last][i := t];
      CountViewsUpdate(ts[..last], i, t);
    }
  }

  /** Counting one more sample of a prefix. */
  lemma CountViewsStep(ts: seq<Tensor>, j: nat)
    requires j < |ts|
    ensures CountViews(ts[..j + 1]) == CountViews(ts[..j]) + (if ts[j].view then 1 else 0)
  {
    assert ts[..j + 1][..j] == ts[..j];
  }

  /** Appending a sample that is no view leaves the count alone. */
  lemma CountViewsAppend(ts: seq<Tensor>, t: Tensor)
    requires !t.view
    ensures CountViews(ts + [t]) == CountViews(ts)
  {
    assert (ts + [t])[..|ts|] == ts;
  }

  /** Samples past `n` that are no views do not count. */
  lemma {:induction false} CountViewsTail(ts: seq<Tensor>, n: nat)
    requires n <= |ts|
    requires forall i :: n <= i < |ts| ==> !ts[i].view
    ensures CountViews(ts) == CountViews(ts[..n])
    decreases |ts|
  {
    if |ts| == n {
      assert ts[..n] == ts;
    } else {
      var last := |ts| - 1;
      assert ts[..last][..n] == ts[..n];
      CountViewsTail(ts[..last], n);
    }
  }

  /** The count reaches the length exactly when every sample is a view. */
  lemma {:induction false} CountViewsAll(ts: seq<Tensor>)
    ensures CountViews(ts) == |ts| <==> forall i :: 0 <= i < |ts| ==> ts[i].view
    decreases |ts|
  {
    if ts != [] {
      var last := |ts| - 1;
      CountViewsAll(ts[..last]);
      if forall i :: 0 <= i < |ts| ==> ts[i].view {
        assert forall i :: 0 <= i < last ==> ts[..last][i].view by {
          forall i | 0 <= i < last ensures ts[..last][i].view {
            assert ts[..last][i] == ts[i];
          }
        }
      } else {
        var k :| 0 <= k < |ts| && !ts[k].view;
        if k < last {
          assert !ts[..last][k].view;
        }
      }
    }
  }

  /** With no views past `n`, the count is `n` exactly when the first `n` samples are all views. */
  lemma CountViewsFull(ts: seq<Tensor>, n: nat)
    requires n <= |ts|
    requires forall i :: n <= i < |ts| ==> !ts[i].view
    ensures CountViews(ts) == n <==> forall i :: 0 <= i < n ==> ts[i].view
  {
    CountViewsTail(ts, n);
    CountViewsAll(ts[..n]);
    assert forall i :: 0 <= i < n ==> ts[..n][i] == ts[i];
  }

  // ---- Specification of the sample vector ----

  /** `k` fresh samples with the given pinned flag. */
  function Fresh(k: nat, pinned: bool): (r: seq<Tensor>)
    ensures |r| == k && forall i :: 0 <= i < k ==> r[i] == NewTensor(pinned)
  {
    seq(k, _ => NewTensor(pinned))
  }

  /** Resizing a vector with no samples gives fresh samples only. */
  lemma ResizedFromEmpty(n: nat, pinned: bool)
    ensures ResizedTensors([], 0, n, pinned) == Fresh(n, pinned)
  {
    if n > 0 {
      assert [] + Fresh(n, pinned) == Fresh(n, pinned);
    }
  }

  /** The samples in [lo, hi) that share data reset, every other sample as it was. */
  function ResetShared(ts: seq<Tensor>, lo: nat, hi: nat): (r: seq<Tensor>)
    ensures |r| == |ts|
    ensures forall i :: 0 <= i < |ts| ==> r[i] == if lo <= i < hi && ts[i].sharesData then ResetTensor(ts[i]) else ts[i]
  {
    seq(|ts|, i requires 0 <= i < |ts| => if lo <= i < hi && ts[i].sharesData then ResetTensor(ts[i]) else ts[i])
  }

  lemma FreshStep(ts: seq<Tensor>, k: nat, pinned: bool)
    ensures ts + Fresh(k, pinned) + [NewTensor(pinned)] == ts + Fresh(k + 1, pinned)
  {
  }

  lemma ResetSharedStep(ts: seq<Tensor>, lo: nat, i: nat)
    requires lo <= i < |ts|
    ensures ResetShared(ts, lo, i + 1) ==
            if ts[i].sharesData then ResetShared(ts, lo, i)[i := ResetTensor(ts[i])] else ResetShared(ts, lo, i)
  {
  }

  /**
   * resize_tensors(n) on samples `ts` of which the first `curr` are in use: growing past
   * the vector appends fresh samples with the batch's pinned flag; shrinking resets the
   * trailing samples in use that share data; nothing else changes and the vector never shrinks.
   */
  function ResizedTensors(ts: seq<Tensor>, curr: nat, n: nat, pinned: bool): (r: seq<Tensor>)
    requires curr <= |ts|
    ensures |r| == if n > |ts| then n else |ts|
    ensures forall i :: 0 <= i < curr && i < n ==> r[i] == ts[i]
    ensures forall i :: n <= i < curr ==> r[i] == if ts[i].sharesData then ResetTensor(ts[i]) else ts[i]
    ensures forall i :: curr <= i < |ts| ==> r[i] == ts[i]
    ensures forall i :: |ts| <= i < |r| ==> r[i] == NewTensor(pinned)
  {
    if n > |ts| then ts + Fresh(n - |ts|, pinned)
    else if n < curr then ResetShared(ts, n, curr)
    else ts
  }

  /** resize_tensors creates no view: every view after it was a view before, at the same place. */
  lemma ResizedViews(ts: seq<Tensor>, curr: nat, n: nat, pinned: bool)
    requires curr <= |ts|
    ensures forall i :: 0 <= i < |ResizedTensors(ts, curr, n, pinned)| && ResizedTensors(ts, curr, n, pinned)[i].view ==>
              i < |ts| && ts[i].view
  {
  }

  /** Every sample of the block can become a view: it has storage or a shape other than {0}. */
  ghost predicate Viewable(tl: TensorList) {
    forall i :: 0 <= i < |tl.samples| ==> SliceOf(tl, i) != Null || tl.samples[i].shape != ResetShape
  }

  /**
   * update_view(i): sample `t` is reset and, unless the block's slice is null and the
   * shape empty, becomes a view of slice i with the block's shape, type and byte size
   * (volume times element size); it then takes the block's metadata for sample i.
   */
  function Viewed(t: Tensor, tl: TensorList, i: nat): (r: Tensor)
    requires i < |tl.samples| && IsValidType(tl.dtype)
    ensures r.meta == tl.samples[i].meta && r.dtype == tl.dtype && r.pinned == t.pinned
    ensures r.view <==> SliceOf(tl, i) != Null || tl.samples[i].shape != ResetShape
    ensures r.view ==> r.sharesData && r.data == SliceOf(tl, i) && r.shape == tl.samples[i].shape &&
                       r.capacity == Volume(r.shape) * SizeOf(tl.dtype)
  {
    var t0 := ResetTensor(t);
    var ptr := SliceOf(tl, i);
    var shape := tl.samples[i].shape;
    var t1 := if t0.data != ptr || t0.shape != shape
              then ViewTensor(t0, ptr, Bytes(shape, tl.dtype), shape, tl.dtype)
              else SetTensorType(t0, tl.dtype);
    t1.(meta := tl.samples[i].meta)
  }

  /** UpdateViews: the first `n` samples refreshed from the block, the rest untouched. */
  function Refreshed(ts: seq<Tensor>, tl: TensorList, n: nat): (r: seq<Tensor>)
    requires n <= |ts| && n <= |tl.samples| && IsValidType(tl.dtype)
    ensures |r| == |ts|
    ensures forall i :: 0 <= i < |ts| ==> r[i] == if i < n then Viewed(ts[i], tl, i) else ts[i]
  {
    seq(|ts|, i requires 0 <= i < |ts| => if i < n then Viewed(ts[i], tl, i) else ts[i])
  }

  lemma RefreshedStep(ts: seq<Tensor>, tl: TensorList, i: nat)
    requires i < |ts| && i < |tl.samples| && IsValidType(tl.dtype)
    ensures Refreshed(ts, tl, i + 1) == Refreshed(ts, tl, i)[i := Viewed(ts[i], tl, i)]
  {
  }

  /** set_type on the first `k` samples of the vector. */
  function TypedUpTo(ts: seq<Tensor>, dtype: DALIDataType, k: nat): (r: seq<Tensor>)
    requires k <= |ts|
    ensures |r| == |ts|
    ensures forall i :: 0 <= i < |ts| ==> r[i] == if i < k then SetTensorType(ts[i], dtype) else ts[i]
  {
    seq(|ts|, i requires 0 <= i < |ts| => if i < k then SetTensorType(ts[i], dtype) else ts[i])
  }

  lemma TypedStep(ts: seq<Tensor>, dtype: DALIDataType, k: nat)
    requires k < |ts|
    ensures TypedUpTo(ts, dtype, k + 1) == TypedUpTo(ts, dtype, k)[k := SetTensorType(ts[k], dtype)]
  {
  }

  /** Resize of each of the first `k` samples to its own shape. */
  function ResizedUpTo(ts: seq<Tensor>, shapes: seq<Shape>, dtype: DALIDataType, k: nat): (r: seq<Tensor>)
    requires k <= |ts| && k <= |shapes|
    ensures |r| == |ts|
    ensures forall i :: 0 <= i < |ts| ==> r[i] == if i < k then ResizeTensor(ts[i], shapes[i], dtype) else ts[i]
  {
    seq(|ts|, i requires 0 <= i < |ts| => if i < k then ResizeTensor(ts[i], shapes[i], dtype) else ts[i])
  }

  /** Resizing samples creates no view. */
  lemma ResizedUpToViews(ts: seq<Tensor>, shapes: seq<Shape>, dtype: DALIDataType, k: nat)
    requires k <= |ts| && k <= |shapes|
    ensures forall i :: 0 <= i < |ts| && ResizedUpTo(ts, shapes, dtype, k)[i].view ==>
              ts[i].view && ResizedUpTo(ts, shapes, dtype, k)[i].sharesData == ts[i].sharesData
  {
  }

  lemma ResizedStep(ts: seq<Tensor>, shapes: seq<Shape>, dtype: DALIDataType, k: nat)
    requires k < |ts| && k < |shapes|
    ensures ResizedUpTo(ts, shapes, dtype, k + 1) == ResizedUpTo(ts, shapes, dtype, k)[k := ResizeTensor(ts[k], shapes[k], dtype)]
  {
  }

  /** reserve(bytes) on each of the first `k` samples. */
  function ReservedUpTo(ts: seq<Tensor>, bytes: nat, k: nat): (r: seq<Tensor>)
    requires k <= |ts|
    ensures |r| == |ts|
    ensures forall i :: 0 <= i < |ts| ==> r[i] == if i < k then Reserved(ts[i], bytes) else ts[i]
  {
    seq(|ts|, i requires 0 <= i < |ts| => if i < k then Reserved(ts[i], bytes) else ts[i])
  }

  lemma ReservedStep(ts: seq<Tensor>, bytes: nat, k: nat)
    requires k < |ts|
    ensures ReservedUpTo(ts, bytes, k + 1) == ReservedUpTo(ts, bytes, k)[k := Reserved(ts[k], bytes)]
  {
  }

  /** The first `k` samples sharing the data of the source's samples. */
  function SharedUpTo(ts: seq<Tensor>, src: seq<Tensor>, k: nat): (r: seq<Tensor>)
    requires k <= |ts| && k <= |src|
    ensures |r| == |ts|
    ensures forall i :: 0 <= i < |ts| ==> r[i] == if i < k then ShareTensor(src[i]) else ts[i]
  {
    seq(|ts|, i requires 0 <= i < |ts| => if i < k then ShareTensor(src[i]) else ts[i])
  }

  lemma SharedStep(ts: seq<Tensor>, src: seq<Tensor>, k: nat)
    requires k < |ts| && k < |src|
    ensures SharedUpTo(ts, src, k + 1) == SharedUpTo(ts, src, k)[k := ShareTensor(src[k])]
  {
  }

  /** AsTensorList: the block with the metadata of the first `n` samples copied into it. */
  function MetasCopied(tl: TensorList, ts: seq<Tensor>, n: nat): (r: TensorList)
    requires n <= |tl.samples| && n <= |ts|
    ensures r.id == tl.id && r.dtype == tl.dtype && r.capacity == tl.capacity && r.pinned == tl.pinned
    ensures |r.samples| == |tl.samples|
    ensures forall i :: 0 <= i < |tl.samples| ==>
              r.samples[i].shape == tl.samples[i].shape &&
              r.samples[i].meta == if i < n then ts[i].meta else tl.samples[i].meta
  {
    tl.(samples := seq(|tl.samples|, i requires 0 <= i < |tl.samples| =>
                         if i < n then ListSample(tl.samples[i].shape, ts[i].meta) else tl.samples[i]))
  }

  lemma MetasCopiedStep(tl: TensorList, ts: seq<Tensor>, k: nat)
    requires k < |tl.samples| && k < |ts|
    ensures SetListMeta(MetasCopied(tl, ts, k), k, ts[k].meta) == MetasCopied(tl, ts, k + 1)
  {
  }

  /** The bytes of all samples in the vector. */
  function SumBytes(ts: seq<Tensor>): nat {
    if ts == [] then 0 else SumBytes(ts[..|ts| - 1]) + TensorBytes(ts[|ts| - 1])
  }

  /** The capacity of all samples in the vector. */
  function SumCapacity(ts: seq<Tensor>): nat {
    if ts == [] then 0 else SumCapacity(ts[..|ts| - 1]) + ts[|ts| - 1].capacity
  }

  /** When each sample's bytes fit its capacity, so do the vector's. */
  lemma {:induction false} SumBytesWithinCapacity(ts: seq<Tensor>)
    requires forall i :: 0 <= i < |ts| ==> TensorBytes(ts[i]) <= ts[i].capacity
    ensures SumBytes(ts) <= SumCapacity(ts)
    decreases |ts|
  {
    if ts != [] {
      var last := |ts| - 1;
      assert forall i :: 0 <= i < last ==> ts[..last][i] == ts[i];
      SumBytesWithinCapacity(ts[..last]);
    }
  }

  // ---- The batch ----

  class TensorVector {
    var state: State
    var viewsCount: int
    var currSize: nat
    var dtype: DALIDataType
    var pinned: bool
    var tl: TensorList
    /** Every sample the vector holds; the first `currSize` are in use. */
    var tensors: seq<Tensor>

    /** Views are samples in use that share data. */
    ghost predicate Placed()
      reads this
    {
      currSize <= |tensors| &&
      forall i :: 0 <= i < |tensors| && tensors[i].view ==> i < currSize && tensors[i].sharesData
    }

    /** Placed, and the count matches the live views. */
    ghost predicate Sane()
      reads this
    {
      Placed() && viewsCount == CountViews(tensors)
    }

    /** Sane, and every view is of a sample the block holds. */
    ghost predicate Valid()
      reads this
    {
      Sane() && forall i :: 0 <= i < currSize && tensors[i].view ==> i < |tl.samples|
    }

    /** IsContiguous. */
    predicate IsContiguous()
      reads this
    {
      state == Contiguous && viewsCount == currSize
    }

    /** The batch is contiguous exactly when its state says so and every sample in use is a view of the block. */
    lemma IsContiguousMeans()
      requires Sane()
      ensures IsContiguous() <==> state == Contiguous && forall i :: 0 <= i < currSize ==> tensors[i].view
    {
      CountViewsFull(tensors, currSize);
    }

    /** num_samples(). */
    function NumSamples(): nat
      reads this
    {
      currSize
    }

    /** is_pinned(). */
    function IsPinned(): bool
      reads this
      requires currSize <= |tensors|
    {
      if state == Contiguous then tl.pinned
      else if currSize == 0 then pinned
      else tensors[0].pinned
    }

    /** type(). */
    function Type(): DALIDataType
      reads this
      requires currSize <= |tensors|
    {
      if state == Contiguous then tl.dtype
      else if currSize == 0 then dtype
      else tensors[0].dtype
    }

    /** The batch as a list of its samples in use, as TensorList::Copy reads it. */
    function Listed(): TensorList
      reads this
      requires currSize <= |tensors|
    {
      var ts := tensors;
      var n := currSize;
      TensorList(tl.id, seq(n, i requires 0 <= i < n <= |ts| => ListSample(ts[i].shape, ts[i].meta)),
                 Type(), 0, IsPinned())
    }

    // ---- Samples and views ----

    /** ViewRefDeleter: a view of the block was released. */
    method ReleaseView()
      modifies this
      ensures viewsCount == old(viewsCount) - 1
      ensures state == old(state) && currSize == old(currSize) && dtype == old(dtype) && pinned == old(pinned)
      ensures tl == old(tl) && tensors == old(tensors)
    {
      viewsCount := viewsCount - 1;
    }

    /**
     * Replaces sample i: a view the sample drops is released, a view it takes is counted,
     * so the count stays as far from the live views as it was.
     */
    method SetSample(i: nat, t: Tensor)
      modifies this
      requires i < |tensors|
      ensures tensors == old(tensors)[i := t]
      ensures viewsCount - CountViews(tensors) == old(viewsCount) - CountViews(old(tensors))
      ensures state == old(state) && currSize == old(currSize) && dtype == old(dtype) && pinned == old(pinned)
      ensures tl == old(tl)
    {
      CountViewsUpdate(tensors, i, t);
      if tensors[i].view && !t.view {
        ReleaseView();
      } else if !tensors[i].view && t.view {
        viewsCount := viewsCount + 1;
      }
      tensors := tensors[i := t];
    }

    /** tensors_.clear(): every sample is destroyed, and each view among them is released. */
    method ClearSamples()
      modifies this
      requires viewsCount == CountViews(tensors)
      ensures tensors == [] && viewsCount == 0
      ensures state == old(state) && currSize == old(currSize) && dtype == old(dtype) && pinned == old(pinned)
      ensures tl == old(tl)
    {
      for i := 0 to |tensors|
        invariant tensors == old(tensors) && state == old(state) && currSize == old(currSize)
        invariant dtype == old(dtype) && pinned == old(pinned) && tl == old(tl)
        invariant viewsCount == CountViews(tensors) - CountViews(tensors[..i])
      {
        CountViewsStep(tensors, i);
        if tensors[i].view {
          ReleaseView();
        }
      }
      assert tensors[..|tensors|] == tensors;
      tensors := [];
    }

    /** resize_tensors: the samples become ResizedTensors; a count that matched the views still does. */
    method ResizeTensors(newSize: nat)
      modifies this
      requires Placed()
      ensures Placed()
      ensures viewsCount - CountViews(tensors) == old(viewsCount) - CountViews(old(tensors))
      ensures tensors == ResizedTensors(old(tensors), old(currSize), newSize, old(IsPinned()))
      ensures currSize == newSize
      ensures state == old(state) && dtype == old(dtype) && pinned == old(pinned) && tl == old(tl)
    {
      if newSize > |tensors| {
        // is_pinned() is read while curr_tensors_size_ still holds the old size
        var p := IsPinned();
        GrowTensors(newSize, p);
      } else if newSize < currSize {
        ResetTrailing(newSize);
      }
      currSize := newSize;
    }

    /** Growth: the entries at or past the old length are the null ones tensors_.resize added. */
    method GrowTensors(newSize: nat, p: bool)
      modifies this
      requires newSize > |tensors|
      ensures state == old(state) && currSize == old(currSize) && dtype == old(dtype)
      ensures pinned == old(pinned) && tl == old(tl) && viewsCount == old(viewsCount)
      ensures tensors == old(tensors) + Fresh(newSize - |old(tensors)|, p) && CountViews(tensors) == CountViews(old(tensors))
    {
      for i := |tensors| to newSize
        invariant state == old(state) && currSize == old(currSize) && dtype == old(dtype)
        invariant pinned == old(pinned) && tl == old(tl) && viewsCount == old(viewsCount)
        invariant tensors == old(tensors) + Fresh(i - |old(tensors)|, p)
        invariant CountViews(tensors) == CountViews(old(tensors))
      {
        CountViewsAppend(tensors, NewTensor(p));
        FreshStep(old(tensors), i - |old(tensors)|, p);
        tensors := tensors + [NewTensor(p)];
      }
    }

    /** Shrinking: the samples from `newSize` up to the old size that share data are reset. */
    method ResetTrailing(newSize: nat)
      modifies this
      requires newSize < currSize <= |tensors|
      ensures state == old(state) && currSize == old(currSize) && dtype == old(dtype)
      ensures pinned == old(pinned) && tl == old(tl)
      ensures tensors == ResetShared(old(tensors), newSize, currSize)
      ensures viewsCount - CountViews(tensors) == old(viewsCount) - CountViews(old(tensors))
    {
      for i := newSize to currSize
        invariant state == old(state) && currSize == old(currSize) && dtype == old(dtype)
        invariant pinned == old(pinned) && tl == old(tl)
        invariant tensors == ResetShared(old(tensors), newSize, i)
        invariant viewsCount - CountViews(tensors) == old(viewsCount) - CountViews(old(tensors))
      {
        ResetSharedStep(old(tensors), newSize, i);
        if tensors[i].sharesData {
          SetSample(i, ResetTensor(tensors[i]));
        }
      }
    }

    /** update_view(i). */
    method UpdateView(i: nat)
      modifies this
      requires i < currSize <= |tensors| && i < |tl.samples| && IsValidType(tl.dtype)
      requires viewsCount == CountViews(tensors)
      ensures state == old(state) && currSize == old(currSize) && dtype == old(dtype) && pinned == old(pinned)
      ensures tl == old(tl)
      ensures tensors == old(tensors)[i := Viewed(old(tensors)[i], tl, i)] && viewsCount == CountViews(tensors)
    {
      var ptr := SliceOf(tl, i);
      var shape := tl.samples[i].shape;
      SetSample(i, ResetTensor(tensors[i]));
      if tensors[i].data != ptr || tensors[i].shape != shape {
        SetSample(i, ViewTensor(tensors[i], ptr, Bytes(shape, tl.dtype), shape, tl.dtype));
      } else if IsValidType(tl.dtype) {
        SetSample(i, SetTensorType(tensors[i], tl.dtype));
      }
      SetSample(i, tensors[i].(meta := tl.samples[i].meta));
    }

    /**
     * UpdateViews: nothing happens while the block's type is invalid; otherwise the batch
     * takes the block's type and every sample in use is refreshed from its slice. The
     * count then equals the number of samples aliasing the block, so a contiguous batch
     * is fully contiguous exactly when every slice can be viewed.
     */
    method UpdateViews()
      modifies this
      requires Sane()
      requires IsValidType(tl.dtype) ==> currSize == |tl.samples|
      ensures state == old(state) && currSize == old(currSize) && pinned == old(pinned) && tl == old(tl)
      ensures Sane() && |tensors| == |old(tensors)|
      ensures !IsValidType(tl.dtype) ==> tensors == old(tensors) && dtype == old(dtype)
      ensures IsValidType(tl.dtype) ==> Valid() && dtype == tl.dtype && tensors == Refreshed(old(tensors), tl, currSize)
      ensures IsValidType(tl.dtype) && state == Contiguous ==> (IsContiguous() <==> Viewable(tl))
    {
      if !IsValidType(tl.dtype) {
        return;
      }
      dtype := tl.dtype;
      RefreshAll();
      CountViewsFull(tensors, currSize);
      assert forall i :: 0 <= i < currSize ==>
               (tensors[i].view <==> SliceOf(tl, i) != Null || tl.samples[i].shape != ResetShape);
    }

    /** The loop of UpdateViews: update_view for every sample in use. */
    method RefreshAll()
      modifies this
      requires currSize <= |tensors| && currSize == |tl.samples| && IsValidType(tl.dtype)
      requires viewsCount == CountViews(tensors)
      ensures state == old(state) && currSize == old(currSize) && pinned == old(pinned) && tl == old(tl)
      ensures dtype == old(dtype)
      ensures tensors == Refreshed(old(tensors), tl, currSize) && viewsCount == CountViews(tensors)
    {
      for i := 0 to currSize
        invariant state == old(state) && currSize == old(currSize) && dtype == old(dtype)
        invariant pinned == old(pinned) && tl == old(tl)
        invariant tensors == Refreshed(old(tensors), tl, i) && viewsCount == CountViews(tensors)
      {
        RefreshedStep(old(tensors), tl, i);
        UpdateView(i);
      }
    }

    /**
     * UpdateViews as written: the count is set to the number of samples before the
     * samples are reset, and each reset releases the view the sample held. Refreshing a
     * fully contiguous batch that has samples leaves it no longer contiguous.
     */
    method UpdateViewsAsWritten()
      modifies this
      requires Sane()
      requires IsValidType(tl.dtype) ==> currSize == |tl.samples|
      ensures state == old(state) && currSize == old(currSize) && pinned == old(pinned) && tl == old(tl)
      ensures IsValidType(tl.dtype) ==> tensors == Refreshed(old(tensors), tl, currSize) &&
                                         viewsCount == currSize - old(viewsCount)
      ensures IsValidType(tl.dtype) && old(IsContiguous()) && currSize > 0 ==> !IsContiguous()
    {
      if !IsValidType(tl.dtype) {
        return;
      }
      dtype := tl.dtype;
      viewsCount := currSize;
      RefreshAllAsWritten();
      CountViewsTail(old(tensors), currSize);
    }

    /** The loop of UpdateViews as written: each reset releases a view, the new views go uncounted. */
    method RefreshAllAsWritten()
      modifies this
      requires currSize <= |tensors| && currSize == |tl.samples| && IsValidType(tl.dtype)
      ensures state == old(state) && currSize == old(currSize) && pinned == old(pinned) && tl == old(tl)
      ensures tensors == Refreshed(old(tensors), tl, currSize)
      ensures viewsCount == old(viewsCount) - CountViews(old(tensors)[..currSize])
    {
      ghost var ts0 := tensors;
      ghost var v0 := viewsCount;
      for i := 0 to currSize
        invariant state == old(state) && currSize == old(currSize)
        invariant pinned == old(pinned) && tl == old(tl)
        invariant tensors == Refreshed(ts0, tl, i)
        invariant viewsCount + CountViews(ts0[..i]) == v0
      {
        CountViewsStep(ts0, i);
        RefreshedStep(ts0, tl, i);
        UpdateViewAsWritten(i);
      }
    }

    /** update_view(i) as written: the reset releases the sample's view, the new view goes uncounted. */
    method UpdateViewAsWritten(i: nat)
      modifies this
      requires i < |tensors| && i < |tl.samples| && IsValidType(tl.dtype)
      ensures state == old(state) && currSize == old(currSize) && pinned == old(pinned) && tl == old(tl)
      ensures dtype == old(dtype)
      ensures tensors == old(tensors)[i := Viewed(old(tensors)[i], tl, i)]
      ensures viewsCount == old(viewsCount) - (if old(tensors)[i].view then 1 else 0)
    {
      if tensors[i].view {
        ReleaseView();
      }
      tensors := tensors[i := Viewed(tensors[i], tl, i)];
    }

    // ---- Construction ----

    /**
     * TensorVector() and TensorVector(batch_size): `block` is the list the constructor
     * allocates and `pinnedDefault` the initial pinned flag; the batch starts
     * non-contiguous with `batchSize` empty samples.
     */
    constructor(batchSize: nat, block: TensorList, pinnedDefault: bool)
      ensures Valid() && state == Noncontiguous && currSize == batchSize && viewsCount == 0
      ensures tl == block && dtype == NoType && pinned == pinnedDefault
      ensures tensors == Fresh(batchSize, pinnedDefault)
    {
      state := Noncontiguous;
      viewsCount := 0;
      currSize := 0;
      dtype := NoType;
      pinned := pinnedDefault;
      tl := block;
      tensors := [];
      new;
      ResizeTensors(batchSize);
      ResizedFromEmpty(batchSize, pinnedDefault);
      CountViewsTail(tensors, 0);
    }

    /** TensorVector(shared_ptr<TensorList>): a contiguous batch whose samples view the block. */
    constructor FromList(block: TensorList)
      ensures Valid() && state == Contiguous && tl == block && currSize == |block.samples|
      ensures pinned == block.pinned
      ensures !IsValidType(block.dtype) ==> tensors == Fresh(|block.samples|, block.pinned) && dtype == block.dtype
      ensures IsValidType(block.dtype) ==>
                dtype == block.dtype && tensors == Refreshed(Fresh(|block.samples|, block.pinned), block, currSize) &&
                (IsContiguous() <==> Viewable(block))
    {
      state := Contiguous;
      viewsCount := 0;
      currSize := 0;
      dtype := block.dtype;
      pinned := block.pinned;
      tl := block;
      tensors := [];
      new;
      ResizeTensors(|block.samples|);
      ResizedFromEmpty(|block.samples|, block.pinned);
      UpdateViews();
    }

    // ---- Shape and type ----

    /**
     * Resize(new_shape, new_type): an invalid type is refused. Otherwise the batch takes
     * one sample per shape; a contiguous batch resizes its block and views it again, a
     * non-contiguous one resizes each sample on its own and keeps its recorded type.
     */
    method Resize(newShape: seq<Shape>, newType: DALIDataType) returns (r: Outcome)
      modifies this
      requires Valid()
      ensures Valid()
      ensures !IsValidType(newType) ==> r == Failure(InvalidType) && unchanged(this)
      ensures IsValidType(newType) ==>
                r == Pass && currSize == |newShape| && state == old(state) && pinned == old(pinned)
      ensures IsValidType(newType) && old(state) == Contiguous ==>
                tl == ResizeList(old(tl), newShape, newType) && dtype == newType &&
                tensors == Refreshed(ResizedTensors(old(tensors), old(currSize), |newShape|, old(IsPinned())), tl, currSize) &&
                (IsContiguous() <==> Viewable(tl))
      ensures IsValidType(newType) && old(state) == Noncontiguous ==>
                tl == old(tl) && dtype == old(dtype) &&
                tensors == ResizedUpTo(ResizedTensors(old(tensors), old(currSize), |newShape|, old(IsPinned())),
                                       newShape, newType, currSize)
    {
      if !IsValidType(newType) {
        return Failure(InvalidType);
      }
      if state == Contiguous {
        ResizeContiguous(newShape, newType);
      } else {
        ResizeNoncontiguous(newShape, newType);
      }
      r := Pass;
    }

    /** Resize of a contiguous batch: the block is resized and viewed again. */
    method ResizeContiguous(newShape: seq<Shape>, newType: DALIDataType)
      modifies this
      requires Valid() && state == Contiguous && IsValidType(newType)
      ensures Valid() && currSize == |newShape| && state == old(state) && pinned == old(pinned)
      ensures tl == ResizeList(old(tl), newShape, newType) && dtype == newType
      ensures tensors == Refreshed(ResizedTensors(old(tensors), old(currSize), |newShape|, old(IsPinned())), tl, currSize)
      ensures IsContiguous() <==> Viewable(tl)
    {
      ResizeTensors(|newShape|);
      tl := ResizeList(tl, newShape, newType);
      UpdateViews();
    }

    /** Resize of a non-contiguous batch: each sample in use is resized to its own shape. */
    method ResizeNoncontiguous(newShape: seq<Shape>, newType: DALIDataType)
      modifies this
      requires Valid() && state == Noncontiguous
      ensures Valid() && currSize == |newShape| && state == old(state) && pinned == old(pinned)
      ensures tl == old(tl) && dtype == old(dtype)
      ensures tensors == ResizedUpTo(ResizedTensors(old(tensors), old(currSize), |newShape|, old(IsPinned())),
                                     newShape, newType, currSize)
    {
      ghost var ts0 := tensors;
      ghost var p := IsPinned();
      ResizeTensors(|newShape|);
      ResizedViews(ts0, old(currSize), |newShape|, p);
      ghost var ts := tensors;
      ResizeSamples(newShape, newType);
      ResizedUpToViews(ts, newShape, newType, currSize);
    }

    /** The loop of Resize for a non-contiguous batch: sample i is resized to shape i. */
    method ResizeSamples(newShape: seq<Shape>, newType: DALIDataType)
      modifies this
      requires currSize <= |tensors| && currSize <= |newShape| && viewsCount == CountViews(tensors)
      ensures state == old(state) && currSize == old(currSize) && dtype == old(dtype) && pinned == old(pinned)
      ensures tl == old(tl)
      ensures tensors == ResizedUpTo(old(tensors), newShape, newType, currSize) && viewsCount == CountViews(tensors)
    {
      ghost var ts0 := tensors;
      for i := 0 to currSize
        invariant state == old(state) && currSize == old(currSize) && dtype == old(dtype)
        invariant pinned == old(pinned) && tl == old(tl)
        invariant tensors == ResizedUpTo(ts0, newShape, newType, i) && viewsCount == CountViews(tensors)
      {
        ResizedStep(ts0, newShape, newType, i);
        SetSample(i, ResizeTensor(tensors[i], newShape[i], newType));
      }
    }

    /** SetSize(new_size): a negative size is refused; otherwise the samples are resized to it. */
    method SetSize(newSize: int) returns (r: Outcome)
      modifies this
      requires Valid()
      ensures Valid()
      ensures newSize < 0 ==> r == Failure(InvalidSize) && unchanged(this)
      ensures newSize >= 0 ==>
                r == Pass && currSize == newSize &&
                tensors == ResizedTensors(old(tensors), old(currSize), newSize, old(IsPinned()))
      ensures state == old(state) && dtype == old(dtype) && pinned == old(pinned) && tl == old(tl)
    {
      if newSize < 0 {
        return Failure(InvalidSize);
      }
      ghost var ts := tensors;
      ghost var p := IsPinned();
      ResizeTensors(newSize);
      ResizedViews(ts, old(currSize), newSize, p);
      r := Pass;
    }

    /**
     * set_type(new_type): no type is refused and the same type changes nothing. Otherwise
     * the batch, its block and every sample take the new type, and a contiguous batch
     * views its block again.
     */
    method SetType(newType: DALIDataType) returns (r: Outcome)
      modifies this
      requires Valid()
      requires state == Contiguous && newType != NoType && newType != dtype ==> currSize == |tl.samples|
      ensures Valid()
      ensures newType == NoType ==> r == Failure(InvalidType) && unchanged(this)
      ensures newType != NoType && old(dtype) == newType ==> r == Pass && unchanged(this)
      ensures newType != NoType && old(dtype) != newType ==>
                r == Pass && dtype == newType && tl == SetListType(old(tl), newType) &&
                state == old(state) && currSize == old(currSize) && pinned == old(pinned) &&
                (state == Noncontiguous ==> tensors == TypedUpTo(old(tensors), newType, |old(tensors)|)) &&
                (state == Contiguous ==> tensors == Refreshed(TypedUpTo(old(tensors), newType, |old(tensors)|), tl, currSize) &&
                                         (IsContiguous() <==> Viewable(tl)))
      ensures newType != NoType && old(dtype) != newType ==> Type() == newType
    {
      if newType == NoType {
        return Failure(InvalidType);
      }
      if dtype == newType {
        return Pass;
      }
      Retype(newType);
      if state == Contiguous {
        UpdateViews();
      }
      r := Pass;
    }

    /** The part of set_type before the views are refreshed: the batch, the block and every sample take the type. */
    method Retype(newType: DALIDataType)
      modifies this
      requires Valid() && newType != NoType
      ensures Sane() && (state == Noncontiguous ==> Valid())
      ensures state == old(state) && currSize == old(currSize) && pinned == old(pinned)
      ensures dtype == newType && tl == SetListType(old(tl), newType)
      ensures tensors == TypedUpTo(old(tensors), newType, |old(tensors)|)
    {
      dtype := newType;
      tl := SetListType(tl, newType);
      ghost var ts := tensors;
      TypeAllSamples(newType);
      assert forall i :: 0 <= i < |tensors| && tensors[i].view ==> ts[i].view && tensors[i].sharesData;
    }

    /** The loop of set_type: every sample, in use or not, takes the new type. */
    method TypeAllSamples(newType: DALIDataType)
      modifies this
      requires viewsCount == CountViews(tensors)
      ensures state == old(state) && currSize == old(currSize) && dtype == old(dtype) && pinned == old(pinned)
      ensures tl == old(tl)
      ensures tensors == TypedUpTo(old(tensors), newType, |old(tensors)|) && viewsCount == CountViews(tensors)
    {
      ghost var ts0 := tensors;
      for i := 0 to |tensors|
        invariant state == old(state) && currSize == old(currSize) && dtype == old(dtype)
        invariant pinned == old(pinned) && tl == old(tl) && |tensors| == |ts0|
        invariant tensors == TypedUpTo(ts0, newType, i) && viewsCount == CountViews(tensors)
      {
        TypedStep(ts0, newType, i);
        SetSample(i, SetTensorType(tensors[i], newType));
      }
    }

    /**
     * Reset: every sample is dropped, the size and type are cleared, and a fully
     * contiguous batch also resets its block.
     */
    method Reset()
      modifies this
      requires Valid()
      ensures Valid()
      ensures tensors == [] && currSize == 0 && dtype == NoType && viewsCount == 0
      ensures tl == (if old(state) == Contiguous then ResetList(old(tl)) else old(tl))
      ensures state == old(state) && pinned == old(pinned)
    {
      ClearSamples();
      currSize := 0;
      dtype := NoType;
      if IsContiguous() {
        viewsCount := 0;
        tl := ResetList(tl);
      }
    }

    // ---- Copying and sharing ----

    /**
     * Copy(const TensorList &): the block copies the source into its own storage, and the
     * contiguous batch takes its samples and views them.
     */
    method Copy(src: TensorList)
      modifies this
      requires Valid()
      ensures Valid()
      ensures state == Contiguous && currSize == |src.samples| && tl == CopyList(old(tl), src) && pinned == old(pinned)
      ensures !IsValidType(src.dtype) ==>
                dtype == src.dtype && tensors == ResizedTensors(old(tensors), old(currSize), |src.samples|, old(tl).pinned)
      ensures IsValidType(src.dtype) ==>
                dtype == src.dtype &&
                tensors == Refreshed(ResizedTensors(old(tensors), old(currSize), |src.samples|, old(tl).pinned), tl, currSize) &&
                (IsContiguous() <==> Viewable(tl))
    {
      state := Contiguous;
      dtype := src.dtype;
      tl := CopyList(tl, src);
      Relink();
    }

    /**
     * Copy(const TensorVector &): as Copy of a list, the list being the source batch's
     * samples in use with its type.
     */
    method CopyBatch(src: TensorVector)
      modifies this
      requires src != this && src.Sane() && Valid()
      ensures Valid()
      ensures state == Contiguous && currSize == src.currSize && pinned == old(pinned)
      ensures tl == CopyList(old(tl), src.Listed())
      ensures dtype == if IsValidType(src.Type()) then src.Type() else src.dtype
      ensures !IsValidType(src.Type()) ==>
                tensors == ResizedTensors(old(tensors), old(currSize), src.currSize, old(tl).pinned)
      ensures IsValidType(src.Type()) ==>
                tensors == Refreshed(ResizedTensors(old(tensors), old(currSize), src.currSize, old(tl).pinned), tl, currSize) &&
                (IsContiguous() <==> Viewable(tl))
    {
      state := Contiguous;
      dtype := src.dtype;
      tl := CopyList(tl, src.Listed());
      Relink();
    }

    /** ShareData(const TensorList &): the batch takes the block itself, with its type and pinned flag, and views it. */
    method ShareData(src: TensorList)
      modifies this
      requires Valid()
      ensures Valid()
      ensures state == Contiguous && currSize == |src.samples| && tl == src && dtype == src.dtype && pinned == src.pinned
      ensures !IsValidType(src.dtype) ==>
                tensors == ResizedTensors(old(tensors), old(currSize), |src.samples|, src.pinned)
      ensures IsValidType(src.dtype) ==>
                tensors == Refreshed(ResizedTensors(old(tensors), old(currSize), |src.samples|, src.pinned), src, currSize) &&
                (IsContiguous() <==> Viewable(src))
    {
      state := Contiguous;
      dtype := src.dtype;
      pinned := src.pinned;
      tl := src;
      Relink();
    }

    /** The common tail of Copy and ShareData: one sample per sample of the block, each viewing its slice. */
    method Relink()
      modifies this
      requires Sane() && state == Contiguous
      ensures Valid() && state == Contiguous && currSize == |tl.samples|
      ensures dtype == (if IsValidType(tl.dtype) then tl.dtype else old(dtype)) && pinned == old(pinned) && tl == old(tl)
      ensures !IsValidType(tl.dtype) ==> tensors == ResizedTensors(old(tensors), old(currSize), |tl.samples|, tl.pinned)
      ensures IsValidType(tl.dtype) ==>
                tensors == Refreshed(ResizedTensors(old(tensors), old(currSize), |tl.samples|, tl.pinned), tl, currSize) &&
                (IsContiguous() <==> Viewable(tl))
    {
      ResizeTensors(|tl.samples|);
      UpdateViews();
    }

    /**
     * ShareData(const TensorVector &), with the vector resized once before the loop: a
     * contiguous source shares its block; otherwise the block is reset and sample i
     * shares the data of the source's sample i.
     */
    method ShareDataBatch(tv: TensorVector)
      modifies this
      requires tv != this && tv.Sane() && Valid()
      ensures Valid()
      ensures tv.state == Contiguous ==>
                state == Contiguous && tl == tv.tl && currSize == |tv.tl.samples| &&
                dtype == tv.tl.dtype && pinned == tv.tl.pinned
      ensures tv.state == Contiguous && !IsValidType(tv.tl.dtype) ==>
                tensors == ResizedTensors(old(tensors), old(currSize), |tv.tl.samples|, tv.tl.pinned)
      ensures tv.state == Contiguous && IsValidType(tv.tl.dtype) ==>
                tensors == Refreshed(ResizedTensors(old(tensors), old(currSize), |tv.tl.samples|, tv.tl.pinned), tv.tl, currSize) &&
                (IsContiguous() <==> Viewable(tv.tl))
      ensures tv.state == Noncontiguous ==>
                state == Noncontiguous && tl == ResetList(old(tl)) && currSize == tv.currSize && viewsCount == 0 &&
                dtype == tv.dtype && pinned == tv.IsPinned() &&
                tensors == SharedUpTo(ResizedTensors(old(tensors), old(currSize), tv.currSize,
                                                     if old(currSize) == 0 then tv.IsPinned() else old(tensors)[0].pinned),
                                      tv.tensors, tv.currSize)
    {
      if tv.state == Contiguous {
        ShareData(tv.tl);
      } else {
        dtype := tv.dtype;
        pinned := tv.IsPinned();
        ShareSamples(tv);
      }
    }

    /** The non-contiguous branch of ShareDataBatch. */
    method ShareSamples(tv: TensorVector)
      modifies this
      requires tv != this && tv.Sane() && Sane() && tv.state == Noncontiguous
      ensures Valid() && state == Noncontiguous && tl == ResetList(old(tl)) && currSize == tv.currSize
      ensures viewsCount == 0 && dtype == old(dtype) && pinned == old(pinned)
      ensures tensors == SharedUpTo(ResizedTensors(old(tensors), old(currSize), tv.currSize,
                                                   if old(currSize) == 0 then old(pinned) else old(tensors)[0].pinned),
                                    tv.tensors, tv.currSize)
    {
      state := Noncontiguous;
      tl := ResetList(tl);
      var batchSize := tv.currSize;
      ResizeTensors(batchSize);
      ghost var ts := tensors;
      ShareEach(tv.tensors, batchSize);
      assert forall i :: 0 <= i < |tensors| ==> !tensors[i].view;
      CountViewsTail(tensors, 0);
    }

    /** The loop of ShareDataBatch: sample i shares the data of `src[i]`, for every i below `n`. */
    method ShareEach(src: seq<Tensor>, n: nat)
      modifies this
      requires n <= |src| && n <= |tensors| && viewsCount == CountViews(tensors)
      ensures state == old(state) && currSize == old(currSize) && dtype == old(dtype) && pinned == old(pinned)
      ensures tl == old(tl)
      ensures tensors == SharedUpTo(old(tensors), src, n) && viewsCount == CountViews(tensors)
    {
      ghost var ts0 := tensors;
      for i := 0 to n
        invariant state == old(state) && currSize == old(currSize) && dtype == old(dtype)
        invariant pinned == old(pinned) && tl == old(tl)
        invariant tensors == SharedUpTo(ts0, src, i) && viewsCount == CountViews(tensors)
      {
        SharedStep(ts0, src, i);
        SetSample(i, ShareTensor(src[i]));
      }
    }

    /**
     * ShareData(const TensorVector &) for a non-contiguous source, as written: the count
     * is zeroed first, and the vector is resized inside the loop. A source without
     * samples never resizes it, so the batch keeps its old size and samples over a block
     * that was reset, and none of their views is counted. A source with samples releases
     * every old view after the zeroing, leaving the count negative.
     */
    method ShareDataBatchAsWritten(tv: TensorVector)
      modifies this
      requires tv != this && tv.Sane() && Valid() && tv.state == Noncontiguous
      ensures Placed() && state == Noncontiguous && tl == ResetList(old(tl))
      ensures dtype == tv.dtype && pinned == tv.IsPinned()
      ensures viewsCount == CountViews(tensors) - old(viewsCount)
      ensures tv.currSize == 0 ==>
                currSize == old(currSize) && tensors == old(tensors) && viewsCount == 0 && CountViews(tensors) == old(viewsCount)
      ensures tv.currSize > 0 ==>
                currSize == tv.currSize && viewsCount == -old(viewsCount) &&
                forall i :: 0 <= i < currSize ==> tensors[i] == ShareTensor(tv.tensors[i])
    {
      dtype := tv.dtype;
      pinned := tv.IsPinned();
      viewsCount := 0;
      state := Noncontiguous;
      tl := ResetList(tl);
      var batchSize := tv.currSize;
      for i := 0 to batchSize
        invariant Placed() && state == Noncontiguous && tl == ResetList(old(tl))
        invariant dtype == tv.dtype && pinned == tv.IsPinned()
        invariant viewsCount == CountViews(tensors) - old(viewsCount)
        invariant i == 0 ==> currSize == old(currSize) && tensors == old(tensors)
        invariant i > 0 ==> currSize == batchSize && forall j :: 0 <= j < i ==> tensors[j] == ShareTensor(tv.tensors[j])
      {
        ShareOneAsWritten(tv.tensors, batchSize, i);
      }
      if batchSize > 0 {
        CountViewsTail(tensors, 0);
      }
    }

    /** One turn of the loop of ShareDataBatchAsWritten: resize to the batch size, then share sample i. */
    method ShareOneAsWritten(src: seq<Tensor>, n: nat, i: nat)
      modifies this
      requires Placed() && i < n <= |src|
      requires i > 0 ==> currSize == n
      ensures Placed() && state == old(state) && tl == old(tl) && currSize == n
      ensures dtype == old(dtype) && pinned == old(pinned)
      ensures viewsCount - CountViews(tensors) == old(viewsCount) - CountViews(old(tensors))
      ensures tensors == ResizedTensors(old(tensors), old(currSize), n, old(IsPinned()))[i := ShareTensor(src[i])]
    {
      ResizeTensors(n);
      SetSample(i, ShareTensor(src[i]));
    }

    // ---- Storage ----

    /**
     * reserve(total_bytes): a non-contiguous batch drops its samples first; the batch
     * becomes contiguous, its block reserves the bytes and the views are refreshed.
     */
    method Reserve(totalBytes: nat)
      modifies this
      requires Valid()
      requires IsValidType(tl.dtype) ==> (if state == Noncontiguous then 0 else currSize) == |tl.samples|
      ensures Valid() && state == Contiguous && tl == ReserveList(old(tl), totalBytes) && tl.capacity >= totalBytes
      ensures pinned == old(pinned)
      ensures old(state) == Noncontiguous ==> currSize == 0 && tensors == []
      ensures old(state) == Contiguous ==>
                currSize == old(currSize) &&
                (IsValidType(tl.dtype) ==> tensors == Refreshed(old(tensors), tl, currSize) && (IsContiguous() <==> Viewable(tl)))
    {
      if state == Noncontiguous {
        ClearSamples();
        currSize := 0;
      }
      state := Contiguous;
      tl := ReserveList(tl, totalBytes);
      UpdateViews();
    }

    /**
     * reserve(bytes_per_sample, batch_size): the batch becomes non-contiguous with
     * `batchSize` samples, each holding at least `bytesPerSample` bytes.
     */
    method ReservePerSample(bytesPerSample: nat, batchSize: nat)
      modifies this
      requires Valid() && batchSize > 0
      ensures Valid() && state == Noncontiguous && currSize == batchSize
      ensures tl == old(tl) && dtype == old(dtype) && pinned == old(pinned)
      ensures tensors == ReservedUpTo(ResizedTensors(old(tensors), old(currSize), batchSize,
                                                     if old(currSize) == 0 then old(pinned) else old(tensors)[0].pinned),
                                      bytesPerSample, batchSize)
      ensures forall i :: 0 <= i < currSize ==> tensors[i].capacity >= bytesPerSample
    {
      state := Noncontiguous;
      ghost var ts0 := tensors;
      ghost var p := IsPinned();
      ResizeTensors(batchSize);
      ResizedViews(ts0, old(currSize), batchSize, p);
      ghost var ts := tensors;
      ReserveEach(bytesPerSample);
      assert forall i :: 0 <= i < |tensors| && tensors[i].view ==> ts[i].view;
    }

    /** The loop of ReservePerSample: every sample in use reserves the bytes. */
    method ReserveEach(bytes: nat)
      modifies this
      requires currSize <= |tensors| && viewsCount == CountViews(tensors)
      ensures state == old(state) && currSize == old(currSize) && dtype == old(dtype) && pinned == old(pinned)
      ensures tl == old(tl)
      ensures tensors == ReservedUpTo(old(tensors), bytes, currSize) && viewsCount == CountViews(tensors)
    {
      ghost var ts0 := tensors;
      for i := 0 to currSize
        invariant state == old(state) && currSize == old(currSize) && dtype == old(dtype)
        invariant pinned == old(pinned) && tl == old(tl)
        invariant tensors == ReservedUpTo(ts0, bytes, i) && viewsCount == CountViews(tensors)
      {
        ReservedStep(ts0, bytes, i);
        SetSample(i, Reserved(tensors[i], bytes));
      }
    }

    // ---- Access ----

    /**
     * AsTensorList(check_contiguity): refused when contiguity is checked and the batch is
     * not fully contiguous; otherwise the block, with the metadata of each sample in use
     * copied into it.
     */
    method AsTensorList(checkContiguity: bool) returns (r: Result<TensorList>)
      modifies this
      requires Valid()
      requires checkContiguity || currSize <= |tl.samples|
      ensures Valid()
      ensures checkContiguity && !old(IsContiguous()) ==> r == Fail(NotContiguous) && unchanged(this)
      ensures !checkContiguity || old(IsContiguous()) ==>
                old(currSize) <= |old(tl).samples| &&
                r == Ok(tl) && tl == MetasCopied(old(tl), old(tensors), old(currSize)) &&
                tensors == old(tensors) && currSize == old(currSize) && viewsCount == old(viewsCount) &&
                state == old(state) && dtype == old(dtype) && pinned == old(pinned)
    {
      if checkContiguity && !IsContiguous() {
        return Fail(NotContiguous);
      }
      if checkContiguity {
        IsContiguousMeans();
        if currSize > 0 {
          assert tensors[currSize - 1].view;
        }
      }
      CopyMetas();
      r := Ok(tl);
    }

    /** The loop of AsTensorList: the block takes the metadata of every sample in use. */
    method CopyMetas()
      modifies this
      requires currSize <= |tl.samples| && currSize <= |tensors|
      ensures tensors == old(tensors) && currSize == old(currSize) && viewsCount == old(viewsCount)
      ensures state == old(state) && dtype == old(dtype) && pinned == old(pinned)
      ensures tl == MetasCopied(old(tl), tensors, currSize)
    {
      ghost var tl0 := tl;
      for idx := 0 to currSize
        invariant tensors == old(tensors) && currSize == old(currSize) && viewsCount == old(viewsCount)
        invariant state == old(state) && dtype == old(dtype) && pinned == old(pinned)
        invariant tl == MetasCopied(tl0, tensors, idx)
      {
        MetasCopiedStep(tl0, tensors, idx);
        tl := SetListMeta(tl, idx, tensors[idx].meta);
      }
    }

    /** nbytes(): the block's bytes when contiguous, otherwise the sum over every sample held. */
    method Nbytes() returns (n: nat)
      ensures n == if state == Contiguous then ListBytes(tl) else SumBytes(tensors)
    {
      if state == Contiguous {
        return ListBytes(tl);
      }
      n := 0;
      for i := 0 to |tensors|
        invariant n == SumBytes(tensors[..i])
      {
        assert tensors[..i + 1][..i] == tensors[..i];
        n := n + TensorBytes(tensors[i]);
      }
      assert tensors[..|tensors|] == tensors;
    }

    /** capacity(): the block's capacity when contiguous, otherwise the sum over every sample held. */
    method Capacity() returns (n: nat)
      ensures n == if state == Contiguous then tl.capacity else SumCapacity(tensors)
    {
      if state == Contiguous {
        return tl.capacity;
      }
      n := 0;
      for i := 0 to |tensors|
        invariant n == SumCapacity(tensors[..i])
      {
        assert tensors[..i + 1][..i] == tensors[..i];
        n := n + tensors[i].capacity;
      }
      assert tensors[..|tensors|] == tensors;
    }
  }
}
