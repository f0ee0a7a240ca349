/**
 * Samples (Tensor) and flat blocks (TensorList) as values. tensor.h, tensor_list.h and
 * buffer.h are not part of this model: each operation below is the behaviour that
 * dali/pipeline/data/tensor_vector.cc relies on, stated as a function.
 */
module Batch {
  import opened DaliTypes

  /** DALIMeta, reduced to the source information and the skip flag. */
  datatype Meta = Meta(sourceInfo: string, skipSample: bool)

  const NoMeta: Meta := Meta("", false)

  /** Where a sample's bytes live: nowhere, slice `index` of block `block`, or an allocation of its own. */
  datatype Ptr = Null | Slice(block: nat, index: nat) | Private

  /** The shape of a sample that holds nothing. */
  const ResetShape: Shape := [0]

  /**
   * A sample. `sharesData` is Buffer::shares_data(); `view` says that the sample's
   * storage carries the ViewRefDeleter of the batch that holds it.
   */
  datatype Tensor = Tensor(data: Ptr, shape: Shape, dtype: DALIDataType, capacity: nat,
                           pinned: bool, meta: Meta, sharesData: bool, view: bool)

  /** Tensor::nbytes(). */
  function TensorBytes(t: Tensor): nat {
    Bytes(t.shape, t.dtype)
  }

  /** A fresh sample (make_shared<Tensor>() followed by set_pinned). */
  function NewTensor(pinned: bool): Tensor {
    Tensor(Null, ResetShape, NoType, 0, pinned, NoMeta, false, false)
  }

  /** Tensor::Reset: drops storage, shape, type and metadata; the pinned flag stays. */
  function ResetTensor(t: Tensor): (r: Tensor)
    ensures r.data == Null && r.shape == ResetShape && !r.sharesData && !r.view && r.pinned == t.pinned
  {
    NewTensor(t.pinned)
  }

  /** Storage for `bytes` bytes: kept when it is large enough, otherwise a fresh allocation of its own. */
  function Reserved(t: Tensor, bytes: nat): (r: Tensor)
    ensures r.capacity >= bytes && r.shape == t.shape && r.dtype == t.dtype && r.meta == t.meta && r.pinned == t.pinned
    ensures bytes <= t.capacity ==> r == t
    ensures r.view ==> t.view && r.sharesData == t.sharesData
  {
    if bytes <= t.capacity then t
    else t.(data := Private, capacity := bytes, sharesData := false, view := false)
  }

  /** Tensor::Resize(shape, type). */
  function ResizeTensor(t: Tensor, shape: Shape, dtype: DALIDataType): (r: Tensor)
    ensures r.shape == shape && r.dtype == dtype && TensorBytes(r) <= r.capacity
    ensures r.view ==> t.view && r.sharesData == t.sharesData
  {
    Reserved(t.(shape := shape, dtype := dtype), Bytes(shape, dtype))
  }

  /** Tensor::set_type. */
  function SetTensorType(t: Tensor, dtype: DALIDataType): (r: Tensor)
    ensures r.shape == t.shape && r.dtype == dtype && r.meta == t.meta
    ensures r.view ==> t.view && r.sharesData == t.sharesData
  {
    ResizeTensor(t, t.shape, dtype)
  }

  /** Tensor::ShareData(const Tensor &): the same storage, shape, type and metadata, now shared. */
  function ShareTensor(src: Tensor): (r: Tensor)
    ensures r.data == src.data && r.shape == src.shape && r.dtype == src.dtype && r.meta == src.meta
    ensures r.sharesData && !r.view
  {
    src.(sharesData := true, view := false)
  }

  /** Tensor::ShareData(ptr, bytes, shape, type) with a ViewRefDeleter: a view of `bytes` bytes at `ptr`. */
  function ViewTensor(t: Tensor, ptr: Ptr, bytes: nat, shape: Shape, dtype: DALIDataType): Tensor {
    Tensor(ptr, shape, dtype, bytes, t.pinned, t.meta, true, true)
  }

  // ---- Flat blocks ----

  /** One sample of a TensorList: its shape and its metadata. */
  datatype ListSample = ListSample(shape: Shape, meta: Meta)

  /** A TensorList: one block of storage, named by `id`, holding the samples one after another. */
  datatype TensorList = TensorList(id: nat, samples: seq<ListSample>, dtype: DALIDataType,
                                   capacity: nat, pinned: bool)

  /** Bytes taken by samples of the given shapes and type. */
  function SamplesBytes(s: seq<ListSample>, dtype: DALIDataType): nat {
    if s == [] then 0 else SamplesBytes(s[..|s| - 1], dtype) + Bytes(s[|s| - 1].shape, dtype)
  }

  /** TensorList::nbytes(). */
  function ListBytes(tl: TensorList): nat {
    SamplesBytes(tl.samples, tl.dtype)
  }

  /** TensorList::raw_mutable_tensor(i): slice i of the block, null while the block holds no storage. */
  function SliceOf(tl: TensorList, i: nat): (p: Ptr)
    ensures p != Null ==> p == Slice(tl.id, i)
  {
    if tl.capacity > 0 then Slice(tl.id, i) else Null
  }

  /** TensorList::Resize(shape, type): sample i takes shape i, metadata of surviving samples is kept. */
  function ResizeList(tl: TensorList, shapes: seq<Shape>, dtype: DALIDataType): (r: TensorList)
    ensures r.id == tl.id && r.dtype == dtype && r.pinned == tl.pinned && |r.samples| == |shapes|
    ensures forall i :: 0 <= i < |shapes| ==> r.samples[i].shape == shapes[i]
    ensures ListBytes(r) <= r.capacity
  {
    var samples := seq(|shapes|, i requires 0 <= i < |shapes| =>
                         ListSample(shapes[i], if i < |tl.samples| then tl.samples[i].meta else NoMeta));
    var need := SamplesBytes(samples, dtype);
    tl.(samples := samples, dtype := dtype, capacity := if need <= tl.capacity then tl.capacity else need)
  }

  /** TensorList::set_type. */
  function SetListType(tl: TensorList, dtype: DALIDataType): (r: TensorList)
    ensures r.id == tl.id && r.samples == tl.samples && r.dtype == dtype && ListBytes(r) <= r.capacity
  {
    var need := SamplesBytes(tl.samples, dtype);
    tl.(dtype := dtype, capacity := if need <= tl.capacity then tl.capacity else need)
  }

  /** TensorList::Reset: no samples, no type, no storage. */
  function ResetList(tl: TensorList): TensorList {
    TensorList(tl.id, [], NoType, 0, tl.pinned)
  }

  /** TensorList::reserve(bytes). */
  function ReserveList(tl: TensorList, bytes: nat): (r: TensorList)
    ensures r.capacity >= bytes && r.capacity >= tl.capacity && r.samples == tl.samples && r.dtype == tl.dtype
  {
    tl.(capacity := if bytes <= tl.capacity then tl.capacity else bytes)
  }

  /** TensorList::Copy: the source's samples and type in this block's own storage. */
  function CopyList(tl: TensorList, src: TensorList): (r: TensorList)
    ensures r.id == tl.id && r.samples == src.samples && r.dtype == src.dtype && r.pinned == tl.pinned
    ensures ListBytes(r) <= r.capacity
  {
    var need := ListBytes(src);
    TensorList(tl.id, src.samples, src.dtype, if need <= tl.capacity then tl.capacity else need, tl.pinned)
  }

  /** TensorList::SetMeta(i, meta). */
  function SetListMeta(tl: TensorList, i: nat, meta: Meta): (r: TensorList)
    requires i < |tl.samples|
    ensures r.samples == tl.samples[i := ListSample(tl.samples[i].shape, meta)]
  {
    tl.(samples := tl.samples[i := ListSample(tl.samples[i].shape, meta)])
  }
}
