/**
 * The ingestion policy of InputOperator (dali/pipeline/operator/builtin/input_operator.h):
 * the copy / no-copy override, the routing of each user batch to the share path or the
 * copy path of the operator's backend, and the bookkeeping of the queues: one
 * InputSourceState and one queued batch per call, one copy event per GPU copy, the
 * sticky flag behind the mixed-input warning, and the recycling of spent buffers.
 * The calls are taken one at a time; locks, the condition variable and the worker thread
 * are not modelled, and CUDA orders and events are tokens.
 */
module InputOperators {
  import opened Wrappers
  import opened DaliTypes
  import opened Batch

  datatype Backend = CPU | GPU

  /** AccessOrder: the host, or a device stream named by a token. */
  datatype Order = Host | Device(stream: nat)

  /** InputOperatorNoCopyMode. */
  datatype NoCopyMode = Default | ForceCopy | ForceNoCopy

  /** InputOperatorSettingMode: blocking copy, copy kernel, and the no-copy override. */
  datatype SettingMode = SettingMode(sync: bool, useCopyKernel: bool, noCopyMode: NoCopyMode)

  /** InputSourceState: whether shared data had to be copied, and the no-copy choice of the call. */
  datatype InputSourceState = InputSourceState(copiedSharedData: bool, noCopy: bool)

  /** A user batch: the device it lives on, its contents, whether it is one contiguous block, and its order. */
  datatype UserBatch = UserBatch(backend: Backend, list: TensorList, contiguous: bool, order: Order)

  /** A pooled output batch: its list and the order it is bound to. */
  datatype Slot = Slot(list: TensorList, order: Order)

  /** A pooled CUDA event and the order it was last recorded on. */
  datatype Event = Event(id: nat, recordedOn: Option<Order>)

  /** The five ways a call can be served. */
  datatype Path =
    | ShareHost       // CPU no-copy: the batch is shared
    | ShareDevice     // GPU no-copy of a contiguous batch: its storage is shared
    | ShareGathered   // GPU no-copy of a scattered batch: it is copied after all
    | CopyHost        // copy into a CPU operator
    | CopyDevice      // copy into a GPU operator

  // ---- The override ----

  /** The no-copy choice of SetDataSourceHelper: forced either way, or the operator's own setting. */
  function ActualNoCopy(noCopy: bool, mode: NoCopyMode): (r: bool)
    ensures mode == ForceCopy ==> !r
    ensures mode == ForceNoCopy ==> r
    ensures mode == Default ==> r == noCopy
  {
    match mode
    case ForceCopy => false
    case ForceNoCopy => true
    case Default => noCopy
  }

  /** The path a call takes on an operator of the given backend, when it does not fail. */
  function PathFor(backend: Backend, noCopy: bool, batch: UserBatch): Path {
    if noCopy then
      (if backend == CPU then ShareHost else if batch.contiguous then ShareDevice else ShareGathered)
    else
      (if backend == CPU then CopyHost else CopyDevice)
  }

  /** A no-copy call takes a share path and a copy call a copy path; the path belongs to the operator's backend. */
  lemma PathForRoutes(backend: Backend, noCopy: bool, batch: UserBatch)
    ensures noCopy <==> PathFor(backend, noCopy, batch) in {ShareHost, ShareDevice, ShareGathered}
    ensures PathFor(backend, noCopy, batch) in {ShareHost, CopyHost} <==> backend == CPU
    ensures PathFor(backend, noCopy, batch) == ShareDevice <==> noCopy && backend == GPU && batch.contiguous
  {
  }

  /** The state a call of the given path records. */
  function StateOf(p: Path): (s: InputSourceState)
    ensures s.noCopy <==> p in {ShareHost, ShareDevice, ShareGathered}
    ensures s.copiedSharedData <==> p == ShareGathered
  {
    match p
    case ShareHost => InputSourceState(false, true)
    case ShareDevice => InputSourceState(false, true)
    case ShareGathered => InputSourceState(true, true)
    case CopyHost => InputSourceState(false, false)
    case CopyDevice => InputSourceState(false, false)
  }

  /** The states recorded by a history of calls. */
  function StatesOf(h: seq<Path>): (r: seq<InputSourceState>)
    ensures |r| == |h| && forall i :: 0 <= i < |h| ==> r[i] == StateOf(h[i])
  {
    seq(|h|, i requires 0 <= i < |h| => StateOf(h[i]))
  }

  /** The paths that record a copy event: every GPU copy. */
  predicate PushesEvent(p: Path) {
    p == ShareGathered || p == CopyDevice
  }

  /** How many copy events a history of calls queued. */
  function EventsOf(h: seq<Path>): (n: nat)
    ensures n <= |h|
  {
    if h == [] then 0 else EventsOf(h[..|h| - 1]) + (if PushesEvent(h[|h| - 1]) then 1 else 0)
  }

  lemma EventsOfAppend(h: seq<Path>, p: Path)
    ensures EventsOf(h + [p]) == EventsOf(h) + (if PushesEvent(p) then 1 else 0)
  {
    assert (h + [p])[..|h|] == h;
  }

  /** What a history of calls records after one more call. */
  lemma Recorded(h: seq<Path>, p: Path, paths: set<Path>)
    requires forall i :: 0 <= i < |h| ==> h[i] in paths
    requires p in paths
    ensures EventsOf(h + [p]) == EventsOf(h) + (if PushesEvent(p) then 1 else 0)
    ensures StatesOf(h + [p]) == StatesOf(h) + [StateOf(p)]
    ensures ShareDevice in h + [p] <==> ShareDevice in h || p == ShareDevice
    ensures forall i :: 0 <= i < |h + [p]| ==> (h + [p])[i] in paths
  {
    EventsOfAppend(h, p);
  }

  /** A CPU operator never queues an event. */
  lemma {:induction false} EventsOfHost(h: seq<Path>)
    requires forall i :: 0 <= i < |h| ==> h[i] in {ShareHost, CopyHost}
    ensures EventsOf(h) == 0
    decreases |h|
  {
    if h != [] {
      assert forall i :: 0 <= i < |h| - 1 ==> h[..|h| - 1][i] == h[i];
      EventsOfHost(h[..|h| - 1]);
    }
  }

  // ---- CachingList ----

  /** CachingList: the queued elements in order, and the spent ones kept for reuse. */
  datatype CachingList<T> = CachingList(full: seq<T>, free: seq<T>)

  /** GetEmpty: a spent element when there is one, otherwise the new one given. */
  function TakeEmpty<T>(c: CachingList<T>, made: T): (r: (T, CachingList<T>))
    ensures r.1.full == c.full
    ensures c.free != [] ==> r.0 == c.free[0] && r.1.free == c.free[1..]
    ensures c.free == [] ==> r.0 == made && r.1 == c
  {
    if c.free == [] then (made, c) else (c.free[0], c.(free := c.free[1..]))
  }

  /** PushBack: the element joins the end of the queue. */
  function PushBack<T>(c: CachingList<T>, x: T): (r: CachingList<T>)
    ensures |r.full| == |c.full| + 1 && r.full[..|c.full|] == c.full && r.full[|c.full|] == x
    ensures r.free == c.free
  {
    c.(full := c.full + [x])
  }

  /** Recycle: spent elements join the end of the free list. */
  function Recycle<T>(c: CachingList<T>, xs: seq<T>): (r: CachingList<T>)
    ensures r.full == c.full && |r.free| == |c.free| + |xs| && r.free[..|c.free|] == c.free && r.free[|c.free|..] == xs
  {
    c.(free := c.free + xs)
  }

  /** A recycled element is the next one handed out once the earlier spent ones are used up. */
  lemma RecycledIsReused<T>(c: CachingList<T>, x: T, made: T)
    requires c.free == []
    ensures TakeEmpty(Recycle(c, [x]), made) == (x, c)
  {
    assert Recycle(c, [x]).free[1..] == [];
  }

  /** Taking an element and recycling it gives back the same free list, reordered only by the rotation. */
  lemma TakeThenRecycle<T>(c: CachingList<T>, made: T)
    requires c.free != []
    ensures Recycle(TakeEmpty(c, made).1, [TakeEmpty(c, made).0]).free == c.free[1..] + [c.free[0]]
    ensures |Recycle(TakeEmpty(c, made).1, [TakeEmpty(c, made).0]).free| == |c.free|
  {
  }

  /** A new output list: empty, untyped, pinned by default. */
  function NewList(id: nat): TensorList {
    TensorList(id, [], NoType, 0, true)
  }

  /** The pinned adjustment before a batch is shared or copied: a mismatching list is reset and takes the flag. */
  function AdoptPinned(tl: TensorList, pinned: bool): (r: TensorList)
    ensures r.pinned == pinned && r.id == tl.id
    ensures tl.pinned == pinned ==> r == tl
    ensures tl.pinned != pinned ==> r.samples == [] && r.dtype == NoType && r.capacity == 0
  {
    if tl.pinned != pinned then ResetList(tl).(pinned := pinned) else tl
  }

  // ---- What one served call does to the pools ----

  /** The queues and the next name, the part of the operator a served call changes besides its state. */
  datatype Pools = Pools(tlData: CachingList<Slot>, copyEvents: CachingList<Event>, nextId: nat)

  /**
   * A call served on path p: a batch is taken from the pool (or made), filled and queued;
   * a GPU copy also takes (or makes) an event, records it and queues it. The shared paths
   * queue the user's list itself, the others a copy of it into the taken batch; a GPU copy
   * records its event on the caller's order, or on the internal order when that is not a
   * device order.
   */
  function Serve(pools: Pools, internal: Order, p: Path, batch: UserBatch, order: Order): (r: Pools)
    ensures |r.tlData.full| == |pools.tlData.full| + 1 && r.tlData.full[..|pools.tlData.full|] == pools.tlData.full
    ensures pools.tlData.free != [] ==> r.tlData.free == pools.tlData.free[1..]
    ensures pools.tlData.free == [] ==> r.tlData.free == []
    ensures p in {ShareHost, ShareDevice} ==> r.tlData.full[|pools.tlData.full|].list == batch.list
    ensures p !in {ShareHost, ShareDevice} ==>
              r.tlData.full[|pools.tlData.full|].list.samples == batch.list.samples &&
              r.tlData.full[|pools.tlData.full|].list.dtype == batch.list.dtype
    ensures !PushesEvent(p) ==> r.copyEvents == pools.copyEvents
    ensures PushesEvent(p) ==>
              |r.copyEvents.full| == |pools.copyEvents.full| + 1 &&
              r.copyEvents.full[..|pools.copyEvents.full|] == pools.copyEvents.full &&
              r.copyEvents.full[|pools.copyEvents.full|].recordedOn ==
                Some(if p == ShareGathered || order.Device? then order else internal)
    ensures r.nextId == pools.nextId + (if pools.tlData.free == [] then 1 else 0) +
                        (if PushesEvent(p) && pools.copyEvents.free == [] then 1 else 0)
  {
    var taken := TakeEmpty(pools.tlData, Slot(NewList(pools.nextId), internal));
    var next := taken.0.(order := internal);
    var id := if pools.tlData.free == [] then pools.nextId + 1 else pools.nextId;
    var queued := match p
      case ShareHost => Slot(batch.list, next.order)
      case ShareDevice => Slot(batch.list, batch.order)
      case CopyHost => Slot(CopyList(AdoptPinned(next.list, batch.list.pinned), batch.list), Host)
      case _ => next.(list := CopyList(next.list, batch.list));
    if !PushesEvent(p) then
      Pools(PushBack(taken.1, queued), pools.copyEvents, id)
    else
      var event := TakeEmpty(pools.copyEvents, Event(id, None));
      var recordedOn := if p == ShareGathered || order.Device? then order else internal;
      Pools(PushBack(taken.1, queued), PushBack(event.1, Event(event.0.id, Some(recordedOn))),
            if pools.copyEvents.free == [] then id + 1 else id)
  }

  /** The list SetDataSource builds from a vector of samples: shaped like the samples, typed and pinned like the first. */
  function ListOf(samples: seq<Tensor>, id: nat): (tl: TensorList)
    requires samples != []
    ensures tl.id == id && |tl.samples| == |samples| && tl.dtype == samples[0].dtype && tl.pinned == samples[0].pinned
    ensures forall i :: 0 <= i < |samples| ==> tl.samples[i] == ListSample(samples[i].shape, samples[i].meta)
  {
    TensorList(id, seq(|samples|, i requires 0 <= i < |samples| => ListSample(samples[i].shape, samples[i].meta)),
               samples[0].dtype, 0, samples[0].pinned)
  }

  /** The availability check before a run. */
  datatype Availability = Ready | Waits | Unavailable(error: Error)

  // ---- The operator ----

  class InputOperator {
    const backend: Backend
    const blocking: bool
    const noCopy: bool
    /** The order pooled batches are bound to: the host for a CPU operator, the internal copy stream for a GPU one. */
    const internalCopyOrder: Order
    var tlData: CachingList<Slot>
    var copyEvents: CachingList<Event>
    var state: seq<InputSourceState>
    /** zero_copy_noncontiguous_gpu_input_. */
    var zeroCopySeen: bool
    /** The next name for a made list or event. */
    var nextId: nat
    /** The path each call took, oldest first. */
    ghost var history: seq<Path>

    /**
     * Every call left one state and one queued batch; each state records how its call
     * was served; the GPU copies left one event each; the flag is set exactly when a
     * contiguous batch was shared on the GPU; and a CPU operator served every call on the host.
     */
    ghost predicate Valid()
      reads this
    {
      (backend == CPU <==> internalCopyOrder == Host) &&
      |tlData.full| == |history| && state == StatesOf(history) &&
      |copyEvents.full| == EventsOf(history) &&
      (zeroCopySeen <==> ShareDevice in history) &&
      (backend == CPU ==> forall i :: 0 <= i < |history| ==> history[i] in {ShareHost, CopyHost}) &&
      (backend == GPU ==> forall i :: 0 <= i < |history| ==> history[i] in {ShareDevice, ShareGathered, CopyDevice})
    }

    /** InputOperator(spec): no data queued; a GPU operator binds its batches to an internal stream. */
    constructor(backend: Backend, blocking: bool, noCopy: bool, internalStream: nat)
      ensures Valid() && state == [] && tlData == CachingList([], []) && copyEvents == CachingList([], [])
      ensures this.backend == backend && this.blocking == blocking && this.noCopy == noCopy
      ensures internalCopyOrder == if backend == GPU then Device(internalStream) else Host
      ensures !zeroCopySeen && history == []
    {
      this.backend := backend;
      this.blocking := blocking;
      this.noCopy := noCopy;
      internalCopyOrder := if backend == GPU then Device(internalStream) else Host;
      tlData := CachingList([], []);
      copyEvents := CachingList([], []);
      state := [];
      zeroCopySeen := false;
      nextId := 0;
      history := [];
    }

    /** The queues and the next name. */
    function PoolState(): Pools
      reads this
    {
      Pools(tlData, copyEvents, nextId)
    }

    /** The batch GetEmptyOutputBatch hands out in the current state. */
    function NextSlot(): Slot
      reads this
    {
      TakeEmpty(tlData, Slot(NewList(nextId), internalCopyOrder)).0.(order := internalCopyOrder)
    }

    /** The event copy_to_storage_events_.GetEmpty hands out in the current state. */
    function NextEvent(): Event
      reads this
    {
      TakeEmpty(copyEvents, Event(nextId, None)).0
    }

    /** GetEmptyOutputBatch: a pooled batch, or a made one, bound to the internal copy order. */
    method GetEmptyOutputBatch() returns (slot: Slot)
      modifies this
      ensures slot == old(NextSlot()) && slot.order == internalCopyOrder
      ensures tlData.full == old(tlData.full)
      ensures old(tlData.free) != [] ==> tlData.free == old(tlData.free)[1..] && nextId == old(nextId)
      ensures old(tlData.free) == [] ==> tlData.free == [] && nextId == old(nextId) + 1
      ensures copyEvents == old(copyEvents) && state == old(state) && zeroCopySeen == old(zeroCopySeen)
      ensures history == old(history)
    {
      var taken := TakeEmpty(tlData, Slot(NewList(nextId), internalCopyOrder));
      if tlData.free == [] {
        nextId := nextId + 1;
      }
      tlData := taken.1;
      slot := taken.0.(order := internalCopyOrder);
    }

    /** copy_to_storage_events_.GetEmpty: a pooled event, or a made one. */
    method GetEmptyEvent() returns (e: Event)
      modifies this
      ensures e == old(NextEvent())
      ensures copyEvents.full == old(copyEvents.full)
      ensures old(copyEvents.free) != [] ==> copyEvents.free == old(copyEvents.free)[1..] && nextId == old(nextId)
      ensures old(copyEvents.free) == [] ==> copyEvents.free == [] && nextId == old(nextId) + 1
      ensures tlData == old(tlData) && state == old(state) && zeroCopySeen == old(zeroCopySeen)
      ensures history == old(history)
    {
      var taken := TakeEmpty(copyEvents, Event(nextId, None));
      if copyEvents.free == [] {
        nextId := nextId + 1;
      }
      copyEvents := taken.1;
      e := taken.0;
    }

    /** Queues a served call: its batch, its state and, for a GPU copy, its event. */
    method Enqueue(slot: Slot, p: Path)
      modifies this
      requires Valid() && !PushesEvent(p) && p != ShareDevice
      requires backend == CPU <==> p in {ShareHost, CopyHost}
      ensures Valid()
      ensures tlData == PushBack(old(tlData), slot) && state == old(state) + [StateOf(p)]
      ensures copyEvents == old(copyEvents) && zeroCopySeen == old(zeroCopySeen) && nextId == old(nextId)
      ensures history == old(history) + [p]
    {
      Recorded(history, p, if backend == CPU then {ShareHost, CopyHost} else {ShareDevice, ShareGathered, CopyDevice});
      tlData := PushBack(tlData, slot);
      state := state + [StateOf(p)];
      history := history + [p];
    }

    /** Queues a served GPU copy: its batch, its event and its state. */
    method EnqueueCopy(slot: Slot, e: Event, p: Path)
      modifies this
      requires Valid() && backend == GPU && PushesEvent(p)
      ensures Valid()
      ensures tlData == PushBack(old(tlData), slot) && copyEvents == PushBack(old(copyEvents), e)
      ensures state == old(state) + [StateOf(p)] && history == old(history) + [p]
      ensures zeroCopySeen == old(zeroCopySeen) && nextId == old(nextId)
    {
      Recorded(history, p, {ShareDevice, ShareGathered, CopyDevice});
      tlData := PushBack(tlData, slot);
      copyEvents := PushBack(copyEvents, e);
      state := state + [StateOf(p)];
      history := history + [p];
    }

    /**
     * HandleDataAvailability: a blocking operator waits while nothing is queued, a
     * non-blocking one fails; either proceeds once a state is queued.
     */
    method HandleDataAvailability() returns (r: Availability)
      ensures r == Unavailable(NoDataAvailable) <==> !blocking && state == []
      ensures r == Waits <==> blocking && state == []
      ensures r == Ready <==> state != []
    {
      if blocking {
        r := if state == [] then Waits else Ready;
      } else {
        if state == [] {
          return Unavailable(NoDataAvailable);
        }
        r := Ready;
      }
    }

    /** RecycleBuffer: the spent batches, and the spent copy events when given, return to their pools. */
    method RecycleBuffer(data: seq<Slot>, copyToGpu: Option<seq<Event>>)
      modifies this
      requires Valid()
      ensures Valid()
      ensures tlData == Recycle(old(tlData), data)
      ensures copyToGpu.None? ==> copyEvents == old(copyEvents)
      ensures copyToGpu.Some? ==> copyEvents == Recycle(old(copyEvents), copyToGpu.value)
      ensures state == old(state) && zeroCopySeen == old(zeroCopySeen) && nextId == old(nextId)
      ensures history == old(history)
    {
      tlData := Recycle(tlData, data);
      if copyToGpu.Some? {
        copyEvents := Recycle(copyEvents, copyToGpu.value);
      }
    }

    // ---- Share paths ----

    /**
     * ShareUserData: refused when the batch lives on the other device; otherwise the
     * share path of the operator's backend queues one batch.
     */
    method ShareUserData(batch: UserBatch, order: Order) returns (r: Outcome, warned: bool)
      modifies this
      requires Valid()
      ensures Valid()
      ensures batch.backend != backend ==> r == Failure(UnsupportedNoCopy) && !warned && unchanged(this)
      ensures batch.backend == backend ==>
                r == Pass && history == old(history) + [PathFor(backend, true, batch)] &&
                |tlData.full| == |old(tlData.full)| + 1 && tlData.full[..|old(tlData.full)|] == old(tlData.full)
      ensures batch.backend == backend ==>
                PoolState() == Serve(old(PoolState()), internalCopyOrder, PathFor(backend, true, batch), batch, order) &&
                state == old(state) + [StateOf(PathFor(backend, true, batch))] &&
                zeroCopySeen == (old(zeroCopySeen) || PathFor(backend, true, batch) == ShareDevice)
      ensures warned <==> batch.backend == backend && PathFor(backend, true, batch) == ShareGathered && old(zeroCopySeen)
    {
      if batch.backend != backend {
        return Failure(UnsupportedNoCopy), false;
      }
      if backend == CPU {
        ShareHostBatch(batch);
        warned := false;
      } else if batch.contiguous {
        ShareDeviceBatch(batch);
        warned := false;
      } else {
        warned := ShareGatheredBatch(batch, order);
      }
      r := Pass;
    }

    /** The CPU share path: the pooled batch, reset first when its pinned flag differs, shares the user's list. */
    method ShareHostBatch(batch: UserBatch)
      modifies this
      requires Valid() && backend == CPU
      ensures Valid()
      ensures tlData.full == old(tlData.full) + [Slot(batch.list, old(NextSlot()).order)]
      ensures PoolState() == Serve(old(PoolState()), internalCopyOrder, ShareHost, batch, Host)
      ensures state == old(state) + [InputSourceState(false, true)] && history == old(history) + [ShareHost]
      ensures copyEvents == old(copyEvents) && zeroCopySeen == old(zeroCopySeen)
    {
      var slot := GetEmptyOutputBatch();
      // The pooled list is reset and takes the user's pinned flag; ShareData then replaces it whole.
      ghost var adjusted := AdoptPinned(slot.list, batch.list.pinned);
      Enqueue(slot.(list := batch.list), ShareHost);
    }

    /** The GPU share path for a contiguous batch: its storage and order are shared, and the flag is set. */
    method ShareDeviceBatch(batch: UserBatch)
      modifies this
      requires Valid() && backend == GPU
      ensures Valid()
      ensures tlData.full == old(tlData.full) + [Slot(batch.list, batch.order)]
      ensures PoolState() == Serve(old(PoolState()), internalCopyOrder, ShareDevice, batch, batch.order)
      ensures state == old(state) + [InputSourceState(false, true)] && history == old(history) + [ShareDevice]
      ensures copyEvents == old(copyEvents) && zeroCopySeen
    {
      var slot := GetEmptyOutputBatch();
      slot := Slot(batch.list, batch.order);
      zeroCopySeen := true;
      Recorded(history, ShareDevice, {ShareDevice, ShareGathered, CopyDevice});
      tlData := PushBack(tlData, slot);
      state := state + [StateOf(ShareDevice)];
      history := history + [ShareDevice];
    }

    /**
     * The GPU share path for a scattered batch: it is copied into the pooled batch, an
     * event is recorded on the caller's order and queued, and the warning is raised when
     * a contiguous batch was shared before.
     */
    method ShareGatheredBatch(batch: UserBatch, order: Order) returns (warned: bool)
      modifies this
      requires Valid() && backend == GPU
      ensures Valid()
      ensures tlData.full == old(tlData.full) + [old(NextSlot()).(list := CopyList(old(NextSlot()).list, batch.list))]
      ensures |copyEvents.full| == |old(copyEvents.full)| + 1 && copyEvents.full[..|old(copyEvents.full)|] == old(copyEvents.full)
      ensures copyEvents.full[|old(copyEvents.full)|].recordedOn == Some(order)
      ensures PoolState() == Serve(old(PoolState()), internalCopyOrder, ShareGathered, batch, order)
      ensures state == old(state) + [InputSourceState(true, true)] && history == old(history) + [ShareGathered]
      ensures warned == old(zeroCopySeen) && zeroCopySeen == old(zeroCopySeen)
    {
      var slot := GetEmptyOutputBatch();
      slot := slot.(list := CopyList(slot.list, batch.list));
      var e := GetEmptyEvent();
      e := Event(e.id, Some(order));
      warned := zeroCopySeen;
      EnqueueCopy(slot, e, ShareGathered);
    }

    // ---- Copy paths ----

    /**
     * CopyUserData on a CPU operator: the pooled batch is bound to the host, reset when
     * its pinned flag differs, and receives a copy of the user's list, made in the host
     * order for a host source and in the caller's order otherwise.
     */
    method CopyHostBatch(batch: UserBatch, order: Order) returns (copyOrder: Order)
      modifies this
      requires Valid() && backend == CPU
      ensures Valid()
      ensures copyOrder == if batch.backend == CPU then Host else order
      ensures tlData.full == old(tlData.full) +
                [Slot(CopyList(AdoptPinned(old(NextSlot()).list, batch.list.pinned), batch.list), Host)]
      ensures tlData.full[|tlData.full| - 1].list.pinned == batch.list.pinned
      ensures PoolState() == Serve(old(PoolState()), internalCopyOrder, CopyHost, batch, order)
      ensures state == old(state) + [InputSourceState(false, false)] && history == old(history) + [CopyHost]
      ensures copyEvents == old(copyEvents) && zeroCopySeen == old(zeroCopySeen)
    {
      var slot := GetEmptyOutputBatch();
      slot := slot.(order := Host);
      slot := slot.(list := AdoptPinned(slot.list, batch.list.pinned));
      copyOrder := if batch.backend == CPU then Host else order;
      slot := slot.(list := CopyList(slot.list, batch.list));
      Enqueue(slot, CopyHost);
    }

    /**
     * CopyUserData on a GPU operator: a caller's order that is not a device order is
     * replaced by the pooled batch's own; the copy is made and an event recorded in that
     * order, and both the batch and the event are queued.
     */
    method CopyDeviceBatch(batch: UserBatch, order: Order) returns (copyOrder: Order)
      modifies this
      requires Valid() && backend == GPU
      ensures Valid()
      ensures copyOrder == if order.Device? then order else internalCopyOrder
      ensures copyOrder.Device?
      ensures tlData.full == old(tlData.full) + [old(NextSlot()).(list := CopyList(old(NextSlot()).list, batch.list))]
      ensures |copyEvents.full| == |old(copyEvents.full)| + 1 && copyEvents.full[..|old(copyEvents.full)|] == old(copyEvents.full)
      ensures copyEvents.full[|old(copyEvents.full)|].recordedOn == Some(copyOrder)
      ensures PoolState() == Serve(old(PoolState()), internalCopyOrder, CopyDevice, batch, order)
      ensures state == old(state) + [InputSourceState(false, false)] && history == old(history) + [CopyDevice]
      ensures zeroCopySeen == old(zeroCopySeen)
    {
      var slot := GetEmptyOutputBatch();
      var e := GetEmptyEvent();
      copyOrder := order;
      if !copyOrder.Device? {
        copyOrder := slot.order;
      }
      slot := slot.(list := CopyList(slot.list, batch.list));
      e := Event(e.id, Some(copyOrder));
      EnqueueCopy(slot, e, CopyDevice);
    }

    // ---- Entry points ----

    /**
     * SetDataSourceHelper: the no-copy override decides between the share path and the
     * copy path, exactly one of which runs. Only a no-copy call with a batch on the other
     * device fails, and then nothing changes; any other call queues one batch and one state.
     */
    method SetDataSourceHelper(batch: UserBatch, order: Order, mode: SettingMode) returns (r: Outcome, warned: bool)
      modifies this
      requires Valid()
      ensures Valid()
      ensures r.Failure? <==> ActualNoCopy(noCopy, mode.noCopyMode) && batch.backend != backend
      ensures r.Failure? ==> r.error == UnsupportedNoCopy && unchanged(this)
      ensures r.Pass? ==>
                history == old(history) + [PathFor(backend, ActualNoCopy(noCopy, mode.noCopyMode), batch)] &&
                state == old(state) + [StateOf(PathFor(backend, ActualNoCopy(noCopy, mode.noCopyMode), batch))] &&
                |tlData.full| == |old(tlData.full)| + 1 && tlData.full[..|old(tlData.full)|] == old(tlData.full)
      ensures r.Pass? ==>
                PoolState() == Serve(old(PoolState()), internalCopyOrder,
                                     PathFor(backend, ActualNoCopy(noCopy, mode.noCopyMode), batch), batch, order) &&
                zeroCopySeen == (old(zeroCopySeen) || PathFor(backend, ActualNoCopy(noCopy, mode.noCopyMode), batch) == ShareDevice)
      ensures warned <==> r.Pass? && PathFor(backend, ActualNoCopy(noCopy, mode.noCopyMode), batch) == ShareGathered &&
                          old(zeroCopySeen)
      ensures old(zeroCopySeen) ==> zeroCopySeen
    {
      var actualNoCopy := noCopy;
      match mode.noCopyMode {
        case ForceCopy =>
          actualNoCopy := false;
        case ForceNoCopy =>
          actualNoCopy := true;
        case Default =>
          actualNoCopy := noCopy;
      }
      if actualNoCopy {
        r, warned := ShareUserData(batch, order);
      } else {
        if backend == CPU {
          var _ := CopyHostBatch(batch, order);
        } else {
          var _ := CopyDeviceBatch(batch, order);
        }
        r, warned := Pass, false;
      }
    }

    /**
     * SetDataSource from a vector of samples: an empty vector is refused; otherwise the
     * samples form a list shaped like the first (its type and pinned flag), which is not
     * one contiguous block, and it is handed to SetDataSourceHelper.
     */
    method SetDataSource(samples: seq<Tensor>, srcBackend: Backend, srcOrder: Order, order: Order, mode: SettingMode)
        returns (r: Outcome, warned: bool)
      modifies this
      requires Valid()
      ensures Valid()
      ensures samples == [] ==> r == Failure(EmptyBatch) && unchanged(this)
      ensures samples != [] ==>
                (r.Failure? <==> ActualNoCopy(noCopy, mode.noCopyMode) && srcBackend != backend)
      ensures samples != [] && r.Pass? ==>
                |history| == |old(history)| + 1 &&
                history[|old(history)|] == if ActualNoCopy(noCopy, mode.noCopyMode) then
                                             (if backend == CPU then ShareHost else ShareGathered)
                                           else (if backend == CPU then CopyHost else CopyDevice)
      ensures samples != [] && r.Failure? ==>
                r.error == UnsupportedNoCopy && nextId == old(nextId) + 1 &&
                tlData == old(tlData) && copyEvents == old(copyEvents) && state == old(state) &&
                zeroCopySeen == old(zeroCopySeen) && history == old(history)
      ensures samples != [] && r.Pass? ==>
                var batch := UserBatch(srcBackend, ListOf(samples, old(nextId)), false, srcOrder);
                var p := PathFor(backend, ActualNoCopy(noCopy, mode.noCopyMode), batch);
                PoolState() == Serve(old(PoolState()).(nextId := old(nextId) + 1), internalCopyOrder, p, batch, order) &&
                state == old(state) + [StateOf(p)] && zeroCopySeen == old(zeroCopySeen)
    {
      if samples == [] {
        return Failure(EmptyBatch), false;
      }
      var tl := ListOf(samples, nextId);
      nextId := nextId + 1;
      r, warned := SetDataSourceHelper(UserBatch(srcBackend, tl, false, srcOrder), order, mode);
    }

    // ---- The mixed-input warning ----

    /** The warning is raised only after a contiguous batch was shared on the GPU, and the flag stays set. */
    lemma WarningMeaning()
      requires Valid()
      ensures zeroCopySeen <==> exists i :: 0 <= i < |history| && history[i] == ShareDevice
      ensures backend == CPU ==> !zeroCopySeen
    {
      if backend == CPU {
        assert forall i :: 0 <= i < |history| ==> history[i] != ShareDevice;
      }
    }

    /** The copy events queued are those of the GPU copies, none on a CPU operator. */
    lemma EventsMeaning()
      requires Valid()
      ensures backend == CPU ==> |copyEvents.full| == 0
      ensures |copyEvents.full| <= |tlData.full|
    {
      if backend == CPU {
        EventsOfHost(history);
      }
    }
  }
}
