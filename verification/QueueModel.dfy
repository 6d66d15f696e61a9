/** The state of a `BufferQueue` and one transition per mutex-held region.
    Loops of the C++ code appear here in closed form; module BufferQueues holds the
    loops and proves that they compute these functions. */
module QueueModel {
  import opened Lists

  const INVALID_SEQUENCE: SeqNum := 0xFFFF_FFFF
  const MAX_QUEUE_SIZE: u32 := 64
  const ONE_SECOND: int := 1_000_000_000
  const INT64_MAX: int := 0x7FFF_FFFF_FFFF_FFFF
  const U64: nat := 0x1_0000_0000_0000_0000
  const USAGE_PROTECTED: bv64 := 0x800
  const GAMUT_INVALID: int := -1
  const GAMUT_DISPLAY_BT2020: int := 10
  const TRANSFORM_BUTT: int := 12

  datatype BufferState = Released | Requested | Flushed | Acquired | Attached

  datatype Config = Config(width: int, height: int, format: int, usage: bv64, gamut: int, transform: int)

  /** `BufferRequestConfig::operator==` compares four of the fields. */
  predicate SameConfig(a: Config, b: Config) {
    a.width == b.width && a.height == b.height && a.format == b.format && a.usage == b.usage
  }

  /** A surface buffer: its number, the memory behind it (`token`), the configuration it was
      requested with, the one read back from its handle, and its consumer-attach flag. */
  datatype Buffer = Buffer(id: SeqNum, token: nat, request: Config, shape: Config, consumerAttach: bool)

  datatype Element = Element(buffer: Buffer, state: BufferState, isDeleting: bool, config: Config,
                             preAlloc: bool, listenerPid: int, desired: int, auto: bool, timestamp: int)

  /** Fields that only plain setters write. `handOut` is the three-part test that selects
      `OnBufferReleasedWithSequenceAndFence`. */
  datatype Settings = Settings(noBlock: bool, priorityAlloc: bool, valid: bool, batch: bool, listener: bool,
                               dropLevel: int, defaultUsage: bv64, handOut: bool, listenerPid: int)

  /** An allocation whose `Alloc` call runs while the mutex is released. */
  datatype Pending = Pending(config: Config, realloc: bool)

  datatype Queue = Queue(
    cache: map<SeqNum, Element>,
    free: seq<SeqNum>, dirty: seq<SeqNum>, deleting: seq<SeqNum>, resent: seq<SeqNum>,
    cacheClean: bool,
    size: u32, maxSize: u32, reserved: u32,
    locked: SeqNum, lastFlushed: SeqNum,
    allocating: bool, pending: map<SeqNum, Pending>,
    lowering: seq<SeqNum>,          // granted, but waiting to lower `cacheClean`
    opts: Settings)

  datatype Error = NoConsumer | NoListener | Unknown | NoBuffer | NotInCache | StateInvalid | NotReady
                 | InvalidArguments | InvalidOperating | QueueFull | InCache | OutOfRange | NoEntry | NotSupport
                 | NotConnected

  datatype Outcome =
    | Done
    | Failed(error: Error)
    | Blocked                       // waits on a condition variable; nothing changed
    | Allocating(num: SeqNum)     // the mutex is released inside AllocBuffer
    | Granted(id: SeqNum, buffer: Option<Buffer>, deleting: seq<SeqNum>)
    | Took(id: SeqNum, timestamp: int)
    | Dropped(frames: seq<SeqNum>)
    | Returned(handed: seq<SeqNum>)
    | Cleaned(gone: seq<SeqNum>)

  datatype Next = Next(q: Queue, out: Outcome)

  function Fail(s: Queue, e: Error): Next { Next(s, Failed(e)) }

  function Initial(opts: Settings): Queue {
    Queue(map[], [], [], [], [], false, 3, 0, 0, INVALID_SEQUENCE, 0, false, map[], [], opts)
  }

  // ---- arithmetic of the C++ unsigned fields ----

  function Sub32(a: u32, b: u32): u32 { if b <= a then a - b else a + U32 - b }

  /** `bufferQueueSize_ - detachReserveSlotNum_`. */
  function Room(s: Queue): u32 { Sub32(s.size, s.reserved) }

  function Used(s: Queue): nat { |s.cache| }

  // ---- small updates ----

  function SetState(s: Queue, q: SeqNum, st: BufferState): Queue
    requires q in s.cache
  {
    s.(cache := s.cache[q := s.cache[q].(state := st)])
  }

  function Erase(s: Queue, q: SeqNum): Queue { s.(cache := s.cache - {q}) }

  /** DeleteBufferInCacheNoWaitForAllocatingState. */
  function DeleteInCache(s: Queue, q: SeqNum): Queue {
    if q !in s.cache then s
    else Erase(s, q).(free := Without(s.free, q),
                      deleting := if s.cache[q].preAlloc then s.deleting else s.deleting + [q])
  }

  // ---- selecting a free buffer ----

  predicate Fits(s: Queue, q: SeqNum, cfg: Config) {
    q in s.cache && SameConfig(s.cache[q].config, cfg) && q != s.locked
  }

  /** Index of the first entry at or after `i` of the free list that fits `cfg`. */
  function FirstFit(s: Queue, cfg: Config, i: nat): (k: nat)
    requires i <= |s.free|
    ensures i <= k <= |s.free|
    ensures forall j :: i <= j < k ==> !Fits(s, s.free[j], cfg)
    ensures k < |s.free| ==> Fits(s, s.free[k], cfg)
    decreases |s.free| - i
  {
    if i == |s.free| || Fits(s, s.free[i], cfg) then i else FirstFit(s, cfg, i + 1)
  }

  datatype Popped = Popped(q: Option<SeqNum>, free: seq<SeqNum>)

  /** PopFromFreeListLocked. */
  function PopFree(s: Queue, cfg: Config): Popped {
    var k := FirstFit(s, cfg, 0);
    if k < |s.free| then Popped(Some(s.free[k]), s.free[..k] + s.free[k + 1..])
    else if s.free == [] || Used(s) < Room(s) || s.free == [s.locked] then Popped(None, s.free)
    else if s.free[0] == s.locked then Popped(Some(s.free[1]), s.free[2..] + [s.locked])
    else Popped(Some(s.free[0]), s.free[1..])
  }

  /** WaitForCondition. */
  predicate WaitCondition(s: Queue) {
    (s.free != [] && s.free != [s.locked]) || Used(s) < Room(s) || !s.opts.valid
  }

  // ---- granting a buffer to the producer ----

  predicate AllResent(s: Queue) { forall q :: q in s.cache ==> q in s.resent }

  /** The buffer itself, not only its number, must travel in the reply. */
  predicate NeedsResend(s: Queue, q: SeqNum)
    requires q in s.cache
  {
    s.cacheClean || s.cache[q].buffer.consumerAttach || s.cache[q].preAlloc
  }

  /** UpdateReuseBufferState. */
  function Grant(s: Queue, q: SeqNum, realloc: bool, listener: bool): Next
    requires q in s.cache
  {
    var e := s.cache[q];
    if realloc || NeedsResend(s, q) then
      if listener then Fail(SetState(s, q, Released).(deleting := [], free := s.free + [q]), NoBuffer)
      else
        var b := e.buffer.(consumerAttach := false);
        var s1 := s.(cache := s.cache[q := e.(state := Requested, buffer := b, preAlloc := false)], deleting := []);
        Next(RecordResent(s1, q), Granted(q, Some(b), s.deleting))
    else Next(SetState(s, q, Requested).(deleting := []), Granted(q, None, s.deleting))
  }

  /** Once every id has been sent the flag is lowered. That waits for an announced allocation, in
      which case the rest of the grant is LowerFlag. */
  function RecordResent(s: Queue, q: SeqNum): Queue {
    if !s.cacheClean then s
    else
      var s1 := s.(resent := s.resent + [q]);
      if !AllResent(s1) then s1
      else if s.allocating then s1.(lowering := s.lowering + [q])
      else s.(cacheClean := false, resent := [])
  }

  /** What `bufferQueueCache_[q]` inserts when the entry is gone. */
  function NoElement(q: SeqNum): Element {
    var c := Config(0, 0, 0, 0, 0, 0);
    Element(Buffer(q, 0, c, c, false), Released, false, c, false, 0, 0, false, 0)
  }

  /** The end of UpdateReuseBufferState after its wait: it lowers the flag without looking at the
      cache again, and clears the marks of the buffer it granted. */
  function LowerFlag(s: Queue, q: SeqNum): Next {
    var e := if q in s.cache then s.cache[q] else NoElement(q);
    Next(s.(cacheClean := false, resent := [], lowering := Without(s.lowering, q),
            cache := s.cache[q := e.(buffer := e.buffer.(consumerAttach := false), preAlloc := false)]), Done)
  }

  /** AllocBuffer up to the point where it releases the mutex. */
  function StartAlloc(s: Queue, num: SeqNum, cfg: Config, realloc: bool): Next {
    Next(s.(allocating := true, pending := s.pending[num := Pending(cfg, realloc)]), Allocating(num))
  }

  /** AllocBuffer after it has the mutex again, and what its caller does with the result. */
  function FinishAlloc(s: Queue, n: SeqNum, ok: bool, token: nat): Next
    requires n in s.pending
  {
    var p := s.pending[n];
    var s1 := s.(allocating := false, pending := s.pending - {n});
    if !ok then Fail(s1, Unknown)
    else
      var b := Buffer(n, token, p.config, p.config, false);
      var s2 := s1.(cache := s1.cache[n := Element(b, Requested, false, p.config, false, 0, 0, false, 0)]);
      if p.realloc then Grant(s2, n, true, false)
      else Next(s2.(deleting := []), Granted(n, Some(b), s2.deleting))
  }

  /** ReuseBuffer (and ReallocBufferLocked when the configurations differ). */
  function Reuse(s: Queue, q: SeqNum, cfg: Config, num: SeqNum, listener: bool): Next {
    if q !in s.cache then Fail(s, Unknown)
    else if SameConfig(cfg, s.cache[q].config) then Grant(s, q, false, listener)
    else if listener then Fail(s.(free := s.free + [q]), NoBuffer)
    else StartAlloc(DeleteInCache(s, q), num, cfg, true)
  }

  function WithUsage(cfg: Config, usage: bv64): Config { cfg.(usage := cfg.usage | usage) }

  function WithDefault(s: Queue, cfg: Config): Config { WithUsage(cfg, s.opts.defaultUsage) }

  predicate ConfigOk(cfg: Config) {
    GAMUT_INVALID < cfg.gamut <= GAMUT_DISPLAY_BT2020 + 1 && 0 <= cfg.transform < TRANSFORM_BUTT
  }

  /** RequestBufferLocked. */
  function Request(s: Queue, cfg: Config, num: SeqNum, listener: bool): Next {
    if !s.opts.batch && !s.opts.valid then Fail(s, NoConsumer)
    else if !s.opts.batch && !s.opts.listener then Fail(s, NoListener)
    else if !ConfigOk(WithDefault(s, cfg)) then Fail(s, Unknown)
    else if s.allocating then Next(s, Blocked)
    else Dequeue(s, WithDefault(s, cfg), num, listener)
  }

  /** RequestBufferLocked after its wait for `isAllocatingBuffer_`. */
  function Dequeue(s: Queue, cfg: Config, num: SeqNum, listener: bool): Next {
    if s.opts.priorityAlloc && Used(s) < Room(s) && !listener then StartAlloc(s, num, cfg, false)
    else
      var p := PopFree(s, cfg);
      if p.q.Some? then Reuse(s.(free := p.free), p.q.value, cfg, num, listener)
      else if listener then Fail(s, NoBuffer)
      else if Used(s) >= Room(s) then
        if s.opts.noBlock then Steal(s, cfg, num) else Next(s, Blocked)
      else StartAlloc(s, num, cfg, false)
  }

  /** ReuseBufferForBlockMode after its timed wait. */
  function AfterWait(s: Queue, cfg: Config, num: SeqNum): Next {
    if !s.opts.valid && !s.opts.batch then Fail(s, NoConsumer)
    else
      var p := PopFree(s, cfg);
      if p.q.Some? then Reuse(s.(free := p.free), p.q.value, cfg, num, false) else Fail(s, NoBuffer)
  }

  /** ReuseBufferForNoBlockMode. */
  function Steal(s: Queue, cfg: Config, num: SeqNum): Next {
    if s.dirty == [] then Fail(s, NoBuffer)
    else Reuse(s.(dirty := s.dirty[1..]), s.dirty[0], cfg, num, false)
  }

  // ---- producer side: cancel and flush ----

  function Cancel(s: Queue, q: SeqNum): Next {
    if q !in s.cache then Fail(s, NotInCache)
    else if s.cache[q].state !in {Requested, Attached} then Fail(s, StateInvalid)
    else Next(s.(cache := s.cache[q := s.cache[q].(state := Released, listenerPid := 0)], free := s.free + [q]), Done)
  }

  /** What a flush brings: the two timestamps, the clock, and whether the damage list and
      the CPU cache flush are fine. */
  datatype Frame = Frame(desired: int, ui: nat, now: int, damagesOk: bool, cacheFlushOk: bool)

  /** SetDesiredPresentTimestampAndUiTimestamp. */
  function Stamp(e: Element, f: Frame): Element {
    var useUi := f.desired == 0 && f.ui != 0 && f.ui <= INT64_MAX;
    e.(auto := f.desired <= 0 && !useUi,
       desired := if f.desired > 0 then f.desired else if useUi then f.ui else f.now,
       timestamp := f.ui)
  }

  /** DoFlushBufferLocked. */
  function DoFlush(s: Queue, q: SeqNum, f: Frame): Next {
    if q !in s.cache then Fail(s, NotInCache)
    else if s.cache[q].isDeleting then Next(DeleteInCache(s, q), Done)
    else if !f.cacheFlushOk then Fail(s, Unknown)
    else
      var e := Stamp(s.cache[q].(state := Flushed, listenerPid := 0), f);
      Next(s.(cache := s.cache[q := e], dirty := s.dirty + [q], lastFlushed := q), Done)
  }

  /** FlushBufferImprovedLocked; with `plain`, FlushBuffer as one step. */
  function Flush(s: Queue, q: SeqNum, f: Frame, plain: bool): Next {
    if !s.opts.valid then Fail(s, NoConsumer)
    else if !f.damagesOk then Fail(s, InvalidArguments)
    else if q !in s.cache then Fail(s, NotInCache)
    else if s.cache[q].state !in {Requested, Attached} then Fail(s, StateInvalid)
    else if !s.opts.listener then Fail(if plain then Cancel(s, q).q else s, NoListener)
    else DoFlush(s, q, f)
  }

  // ---- consumer side: acquire and release ----

  function Acquire(s: Queue): Next {
    if s.dirty == [] || s.dirty[0] !in s.cache then Fail(s, NoBuffer)
    else Next(SetState(s, s.dirty[0], Acquired).(dirty := s.dirty[1..]),
              Took(s.dirty[0], s.cache[s.dirty[0]].timestamp))
  }

  /** The first `n` dirty frames leave the list and become Acquired. */
  function DropFront(s: Queue, n: nat): Queue
    requires n <= |s.dirty|
  {
    s.(dirty := s.dirty[n..],
       cache := map q | q in s.cache :: if q in s.dirty[..n] then s.cache[q].(state := Acquired) else s.cache[q])
  }

  /** DropBuffersByLevel. */
  function DropByLevel(s: Queue): Next {
    var n := |s.dirty| - s.opts.dropLevel;
    if s.opts.dropLevel <= 0 || n <= 0 then Next(s, Dropped([])) else Next(DropFront(s, n), Dropped(s.dirty[..n]))
  }

  predicate Eligible(e: Element, due: int, useAuto: bool) {
    !(e.auto && !useAuto) && e.desired <= due
  }

  /** isBufferUtilPresentTimestampReady. */
  predicate PresentReady(desired: int, due: int) {
    desired <= due || desired - ONE_SECOND > due
  }

  /** Length of the longest eligible prefix of the dirty list from `i` on. */
  function EligibleRun(s: Queue, i: nat, due: int, useAuto: bool): (k: nat)
    requires i <= |s.dirty|
    ensures k <= |s.dirty| - i
    ensures forall j :: i <= j < i + k ==> s.dirty[j] in s.cache && Eligible(s.cache[s.dirty[j]], due, useAuto)
    ensures i + k < |s.dirty| && s.dirty[i + k] in s.cache ==> !Eligible(s.cache[s.dirty[i + k]], due, useAuto)
    decreases |s.dirty| - i
  {
    if i == |s.dirty| || s.dirty[i] !in s.cache || !Eligible(s.cache[s.dirty[i]], due, useAuto) then 0
    else 1 + EligibleRun(s, i + 1, due, useAuto)
  }

  /** The second locked region of the timed AcquireBuffer. */
  function TimedSelect(s: Queue, due: int, useAuto: bool): Next {
    if s.dirty == [] || s.dirty[0] !in s.cache then Fail(s, NoBuffer)
    else
      var k := EligibleRun(s, 0, due, useAuto);
      var e := s.cache[s.dirty[0]];
      if k == 0 then
        if !e.auto && !PresentReady(e.desired, due) then Fail(s, NotReady) else Next(s, Dropped([]))
      else Next(DropFront(s, k - 1), Dropped(s.dirty[..k - 1]))
  }

  /** ReleaseBufferLocked. */
  function ReleaseLocked(s: Queue, q: SeqNum): Next {
    if q !in s.cache then Fail(s, NotInCache)
    else if s.cache[q].state !in {Acquired, Attached} then Fail(s, StateInvalid)
    else
      var s1 := SetState(s, q, Released);
      Next(if s.cache[q].isDeleting then DeleteInCache(s1, q) else s1.(free := s.free + [q]), Done)
  }

  /** The distinct configurations found in the free list, first occurrence first. */
  function FreeConfigs(s: Queue, i: nat, found: seq<Config>): seq<Config>
    requires i <= |s.free|
    decreases |s.free| - i
  {
    if i == |s.free| then found
    else if s.free[i] !in s.cache then FreeConfigs(s, i + 1, found)
    else
      var c := s.cache[s.free[i]].buffer.request;
      FreeConfigs(s, i + 1, if exists d :: d in found && SameConfig(d, c) then found else found + [c])
  }

  datatype Handed = Handed(q: Queue, ids: seq<SeqNum>)

  /** A listener request that is granted takes an id off the free list; none makes it longer. */
  lemma ListenerRequestSize(s: Queue, cfg: Config)
    ensures var r := Request(s, cfg, 0, true);
            if r.out.Granted? then |r.q.free| < |s.free| else |r.q.free| <= |s.free|
  {
  }

  /** The hand-out loop of RequestBuffersForListenerLocked. */
  function HandOutLoop(s: Queue, configs: seq<Config>): Handed
    decreases |s.free|, |configs|
  {
    if configs == [] then Handed(s, [])
    else
      ListenerRequestSize(s, configs[0]);
      var r := Request(s, configs[0], 0, true);
      if r.out.Granted? && r.out.id in r.q.cache then
        var q := r.out.id;
        var e := r.q.cache[q].(listenerPid := s.opts.listenerPid);
        var h := HandOutLoop(r.q.(cache := r.q.cache[q := e]), configs);
        Handed(h.q, [q] + h.ids)
      else HandOutLoop(r.q, configs[1..])
  }

  function HandOut(s: Queue): Handed { HandOutLoop(s, FreeConfigs(s, 0, [])) }

  /** ReleaseBuffer up to the end of its locked region. */
  function Release(s: Queue, q: SeqNum): Next {
    var r := ReleaseLocked(s, q);
    if r.out.Failed? then r
    else if s.opts.handOut then
      var h := HandOut(r.q);
      Next(h.q, Returned(h.ids))
    else Next(r.q, Returned([]))
  }

  // ---- attach and detach ----

  datatype Invoker = Producer | Consumer

  /** AttachBufferToQueueLocked. */
  function AttachToQueue(s: Queue, b: Buffer, who: Invoker): Next {
    if who == Consumer && s.opts.handOut then Fail(s, InvalidOperating)
    else if Used(s) >= s.size then Fail(s, QueueFull)
    else if b.id in s.cache then Fail(s, InCache)
    else
      var e := Element(b, if who == Producer then Requested else Acquired, false, b.request, false, 0, 0, false, 0);
      Next(s.(cache := s.cache[b.id := e],
              reserved := if who == Consumer && s.reserved > 0 then s.reserved - 1 else s.reserved), Done)
  }

  /** The buffer object `b` has its attach flag raised; the queue may hold that very object. */
  function Raised(s: Queue, b: Buffer): Queue {
    if b.id !in s.cache || s.cache[b.id].buffer.token != b.token then s
    else s.(cache := s.cache[b.id := s.cache[b.id].(buffer := s.cache[b.id].buffer.(consumerAttach := true))])
  }

  /** ConsumerSurface::AttachBufferToQueue raises the flag of the buffer object first, even when the
      queue then refuses the attach. */
  function ConsumerAttach(s: Queue, b: Buffer): Next {
    var r := AttachToQueue(s, b.(consumerAttach := true), Consumer);
    if r.out.Failed? then Next(Raised(s, b), r.out) else r
  }

  /** DetachBufferFromQueueLocked. */
  function DetachFromQueue(s: Queue, q: SeqNum, who: Invoker, reserve: bool): Next {
    if q !in s.cache then Fail(s, NotInCache)
    else if s.cache[q].state != (if who == Producer then Requested else Acquired) then Fail(s, StateInvalid)
    else if who == Producer then Next(Erase(s, q), Done)
    else
      Next(DeleteInCache(s, q).(reserved := if !reserve then s.reserved
                                            else if s.reserved + 1 == U32 then 0 else s.reserved + 1), Done)
  }

  /** ConsumerSurface::DetachBufferFromQueue clears the flag of the buffer object first, even
      when the queue then refuses the detach. */
  function ConsumerDetach(s: Queue, q: SeqNum, reserve: bool): Next {
    var s1 := if q !in s.cache then s else
                s.(cache := s.cache[q := s.cache[q].(buffer := s.cache[q].buffer.(consumerAttach := false))]);
    DetachFromQueue(s1, q, Consumer, reserve)
  }

  /** AttachBuffer. */
  function AttachBuffer(s: Queue, b: Buffer): Next {
    if !s.opts.valid then Fail(s, NoConsumer)
    else if !s.opts.listener then Fail(s, NoListener)
    else if b.id in s.cache then
      if s.cache[b.id].state != Released then Fail(s, StateInvalid)
      else Next(SetState(s, b.id, Attached).(free := Without(s.free, b.id)), Done)
    else
      var e := Element(b, Attached, false, b.shape, false, 0, 0, false, 0);
      var over := Used(s) - s.size + 1;
      if over > |s.free| + |s.dirty| then Fail(s, OutOfRange)
      else
        var s1 := DeleteBuffers(s, over);
        Next(s1.(cache := s1.cache[b.id := e]), Done)
  }

  /** DetachBuffer. */
  function DetachBuffer(s: Queue, q: SeqNum): Next {
    if q !in s.cache || s.cache[q].state !in {Requested, Acquired} then Fail(s, NoEntry)
    else Next(Erase(s, q), Done)
  }

  // ---- shrinking and clearing ----

  lemma {:induction false} FindLeast(keys: set<SeqNum>) returns (k: SeqNum)
    requires keys != {}
    ensures k in keys && forall j :: j in keys ==> k <= j
  {
    var x :| x in keys;
    k := x;
    if keys != {x} {
      var y := FindLeast(keys - {x});
      if y < x { k := y; }
      assert forall j :: j in keys ==> j == x || j in keys - {x};
    }
  }

  /** The key a `std::map` iterates over first. */
  function Least(keys: set<SeqNum>): (k: SeqNum)
    requires keys != {}
    ensures k in keys && forall j :: j in keys ==> k <= j
  {
    assert exists k :: k in keys && forall j :: j in keys ==> k <= j by { var k := FindLeast(keys); }
    var k :| k in keys && forall j :: j in keys ==> k <= j;
    k
  }

  /** `count` entries of the map, in iteration order over `keys`, get their isDeleting mark. */
  function MarkLowest(cache: map<SeqNum, Element>, keys: set<SeqNum>, count: int): map<SeqNum, Element>
    requires keys <= cache.Keys
    decreases keys
  {
    if count <= 0 || keys == {} then cache
    else
      var k := Least(keys);
      MarkLowest(cache[k := cache[k].(isDeleting := true)], keys - {k}, count - 1)
  }

  /** One round of the two deleting loops of DeleteBuffersLocked. */
  function DeleteHead(s: Queue): Queue
    requires s.free != [] || s.dirty != []
  {
    if s.free != [] then DeleteInCache(s, s.free[0]).(free := s.free[1..])
    else DeleteInCache(s, s.dirty[0]).(free := [], dirty := s.dirty[1..])
  }

  /** DeleteBuffersLocked. */
  function DeleteBuffers(s: Queue, count: int): Queue
    decreases |s.free| + |s.dirty|
  {
    if count <= 0 then s
    else if s.free == [] && s.dirty == [] then s.(cache := MarkLowest(s.cache, s.cache.Keys, count))
    else DeleteBuffers(DeleteHead(s), count - 1)
  }

  function Clamped(s: Queue, n: u32): u32 { if s.maxSize != 0 && n > s.maxSize then s.maxSize else n }

  /** SetQueueSizeLocked. */
  function SetQueueSizeLocked(s: Queue, n: u32): Next {
    var m := Clamped(s, n);
    if m < s.reserved then Fail(s, InvalidArguments)
    else Next(DeleteBuffers(s, s.size - m).(size := m), Done)
  }

  function SetQueueSize(s: Queue, n: u32): Next {
    if n == 0 || n > MAX_QUEUE_SIZE then Fail(s, InvalidArguments) else SetQueueSizeLocked(s, n)
  }

  function SetMaxQueueSize(s: Queue, n: u32): Next {
    if n == 0 || n > MAX_QUEUE_SIZE then Fail(s, InvalidArguments)
    else if s.size > n then SetQueueSizeLocked(s.(maxSize := n), n)
    else Next(s.(maxSize := n), Done)
  }

  /** ClearLocked. */
  function Clear(s: Queue): Queue { s.(cache := map[], free := [], dirty := [], deleting := []) }

  function SetCleanFlagLocked(s: Queue, flag: bool): Queue { s.(cacheClean := flag, resent := []) }

  /** SetProducerCacheCleanFlag when nothing runs between its two locked regions, the clearing of
      the queue in listener mode and the flag itself; in runs they are EvClear and EvSetCleanFlag. */
  function SetCleanFlag(s: Queue, flag: bool): Queue {
    SetCleanFlagLocked(if flag && s.opts.handOut then Clear(s) else s, flag)
  }

  predicate Spared(s: Queue, q: SeqNum) { q == s.lastFlushed || q == s.locked }

  /** CleanReleasedBuffersLocked. */
  function CleanReleased(s: Queue): Next {
    var gone := Keep(s.free, (q: SeqNum) => !Spared(s, q));
    Next(s.(free := Keep(s.free, (q: SeqNum) => Spared(s, q)), cache := s.cache - Elems(gone)), Cleaned(gone))
  }

  /** CleanProducerBySeqNum. */
  function CleanBySeqNum(s: Queue, ids: seq<SeqNum>): Queue {
    s.(cache := s.cache - Elems(ids),
       free := Keep(s.free, (q: SeqNum) => q !in ids || q !in s.cache),
       dirty := Keep(s.dirty, (q: SeqNum) => q !in ids || q !in s.cache))
  }

  // ---- pre-allocation ----

  datatype Spare = Spare(id: SeqNum, token: nat)

  predicate PreAllocConfigOk(cfg: Config) {
    cfg.width > 0 && cfg.height > 0 && 0 <= cfg.format < 0x7FFF_FFFF
  }

  /** The count after clamping; the subtraction mixes uint32_t and size_t and so wraps at 2^64. */
  function PreAllocCount(s: Queue, count: u32): u32 {
    var spare: nat := (Room(s) - Used(s)) % U64;
    if count > spare then spare else count
  }

  datatype Plan = Refused(error: Error) | Allocate(count: u32, config: Config)

  /** The first region of PreAllocBuffers: how many buffers it goes on to allocate, and for what. */
  function PreAllocPlan(s: Queue, cfg: Config, count: u32): Plan {
    if !PreAllocConfigOk(cfg) || count == 0 then Refused(InvalidArguments)
    else if PreAllocCount(s, count) == 0 then Refused(QueueFull)
    else Allocate(PreAllocCount(s, count), WithDefault(s, cfg))
  }

  function PreAllocElement(p: Spare, cfg: Config): Element {
    Element(Buffer(p.id, p.token, cfg, cfg, false), Released, false, cfg, true, 0, 0, false, 0)
  }

  /** The insertion loop of PreAllocBuffers over the buffers that were allocated. */
  function PreAllocInsert(s: Queue, cfg: Config, ready: seq<Spare>): Next
    decreases |ready|
  {
    if ready == [] then Next(s, Done)
    else if Used(s) >= Room(s) then Fail(s, QueueFull)
    else
      var p := ready[0];
      PreAllocInsert(s.(cache := s.cache[p.id := PreAllocElement(p, cfg)], free := s.free + [p.id]), cfg, ready[1..])
  }

  // ---- the last flushed buffer ----

  /** AcquireLastFlushedBuffer. */
  function LockLastFlushed(s: Queue): Next {
    if s.locked != INVALID_SEQUENCE then Fail(s, StateInvalid)
    else if s.lastFlushed !in s.cache then Fail(s, Unknown)
    else if s.cache[s.lastFlushed].state == Requested then Fail(s, StateInvalid)
    else if s.cache[s.lastFlushed].buffer.shape.usage & USAGE_PROTECTED != 0 then Fail(s, NotSupport)
    else Next(s.(locked := s.lastFlushed), Took(s.lastFlushed, 0))
  }

  /** ReleaseLastFlushedBuffer. */
  function UnlockLastFlushed(s: Queue, q: SeqNum): Next {
    if s.locked == INVALID_SEQUENCE || s.locked != q then Fail(s, StateInvalid)
    else Next(s.(locked := INVALID_SEQUENCE), Done)
  }

  /** AttachAndFlushBuffer: a flush that fails undoes the attach. */
  function AttachAndFlush(s: Queue, b: Buffer, f: Frame): Next {
    var r := AttachToQueue(s, b, Producer);
    if r.out.Failed? then r
    else
      var t := Flush(r.q, b.id, f, false);
      if t.out.Failed? then Next(s, t.out) else t
  }

  // ---- runs ----

  datatype Event =
    | EvRequest(config: Config, num: SeqNum)
    | EvDequeue(config: Config, num: SeqNum)      // a request resumes after waiting for an allocation
    | EvAfterWait(config: Config, num: SeqNum)    // a request resumes after its timed wait
    | EvFinishAlloc(num: SeqNum, ok: bool, token: nat)
    | EvCancel(id: SeqNum)
    | EvFlush(id: SeqNum, frame: Frame)
    | EvAttachAndFlush(buffer: Buffer, frame: Frame)
    | EvAcquire
    | EvDropByLevel
    | EvTimedSelect(due: int, useAuto: bool)
    | EvRelease(id: SeqNum)
    | EvProducerAttach(buffer: Buffer)
    | EvConsumerAttach(buffer: Buffer)
    | EvProducerDetach(id: SeqNum)
    | EvConsumerDetach(id: SeqNum, reserve: bool)
    | EvAttachBuffer(buffer: Buffer)
    | EvDetachBuffer(id: SeqNum)
    | EvSetQueueSize(n: u32)
    | EvSetMaxQueueSize(n: u32)
    | EvPreAlloc(config: Config, ready: seq<Spare>)
    | EvClear
    | EvSetCleanFlag(flag: bool)
    | EvCleanReleased
    | EvCleanBySeqNum(ids: seq<SeqNum>)
    | EvLock
    | EvUnlock(id: SeqNum)
    | EvConfigure(opts: Settings)
    | EvLowerFlag(id: SeqNum)                     // a grant goes on after waiting to lower the clean flag
    | EvTurnedAway                                // CheckConnectLocked refuses a call before it reaches the queue

  /** A number that no live buffer of this queue holds. */
  predicate Fresh(s: Queue, n: SeqNum) { n !in s.cache && n !in s.pending }

  predicate FreshAll(s: Queue, ready: seq<Spare>) {
    && (forall i :: 0 <= i < |ready| ==> Fresh(s, ready[i].id))
    && (forall i, j :: 0 <= i < j < |ready| ==> ready[i].id != ready[j].id)
  }

  /** Steps that wait for `isAllocatingBuffer_` happen only when no allocation is announced;
      new buffers come with fresh numbers. */
  predicate Enabled(s: Queue, e: Event) {
    match e
    case EvRequest(_, n) => Fresh(s, n)
    case EvDequeue(_, n) => !s.allocating && Fresh(s, n)
    case EvAfterWait(_, n) => Fresh(s, n)
    case EvFinishAlloc(n, _, _) => n in s.pending
    case EvFlush(q, _) => q in s.cache && s.cache[q].isDeleting ==> !s.allocating
    case EvRelease(q) => (q in s.cache && s.cache[q].isDeleting) || s.opts.handOut ==> !s.allocating
    case EvAttachAndFlush(b, _) => b.id !in s.pending
    case EvProducerAttach(b) => b.id !in s.pending
    case EvConsumerAttach(b) => b.id !in s.pending
    case EvAttachBuffer(b) => b.id !in s.pending && (b.id !in s.cache && Used(s) >= s.size ==> !s.allocating)
    case EvConsumerDetach(q, _) => q in s.cache && s.cache[q].state == Acquired ==> !s.allocating
    case EvSetQueueSize(n) => s.size > Clamped(s, n) ==> !s.allocating
    case EvSetMaxQueueSize(n) => s.size > n ==> !s.allocating
    case EvPreAlloc(_, ready) => FreshAll(s, ready)
    case EvClear => !s.allocating
    case EvSetCleanFlag(_) => !s.allocating
    case EvCleanReleased => !s.allocating
    case EvLowerFlag(q) => !s.allocating && q in s.lowering && q in s.cache
    case _ => true
  }

  function Step(s: Queue, e: Event): Next
    requires Enabled(s, e)
  {
    match e
    case EvRequest(c, n) => Request(s, c, n, false)
    case EvDequeue(c, n) => Dequeue(s, c, n, false)
    case EvAfterWait(c, n) => AfterWait(s, c, n)
    case EvFinishAlloc(n, ok, t) => FinishAlloc(s, n, ok, t)
    case EvCancel(q) => Cancel(s, q)
    case EvFlush(q, f) => Flush(s, q, f, true)
    case EvAttachAndFlush(b, f) => AttachAndFlush(s, b, f)
    case EvAcquire => Acquire(s)
    case EvDropByLevel => DropByLevel(s)
    case EvTimedSelect(x, a) => TimedSelect(s, x, a)
    case EvRelease(q) => Release(s, q)
    case EvProducerAttach(b) => AttachToQueue(s, b, Producer)
    case EvConsumerAttach(b) => ConsumerAttach(s, b)
    case EvProducerDetach(q) => DetachFromQueue(s, q, Producer, false)
    case EvConsumerDetach(q, r) => ConsumerDetach(s, q, r)
    case EvAttachBuffer(b) => AttachBuffer(s, b)
    case EvDetachBuffer(q) => DetachBuffer(s, q)
    case EvSetQueueSize(n) => SetQueueSize(s, n)
    case EvSetMaxQueueSize(n) => SetMaxQueueSize(s, n)
    case EvPreAlloc(c, ready) => PreAllocInsert(s, c, ready)
    case EvClear => Next(Clear(s), Done)
    case EvSetCleanFlag(f) => Next(SetCleanFlagLocked(s, f), Done)
    case EvCleanReleased => CleanReleased(s)
    case EvCleanBySeqNum(ids) => Next(CleanBySeqNum(s, ids), Done)
    case EvLock => LockLastFlushed(s)
    case EvUnlock(q) => UnlockLastFlushed(s, q)
    case EvConfigure(t) => Next(s.(opts := t), Done)
    case EvLowerFlag(q) => LowerFlag(s, q)
    case EvTurnedAway => Fail(s, NotConnected)
  }

  /** `es` can happen from `s`, one event after the other. */
  predicate CanRun(s: Queue, es: seq<Event>)
    decreases |es|
  {
    es == [] || (Enabled(s, es[0]) && CanRun(Step(s, es[0]).q, es[1..]))
  }

  function Run(s: Queue, es: seq<Event>): Queue
    requires CanRun(s, es)
    decreases |es|
  {
    if es == [] then s else Run(Step(s, es[0]).q, es[1..])
  }
}
