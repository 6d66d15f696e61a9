/** The life of a buffer in the queue: which call may move it from which state to which, where an
    accepted call leaves it, and that a refused call changes nothing. */
module Lifecycle {
  import opened Lists
  import opened QueueModel
  import opened Partition
  import opened Requests
  import opened Shrink
  import opened HandOuts
  import opened FrameOrder
  import opened Protocols
  import opened Entries

  import Frames

  /** The state of `q`, or None when the queue does not hold it. */
  function At(s: Queue, q: SeqNum): Option<BufferState> { if q in s.cache then Some(s.cache[q].state) else None }

  const RELEASED := Some(Released)
  const REQUESTED := Some(Requested)
  const FLUSHED := Some(Flushed)
  const ACQUIRED := Some(Acquired)
  const ATTACHED := Some(Attached)

  /** The table of moves: `q` may go from `a` to `b` when `e` happens. */
  predicate Moves(opts: Settings, e: Event, q: SeqNum, a: Option<BufferState>, b: Option<BufferState>) {
    a == b ||
    match e
    case EvRequest(_, _) => (a == RELEASED || (a == FLUSHED && opts.noBlock)) && b in {REQUESTED, None}
    case EvDequeue(_, _) => (a == RELEASED || (a == FLUSHED && opts.noBlock)) && b in {REQUESTED, None}
    case EvAfterWait(_, _) => a == RELEASED && b in {REQUESTED, None}
    case EvFinishAlloc(n, ok, _) => q == n && ok && a == None && b == REQUESTED
    case EvCancel(x) => q == x && a in {REQUESTED, ATTACHED} && b == RELEASED
    case EvFlush(x, _) => q == x && a in {REQUESTED, ATTACHED} && if opts.listener then b in {FLUSHED, None} else b == RELEASED
    case EvAttachAndFlush(x, _) => q == x.id && a == None && b == FLUSHED
    case EvAcquire => a == FLUSHED && b == ACQUIRED
    case EvDropByLevel => a == FLUSHED && b == ACQUIRED
    case EvTimedSelect(_, _) => a == FLUSHED && b == ACQUIRED
    case EvRelease(x) =>
      || (q == x && a in {ACQUIRED, ATTACHED} && (b in {RELEASED, None} || (b == REQUESTED && opts.handOut)))
      || (a == RELEASED && b == REQUESTED && opts.handOut)
    case EvProducerAttach(x) => q == x.id && a == None && b == REQUESTED
    case EvConsumerAttach(x) => q == x.id && a == None && b == ACQUIRED
    case EvProducerDetach(x) => q == x && a == REQUESTED && b == None
    case EvConsumerDetach(x, _) => q == x && a == ACQUIRED && b == None
    case EvAttachBuffer(x) => if q == x.id then a in {RELEASED, None} && b == ATTACHED else a in {RELEASED, FLUSHED} && b == None
    case EvDetachBuffer(x) => q == x && a in {REQUESTED, ACQUIRED} && b == None
    case EvSetQueueSize(_) => a in {RELEASED, FLUSHED} && b == None
    case EvSetMaxQueueSize(_) => a in {RELEASED, FLUSHED} && b == None
    case EvPreAlloc(_, ready) => q in Ids(ready) && a == None && b == RELEASED
    case EvClear => b == None
    case EvSetCleanFlag(_) => false
    case EvCleanReleased => a == RELEASED && b == None
    case EvCleanBySeqNum(ids) => q in ids && b == None
    case EvLock => false
    case EvUnlock(_) => false
    case EvConfigure(_) => false
    case EvLowerFlag(_) => false
    case EvTurnedAway => false
  }

  lemma ListStates(s: Queue, q: SeqNum)
    requires Inv(s)
    ensures (q in s.free <==> At(s, q) == RELEASED) && (q in s.dirty <==> At(s, q) == FLUSHED)
  {
    assert InState(s.cache, q, Released) <==> q in s.free;
    assert InState(s.cache, q, Flushed) <==> q in s.dirty;
  }

  lemma RequestingMoves(s: Queue, e: Event, q: SeqNum)
    requires Inv(s) && Enabled(s, e) && Requesting(e)
    ensures Moves(s.opts, e, q, At(s, q), At(Step(s, e).q, q))
  {
    ListStates(s, q);
    if e.EvAfterWait? {
      AfterWaitMoves(s, e.config, e.num, q);
    } else {
      var x := RequestingEffect(s, e);
    }
  }

  lemma AfterWaitMoves(s: Queue, cfg: Config, n: SeqNum, q: SeqNum)
    requires Inv(s)
    ensures var b := At(AfterWait(s, cfg, n).q, q); At(s, q) == b || (At(s, q) == RELEASED && b in {REQUESTED, None})
  {
    PopShape(s, cfg);
    var p := PopFree(s, cfg);
    if p.q.Some? {
      ListStates(s, p.q.value);
      ReuseMoves(s, p.q.value, p.free, cfg, n, q);
    }
  }

  lemma ReuseMoves(s: Queue, x: SeqNum, free: seq<SeqNum>, cfg: Config, n: SeqNum, q: SeqNum)
    requires At(s, x) == RELEASED
    ensures var b := At(Reuse(s.(free := free), x, cfg, n, false).q, q); At(s, q) == b || (At(s, q) == RELEASED && b in {REQUESTED, None})
  {
  }

  lemma ReleaseMoves(s: Queue, x: SeqNum, q: SeqNum)
    requires Inv(s)
    ensures Moves(s.opts, EvRelease(x), q, At(s, q), At(Release(s, x).q, q))
  {
    ReleaseEffect(s, x);
    ReleaseLockedKeeps(s, x);
    var m, r := ReleaseLocked(s, x).q, Release(s, x);
    if r.out.Returned? {
      ListStates(m, q);
      assert q in r.out.handed ==> HandedEntry(m, r.q, q);
      assert q != x ==> At(m, q) == At(s, q);
    }
  }

  lemma ShrinkMoves(s: Queue, count: int, q: SeqNum)
    requires Inv(s)
    ensures var b := At(DeleteBuffers(s, count), q); b == At(s, q) || (At(s, q) in {RELEASED, FLUSHED} && b == None)
  {
    if count > 0 {
      ShrinkKeys(s, count);
      ListStates(s, q);
      CutMembers(Both(s), Found(s, count), q);
      if q in DeleteBuffers(s, count).cache { ShrinkMarks(s, count, q); }
    }
  }

  lemma ResizeMoves(s: Queue, n: u32, q: SeqNum)
    requires Inv(s)
    ensures Moves(s.opts, EvSetQueueSize(n), q, At(s, q), At(SetQueueSize(s, n).q, q))
    ensures Moves(s.opts, EvSetMaxQueueSize(n), q, At(s, q), At(SetMaxQueueSize(s, n).q, q))
  {
    ShrinkMoves(s, s.size - Clamped(s, n), q);
    ShrinkMoves(s.(maxSize := n), s.size - n, q);
  }

  lemma AttachBufferMoves(s: Queue, b: Buffer, q: SeqNum)
    requires Inv(s)
    ensures Moves(s.opts, EvAttachBuffer(b), q, At(s, q), At(AttachBuffer(s, b).q, q))
  {
    ShrinkMoves(s, Used(s) - s.size + 1, q);
  }

  lemma {:induction false} PreAllocMoves(s: Queue, cfg: Config, ready: seq<Spare>, q: SeqNum)
    requires FreshAll(s, ready)
    ensures var b := At(PreAllocInsert(s, cfg, ready).q, q); b == At(s, q) || (q in Ids(ready) && At(s, q) == None && b == RELEASED)
    decreases |ready|
  {
    if ready != [] && Used(s) < Room(s) {
      var p := ready[0];
      var s1 := s.(cache := s.cache[p.id := PreAllocElement(p, cfg)], free := s.free + [p.id]);
      assert FreshAll(s1, ready[1..]) by {
        forall i | 0 <= i < |ready[1..]| ensures Fresh(s1, ready[1..][i].id) { assert Fresh(s, ready[i + 1].id); }
      }
      assert Fresh(s, ready[0].id);
      PreAllocMoves(s1, cfg, ready[1..], q);
    }
  }

  lemma ConsumerMoves(s: Queue, due: int, useAuto: bool, q: SeqNum)
    requires Inv(s)
    ensures At(Acquire(s).q, q) == At(s, q) || (At(s, q) == FLUSHED && At(Acquire(s).q, q) == ACQUIRED)
    ensures At(DropByLevel(s).q, q) == At(s, q) || (At(s, q) == FLUSHED && At(DropByLevel(s).q, q) == ACQUIRED)
    ensures var t := TimedSelect(s, due, useAuto).q; At(t, q) == At(s, q) || (At(s, q) == FLUSHED && At(t, q) == ACQUIRED)
  {
    ListStates(s, q);
    assert forall n :: 0 <= n <= |s.dirty| && q in s.dirty[..n] ==> q in s.dirty;
  }

  lemma FlushMoves(s: Queue, x: SeqNum, f: Frame, q: SeqNum)
    ensures Moves(s.opts, EvFlush(x, f), q, At(s, q), At(Flush(s, x, f, true).q, q))
  {
  }

  lemma AttachAndFlushMoves(s: Queue, b: Buffer, f: Frame, q: SeqNum)
    ensures Moves(s.opts, EvAttachAndFlush(b, f), q, At(s, q), At(AttachAndFlush(s, b, f).q, q))
  {
  }

  lemma CleanMoves(s: Queue, q: SeqNum)
    requires Inv(s)
    ensures Moves(s.opts, EvCleanReleased, q, At(s, q), At(CleanReleased(s).q, q))
  {
    ListStates(s, q);
    KeepMembers(s.free, (x: SeqNum) => !Spared(s, x));
  }

  predicate Places(e: Event) {
    e.EvProducerAttach? || e.EvConsumerAttach? || e.EvProducerDetach? || e.EvConsumerDetach? || e.EvDetachBuffer?
  }

  lemma PlaceMoves(s: Queue, e: Event, q: SeqNum)
    requires Enabled(s, e) && Places(e)
    ensures Moves(s.opts, e, q, At(s, q), At(Step(s, e).q, q))
  {
  }

  predicate Minor(e: Event) {
    e.EvCancel? || e.EvClear? || e.EvSetCleanFlag? || e.EvCleanBySeqNum? || e.EvLock? || e.EvUnlock? || e.EvConfigure?
    || e.EvLowerFlag? || e.EvTurnedAway?
  }

  lemma MinorMoves(s: Queue, e: Event, q: SeqNum)
    requires Enabled(s, e) && Minor(e)
    ensures Moves(s.opts, e, q, At(s, q), At(Step(s, e).q, q))
  {
  }

  /** No step of any run moves a buffer otherwise than the table says. */
  lemma StepMoves(s: Queue, e: Event, q: SeqNum)
    requires Inv(s) && Enabled(s, e)
    ensures Moves(s.opts, e, q, At(s, q), At(Step(s, e).q, q))
  {
    match e {
      case EvRequest(_, _) => RequestingMoves(s, e, q);
      case EvDequeue(_, _) => RequestingMoves(s, e, q);
      case EvAfterWait(_, _) => RequestingMoves(s, e, q);
      case EvFinishAlloc(n, ok, t) => FinishEffect(s, n, ok, t);
      case EvFlush(x, f) => FlushMoves(s, x, f, q);
      case EvAttachAndFlush(b, f) => AttachAndFlushMoves(s, b, f, q);
      case EvAcquire => ConsumerMoves(s, 0, false, q);
      case EvDropByLevel => ConsumerMoves(s, 0, false, q);
      case EvTimedSelect(due, useAuto) => ConsumerMoves(s, due, useAuto, q);
      case EvRelease(x) => ReleaseMoves(s, x, q);
      case EvAttachBuffer(b) => AttachBufferMoves(s, b, q);
      case EvSetQueueSize(n) => ResizeMoves(s, n, q);
      case EvSetMaxQueueSize(n) => ResizeMoves(s, n, q);
      case EvPreAlloc(c, ready) => PreAllocMoves(s, c, ready, q);
      case EvCleanReleased => CleanMoves(s, q);
      case _ => if Places(e) { PlaceMoves(s, e, q); } else { MinorMoves(s, e, q); }
    }
  }

  // ---- where an accepted call leaves the buffer ----

  /** The buffer a call is about, and the state in which an accepted call leaves it. */
  predicate Arrives(s: Queue, e: Event, t: Queue) {
    match e
    case EvCancel(x) => At(t, x) == RELEASED && t.free == s.free + [x] && x !in Both(s) && t.cache[x].listenerPid == 0
    case EvFlush(x, f) =>
      if x in s.cache && s.cache[x].isDeleting then At(t, x) == None && t.dirty == s.dirty && x !in Both(t)
      else At(t, x) == FLUSHED && t.dirty == s.dirty + [x] && x !in Both(s) && t.lastFlushed == x && t.cache[x].listenerPid == 0 && Stamped(t.cache[x], f)
    case EvAttachAndFlush(b, f) =>
      At(t, b.id) == FLUSHED && t.dirty == s.dirty + [b.id] && b.id !in Both(s) && t.lastFlushed == b.id && Stamped(t.cache[b.id], f)
    case EvProducerAttach(b) => At(t, b.id) == REQUESTED && t.reserved == s.reserved && SameConfig(t.cache[b.id].config, b.request)
    case EvConsumerAttach(b) =>
      At(t, b.id) == ACQUIRED && t.cache[b.id].buffer.consumerAttach && t.reserved == (if s.reserved > 0 then s.reserved - 1 else 0)
    case EvProducerDetach(x) => At(t, x) == None && x !in Both(t) && t.deleting == s.deleting && t.reserved == s.reserved
    case EvConsumerDetach(x, reserve) =>
      At(t, x) == None && x !in Both(t) && (!reserve ==> t.reserved == s.reserved) && (reserve && s.reserved < U32 - 1 ==> t.reserved == s.reserved + 1)
    case EvAttachBuffer(b) => At(t, b.id) == ATTACHED && b.id !in t.free && (b.id !in s.cache ==> t.cache[b.id].buffer == b)
    case EvDetachBuffer(x) => At(t, x) == None && x !in Both(t) && t.deleting == s.deleting
    case EvUnlock(x) => s.locked == x && t.locked == INVALID_SEQUENCE
    case EvSetQueueSize(n) => t.size == (if 0 < s.maxSize < n then s.maxSize else n)
    case EvSetMaxQueueSize(n) => t.maxSize == n && t.size == (if s.size > n then n else s.size)
    case EvSetCleanFlag(flag) => t.cacheClean == flag && t.resent == []
    case EvClear => t.cache == map[] && t.free == [] && t.dirty == [] && t.deleting == []
    case EvConfigure(opts) => t == s.(opts := opts)
    case EvLowerFlag(x) =>
      !t.cacheClean && t.resent == [] && x in t.cache && !t.cache[x].preAlloc && !t.cache[x].buffer.consumerAttach && |t.lowering| + 1 == |s.lowering|
    case _ => true
  }

  /** The desired time of a frame and where it came from: the caller, the UI time, or the clock,
      and only a time from the clock is marked automatic. */
  predicate Stamped(e: Element, f: Frame) {
    && e.timestamp == f.ui
    && (f.desired > 0 ==> e.desired == f.desired)
    && (f.desired == 0 && 0 < f.ui <= INT64_MAX ==> e.desired == f.ui)
    && (e.auto ==> e.desired == f.now)
    && (e.auto <==> f.desired < 0 || (f.desired == 0 && !(0 < f.ui <= INT64_MAX)))
  }

  lemma AttachBufferArrives(s: Queue, b: Buffer)
    requires Inv(s) && b.id !in s.pending && AttachBuffer(s, b).out.Done?
    ensures Arrives(s, EvAttachBuffer(b), AttachBuffer(s, b).q)
  {
    AttachBufferKeeps(s, b);
    ListStates(AttachBuffer(s, b).q, b.id);
  }

  /** An accepted call leaves its buffer in the state, and on the list, that the call is for. */
  lemma StepArrives(s: Queue, e: Event)
    requires Inv(s) && Enabled(s, e) && Step(s, e).out.Done?
    ensures Arrives(s, e, Step(s, e).q)
  {
    if e.EvFlush? || e.EvAttachAndFlush? || e.EvAttachBuffer? || e.EvSetQueueSize? || e.EvSetMaxQueueSize? {
      MajorArrives(s, e);
    } else if Places(e) {
      PlaceArrives(s, e);
    } else {
      MinorArrives(s, e);
    }
  }

  lemma MajorArrives(s: Queue, e: Event)
    requires Inv(s) && Enabled(s, e) && Step(s, e).out.Done?
    requires e.EvFlush? || e.EvAttachAndFlush? || e.EvAttachBuffer? || e.EvSetQueueSize? || e.EvSetMaxQueueSize?
    ensures Arrives(s, e, Step(s, e).q)
  {
    match e {
      case EvFlush(x, f) => FlushArrives(s, x, f);
      case EvAttachAndFlush(b, f) => AttachAndFlushArrives(s, b, f);
      case EvAttachBuffer(b) => AttachBufferArrives(s, b);
      case EvSetQueueSize(n) => ResizeArrives(s, n);
      case EvSetMaxQueueSize(n) => ResizeArrives(s, n);
    }
  }

  lemma OffLists(s: Queue, x: SeqNum)
    requires Inv(s) && At(s, x) !in {RELEASED, FLUSHED}
    ensures x !in Both(s)
  {
    ListStates(s, x);
  }

  lemma FlushArrives(s: Queue, x: SeqNum, f: Frame)
    requires Inv(s) && Flush(s, x, f, true).out.Done?
    ensures Arrives(s, EvFlush(x, f), Flush(s, x, f, true).q)
  {
    OffLists(s, x);
    FlushKeeps(s, x, f, true);
    if s.cache[x].isDeleting { OffLists(Flush(s, x, f, true).q, x); }
  }

  lemma AttachAndFlushArrives(s: Queue, b: Buffer, f: Frame)
    requires Inv(s) && AttachAndFlush(s, b, f).out.Done?
    ensures Arrives(s, EvAttachAndFlush(b, f), AttachAndFlush(s, b, f).q)
  {
    OffLists(s, b.id);
  }

  lemma ResizeArrives(s: Queue, n: u32)
    ensures SetQueueSize(s, n).out.Done? ==> Arrives(s, EvSetQueueSize(n), SetQueueSize(s, n).q)
    ensures SetMaxQueueSize(s, n).out.Done? ==> Arrives(s, EvSetMaxQueueSize(n), SetMaxQueueSize(s, n).q)
  {
    if s.size > n { ShrinkFrame(s.(maxSize := n), s.size - n); }
  }

  lemma PlaceArrives(s: Queue, e: Event)
    requires Inv(s) && Enabled(s, e) && Places(e) && Step(s, e).out.Done?
    ensures Arrives(s, e, Step(s, e).q)
  {
    match e {
      case EvProducerDetach(x) => DetachArrives(s, e);
      case EvConsumerDetach(x, r) => ConsumerDetachArrives(s, x, r);
      case EvDetachBuffer(x) => DetachArrives(s, e);
      case _ =>
    }
  }

  lemma DetachArrives(s: Queue, e: Event)
    requires Inv(s) && Enabled(s, e) && (e.EvProducerDetach? || e.EvDetachBuffer?) && Step(s, e).out.Done?
    ensures Arrives(s, e, Step(s, e).q)
  {
    DetachKeeps(s, e.id, Producer, false);
    OffLists(Step(s, e).q, e.id);
  }

  lemma ConsumerDetachArrives(s: Queue, x: SeqNum, reserve: bool)
    requires Inv(s) && ConsumerDetach(s, x, reserve).out.Done?
    ensures Arrives(s, EvConsumerDetach(x, reserve), ConsumerDetach(s, x, reserve).q)
  {
    ConsumerDetachKeeps(s, x, reserve);
    OffLists(ConsumerDetach(s, x, reserve).q, x);
  }

  lemma MinorArrives(s: Queue, e: Event)
    requires Inv(s) && Enabled(s, e) && Step(s, e).out.Done? && !e.EvFlush? && !e.EvAttachAndFlush? && !e.EvAttachBuffer? && !Places(e)
    requires !e.EvSetQueueSize? && !e.EvSetMaxQueueSize?
    ensures Arrives(s, e, Step(s, e).q)
  {
    if e.EvCancel? { OffLists(s, e.id); }
    if e.EvLowerFlag? { OneFewer(s.lowering, e.id); }
  }

  lemma {:induction false} OneFewer(l: seq<SeqNum>, x: SeqNum)
    requires x in l
    ensures |Without(l, x)| + 1 == |l|
  {
    if l[0] != x { OneFewer(l[1..], x); }
  }

  // ---- a refused call changes nothing ----

  /** The calls that leave a trace although they fail: a plain flush without a listener gives the
      buffer back, a consumer's attach raises the attach flag first and its detach clears it first, a
      failed allocation ends its announcement, a pre-allocation keeps what it had inserted, a maximum
      that cannot be enforced is kept. */
  predicate LeavesTrace(s: Queue, e: Event) {
    || (e.EvFlush? && !s.opts.listener)
    || (e.EvConsumerAttach? && e.buffer.id in s.cache && s.cache[e.buffer.id].buffer.token == e.buffer.token
        && !s.cache[e.buffer.id].buffer.consumerAttach)
    || (e.EvConsumerDetach? && e.id in s.cache && s.cache[e.id].buffer.consumerAttach)
    || e.EvFinishAlloc? || e.EvPreAlloc? || e.EvSetMaxQueueSize?
  }

  lemma RefusedChangesNothing(s: Queue, e: Event)
    requires Inv(s) && Enabled(s, e) && Step(s, e).out.Failed? && !LeavesTrace(s, e)
    ensures Step(s, e).q == s
  {
    if Requesting(e) {
      var x := RequestingEffect(s, e);
    } else if e.EvRelease? {
      ReleaseEffect(s, e.id);
    } else if e.EvConsumerDetach? {
      DetachRefused(s, e.id, e.reserve);
    } else if e.EvConsumerAttach? {
      AttachRefused(s, e.buffer);
    } else {
      OtherRefused(s, e);
    }
  }

  /** What a refusal leaves behind, where it does. */
  predicate TraceOf(s: Queue, e: Event, error: Error, t: Queue) {
    match e
    case EvFlush(x, _) =>
      if error == NoListener && x in s.cache
      then t == s.(cache := s.cache[x := s.cache[x].(state := Released, listenerPid := 0)], free := s.free + [x]) else t == s
    case EvConsumerAttach(b) => b.id in s.cache && t == s.(cache := s.cache[b.id := WithFlag(s.cache[b.id], true)])
    case EvConsumerDetach(x, _) => x in s.cache && t == s.(cache := s.cache[x := WithFlag(s.cache[x], false)])
    case EvFinishAlloc(n, _, _) => t == s.(allocating := false, pending := s.pending - {n})
    case EvPreAlloc(_, _) => t == s.(cache := t.cache, free := t.free)
    case EvSetMaxQueueSize(n) => t == s.(maxSize := if 1 <= n <= 64 then n else s.maxSize)
    case _ => false
  }

  function WithFlag(e: Element, flag: bool): Element { e.(buffer := e.buffer.(consumerAttach := flag)) }

  lemma RefusedLeaves(s: Queue, e: Event)
    requires Inv(s) && Enabled(s, e) && Step(s, e).out.Failed? && LeavesTrace(s, e)
    ensures TraceOf(s, e, Step(s, e).out.error, Step(s, e).q)
  {
    if e.EvPreAlloc? {
      Frames.PreAllocFields(s, e.config, e.ready);
    } else if e.EvFlush? {
      UnheardLeaves(s, e.id, e.frame);
    }
  }

  lemma UnheardLeaves(s: Queue, x: SeqNum, f: Frame)
    requires Flush(s, x, f, true).out.Failed?
    ensures TraceOf(s, EvFlush(x, f), Flush(s, x, f, true).out.error, Flush(s, x, f, true).q)
  {
  }

  lemma DetachRefused(s: Queue, q: SeqNum, reserve: bool)
    requires ConsumerDetach(s, q, reserve).out.Failed? && (q in s.cache ==> !s.cache[q].buffer.consumerAttach)
    ensures ConsumerDetach(s, q, reserve).q == s
  {
    if q in s.cache { assert s.cache[q := s.cache[q].(buffer := s.cache[q].buffer.(consumerAttach := false))] == s.cache; }
  }

  lemma AttachRefused(s: Queue, b: Buffer)
    requires b.id in s.cache && s.cache[b.id].buffer.token == b.token ==> s.cache[b.id].buffer.consumerAttach
    ensures Raised(s, b) == s
  {
    if b.id in s.cache && s.cache[b.id].buffer.token == b.token {
      assert s.cache[b.id := s.cache[b.id].(buffer := s.cache[b.id].buffer.(consumerAttach := true))] == s.cache;
    }
  }

  lemma OtherRefused(s: Queue, e: Event)
    requires Enabled(s, e) && !Requesting(e) && !e.EvRelease? && !e.EvConsumerDetach? && !e.EvConsumerAttach? && !LeavesTrace(s, e) && Step(s, e).out.Failed?
    ensures Step(s, e).q == s
  {
  }
}
