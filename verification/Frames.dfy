/** What each call leaves alone, and exactly what it does to the entries it touches. */
module Frames {
  import opened Lists
  import opened QueueModel
  import opened Partition
  import opened Requests
  import opened Shrink
  import opened HandOuts
  import opened FrameOrder
  import opened Protocols
  import opened Entries

  // ---- the fields ----

  predicate Reallocates(e: Event) { Requesting(e) || e.EvFinishAlloc? }

  predicate Shrinks(e: Event) { e.EvAttachBuffer? || e.EvSetQueueSize? || e.EvSetMaxQueueSize? }

  predicate TakesFrames(e: Event) { e.EvAcquire? || e.EvDropByLevel? || e.EvTimedSelect? }

  /** The counters, the modes and the two locks are changed only by the calls that are about them. */
  predicate CountersKept(s: Queue, e: Event, t: Queue) {
    && (t.size == s.size || e.EvSetQueueSize? || e.EvSetMaxQueueSize?)
    && (t.maxSize == s.maxSize || e.EvSetMaxQueueSize?)
    && (t.reserved == s.reserved || e.EvConsumerAttach? || e.EvConsumerDetach?)
    && (t.locked == s.locked || e.EvLock? || e.EvUnlock?)
    && (t.lastFlushed == s.lastFlushed || e.EvFlush? || e.EvAttachAndFlush?)
    && (t.opts == s.opts || e.EvConfigure?)
    && ((t.allocating == s.allocating && t.pending == s.pending) || Reallocates(e))
    && ((t.cacheClean == s.cacheClean && t.resent == s.resent && t.lowering == s.lowering)
        || Reallocates(e) || e.EvSetCleanFlag? || e.EvLowerFlag?)
  }

  /** So are the lists; a call that is about a buffer on neither list leaves both alone. */
  predicate ListsKept(s: Queue, e: Event, t: Queue) {
    && (t.free == s.free || Requesting(e) || e.EvCancel? || e.EvFlush? || e.EvRelease? || Shrinks(e) || e.EvPreAlloc?
        || e.EvClear? || e.EvCleanReleased? || e.EvCleanBySeqNum?)
    && (t.dirty == s.dirty || Requesting(e) || e.EvFlush? || e.EvAttachAndFlush? || TakesFrames(e) || Shrinks(e)
        || e.EvClear? || e.EvCleanBySeqNum?)
    && (t.deleting == s.deleting || Reallocates(e) || e.EvFlush? || e.EvRelease? || Shrinks(e) || e.EvConsumerDetach? || e.EvClear?)
  }

  predicate FieldsKept(s: Queue, e: Event, t: Queue) { CountersKept(s, e, t) && ListsKept(s, e, t) }

  lemma {:induction false} PreAllocFields(s: Queue, cfg: Config, ready: seq<Spare>)
    ensures var t := PreAllocInsert(s, cfg, ready).q; t == s.(cache := t.cache, free := t.free)
    decreases |ready|
  {
    if ready != [] && Used(s) < Room(s) {
      var p := ready[0];
      PreAllocFields(s.(cache := s.cache[p.id := PreAllocElement(p, cfg)], free := s.free + [p.id]), cfg, ready[1..]);
    }
  }

  lemma ShrinkFields(s: Queue, e: Event)
    requires Enabled(s, e) && Shrinks(e)
    ensures FieldsKept(s, e, Step(s, e).q)
  {
    match e {
      case EvAttachBuffer(b) => AttachBufferFields(s, b);
      case EvSetQueueSize(n) => ResizeFields(s, n);
      case EvSetMaxQueueSize(n) => MaxResizeFields(s, n);
    }
  }

  lemma AttachBufferFields(s: Queue, b: Buffer)
    ensures FieldsKept(s, EvAttachBuffer(b), AttachBuffer(s, b).q)
  {
    if Used(s) - s.size + 1 > 0 { ShrinkFrame(s, Used(s) - s.size + 1); }
  }

  lemma ResizeFields(s: Queue, n: u32)
    ensures FieldsKept(s, EvSetQueueSize(n), SetQueueSize(s, n).q)
  {
    if s.size > Clamped(s, n) { ShrinkFrame(s, s.size - Clamped(s, n)); }
  }

  lemma MaxResizeFields(s: Queue, n: u32)
    ensures FieldsKept(s, EvSetMaxQueueSize(n), SetMaxQueueSize(s, n).q)
  {
    if s.size > n { ShrinkFrame(s.(maxSize := n), s.size - n); }
  }

  lemma ConsumerDetachFields(s: Queue, q: SeqNum, reserve: bool)
    requires Inv(s)
    ensures FieldsKept(s, EvConsumerDetach(q, reserve), ConsumerDetach(s, q, reserve).q)
  {
    if InState(s.cache, q, Acquired) {
      assert q !in s.free by { assert !InState(s.cache, q, Released); }
      WithoutAbsent(s.free, q);
    }
  }

  predicate Touches(e: Event) {
    e.EvFlush? || e.EvAttachAndFlush? || TakesFrames(e) || e.EvCancel? || e.EvProducerAttach? || e.EvConsumerAttach?
  }

  lemma TouchFields(s: Queue, e: Event)
    requires Enabled(s, e) && Touches(e)
    ensures FieldsKept(s, e, Step(s, e).q)
  {
    if TakesFrames(e) { FrontFields(s, e); } else { NamedFields(s, e); }
  }

  lemma FrontFields(s: Queue, e: Event)
    requires Enabled(s, e) && TakesFrames(e)
    ensures FieldsKept(s, e, Step(s, e).q)
  {
  }

  lemma NamedFields(s: Queue, e: Event)
    requires Enabled(s, e) && Touches(e) && !TakesFrames(e)
    ensures FieldsKept(s, e, Step(s, e).q)
  {
    match e {
      case EvFlush(q, f) => FlushFields(s, q, f);
      case EvAttachAndFlush(b, f) => AttachAndFlushFields(s, b, f);
      case _ => PlacedFields(s, e);
    }
  }

  lemma FlushFields(s: Queue, q: SeqNum, f: Frame)
    ensures FieldsKept(s, EvFlush(q, f), Flush(s, q, f, true).q)
  {
  }

  lemma AttachAndFlushFields(s: Queue, b: Buffer, f: Frame)
    ensures FieldsKept(s, EvAttachAndFlush(b, f), AttachAndFlush(s, b, f).q)
  {
    AttachAndFlushCounters(s, b, f);
    AttachAndFlushLists(s, b, f);
  }

  lemma AttachAndFlushCounters(s: Queue, b: Buffer, f: Frame)
    ensures CountersKept(s, EvAttachAndFlush(b, f), AttachAndFlush(s, b, f).q)
  {
  }

  lemma AttachAndFlushLists(s: Queue, b: Buffer, f: Frame)
    ensures ListsKept(s, EvAttachAndFlush(b, f), AttachAndFlush(s, b, f).q)
  {
  }

  lemma PlacedFields(s: Queue, e: Event)
    requires Enabled(s, e) && (e.EvCancel? || e.EvProducerAttach? || e.EvConsumerAttach?)
    ensures FieldsKept(s, e, Step(s, e).q)
  {
  }

  predicate Direct(e: Event) {
    e.EvProducerDetach? || e.EvDetachBuffer? || e.EvClear? || e.EvSetCleanFlag? || e.EvCleanReleased? || e.EvCleanBySeqNum?
    || e.EvLock? || e.EvUnlock? || e.EvConfigure? || e.EvLowerFlag? || e.EvTurnedAway?
  }

  lemma DirectFields(s: Queue, e: Event)
    requires Enabled(s, e) && Direct(e)
    ensures FieldsKept(s, e, Step(s, e).q)
  {
    if e.EvClear? || e.EvCleanReleased? || e.EvCleanBySeqNum? || e.EvProducerDetach? || e.EvDetachBuffer? {
      RemovalFields(s, e);
    } else {
      ControlFields(s, e);
    }
  }

  lemma RemovalFields(s: Queue, e: Event)
    requires Enabled(s, e) && (e.EvClear? || e.EvCleanReleased? || e.EvCleanBySeqNum? || e.EvProducerDetach? || e.EvDetachBuffer?)
    ensures FieldsKept(s, e, Step(s, e).q)
  {
  }

  lemma ControlFields(s: Queue, e: Event)
    requires Enabled(s, e)
    requires e.EvSetCleanFlag? || e.EvLock? || e.EvUnlock? || e.EvConfigure? || e.EvLowerFlag? || e.EvTurnedAway?
    ensures FieldsKept(s, e, Step(s, e).q)
  {
    if e.EvSetCleanFlag? || e.EvLowerFlag? {
      FlagFields(s, e);
    } else if e.EvLock? || e.EvUnlock? {
      LockFields(s, e);
    } else {
      SwitchFields(s, e);
    }
  }

  lemma FlagFields(s: Queue, e: Event)
    requires Enabled(s, e) && (e.EvSetCleanFlag? || e.EvLowerFlag?)
    ensures FieldsKept(s, e, Step(s, e).q)
  {
  }

  lemma LockFields(s: Queue, e: Event)
    requires Enabled(s, e) && (e.EvLock? || e.EvUnlock?)
    ensures FieldsKept(s, e, Step(s, e).q)
  {
  }

  lemma SwitchFields(s: Queue, e: Event)
    requires Enabled(s, e) && (e.EvConfigure? || e.EvTurnedAway?)
    ensures FieldsKept(s, e, Step(s, e).q)
  {
  }

  lemma AllocationFields(s: Queue, e: Event)
    requires Inv(s) && Enabled(s, e) && Reallocates(e)
    ensures FieldsKept(s, e, Step(s, e).q)
  {
    if Requesting(e) {
      var x := RequestingEffect(s, e);
    } else {
      FinishEffect(s, e.num, e.ok, e.token);
    }
  }

  lemma ReleaseFields(s: Queue, q: SeqNum)
    requires Inv(s)
    ensures FieldsKept(s, EvRelease(q), Release(s, q).q)
  {
    ReleaseEffect(s, q);
  }

  lemma StepFields(s: Queue, e: Event)
    requires Inv(s) && Enabled(s, e)
    ensures FieldsKept(s, e, Step(s, e).q)
  {
    if Reallocates(e) {
      AllocationFields(s, e);
    } else if Shrinks(e) {
      ShrinkFields(s, e);
    } else if Touches(e) {
      TouchFields(s, e);
    } else if Direct(e) {
      DirectFields(s, e);
    } else {
      match e {
        case EvRelease(q) => ReleaseFields(s, q);
        case EvConsumerDetach(q, r) => ConsumerDetachFields(s, q, r);
        case EvPreAlloc(c, ready) => PreAllocFields(s, c, ready);
      }
    }
  }

  // ---- the entries ----

  /** How an entry may differ after the call. */
  predicate Altered(s: Queue, e: Event, q: SeqNum, a: Element, b: Element) {
    match e
    case EvRequest(_, _) => Given(a, b)
    case EvDequeue(_, _) => Given(a, b)
    case EvAfterWait(_, _) => Given(a, b)
    case EvCancel(x) => q == x && b == a.(state := Released, listenerPid := 0)
    case EvFlush(x, _) => q == x && b == a.(state := b.state, listenerPid := 0, desired := b.desired, auto := b.auto, timestamp := b.timestamp)
    case EvAcquire => b == a.(state := Acquired)
    case EvDropByLevel => b == a.(state := Acquired)
    case EvTimedSelect(_, _) => b == a.(state := Acquired)
    case EvRelease(x) => (q == x && b == a.(state := Released)) || b == a.(state := Requested, listenerPid := s.opts.listenerPid)
    case EvConsumerAttach(x) => q == x.id && b == a.(buffer := a.buffer.(consumerAttach := true))
    case EvConsumerDetach(x, _) => q == x && b == a.(buffer := a.buffer.(consumerAttach := false))
    case EvAttachBuffer(x) => q == x.id && b == a.(state := Attached)
    case EvSetQueueSize(_) => b == a.(isDeleting := true)
    case EvSetMaxQueueSize(_) => b == a.(isDeleting := true)
    case EvLowerFlag(x) => q == x && b == a.(buffer := a.buffer.(consumerAttach := false), preAlloc := false)
    case _ => false
  }

  /** Granted, with its marks as they were or cleared. */
  predicate Given(a: Element, b: Element) {
    || b == a.(state := Requested)
    || b == a.(state := Requested, buffer := a.buffer.(consumerAttach := false), preAlloc := false)
  }

  ghost predicate EntriesKept(s: Queue, e: Event, t: Queue) {
    forall q :: q in s.cache && q in t.cache ==> t.cache[q] == s.cache[q] || Altered(s, e, q, s.cache[q], t.cache[q])
  }

  lemma RequestingEntries(s: Queue, e: Event)
    requires Inv(s) && Enabled(s, e) && Requesting(e)
    ensures EntriesKept(s, e, Step(s, e).q)
  {
    var x := RequestingEffect(s, e);
  }

  lemma ReleaseEntries(s: Queue, x: SeqNum)
    requires Inv(s)
    ensures EntriesKept(s, EvRelease(x), Release(s, x).q)
  {
    ReleaseEffect(s, x);
    var m, r := ReleaseLocked(s, x).q, Release(s, x);
    if r.out.Returned? {
      forall q | q in s.cache && q in r.q.cache ensures r.q.cache[q] == s.cache[q] || Altered(s, EvRelease(x), q, s.cache[q], r.q.cache[q]) {
        HandOutEntry(m, Handed(r.q, r.out.handed), q);
        ReleaseEntry(s, x, q);
      }
    }
  }

  lemma HandOutEntry(m: Queue, h: Handed, q: SeqNum)
    requires HandedOut(m, h) && q in h.q.cache
    ensures q in m.cache
    ensures h.q.cache[q] == m.cache[q] || h.q.cache[q] == m.cache[q].(state := Requested, listenerPid := m.opts.listenerPid)
  {
    assert q in h.ids ==> HandedEntry(m, h.q, q);
  }

  lemma ReleaseEntry(s: Queue, x: SeqNum, q: SeqNum)
    requires ReleaseLocked(s, x).out.Done? && q in ReleaseLocked(s, x).q.cache
    ensures var m := ReleaseLocked(s, x).q;
            q in s.cache && m.opts == s.opts
            && (if q == x then m.cache[q] == s.cache[q].(state := Released) else m.cache[q] == s.cache[q])
  {
  }

  lemma ShrinkEntries(s: Queue, e: Event, count: int)
    requires Inv(s) && (e.EvSetQueueSize? || e.EvSetMaxQueueSize?)
    ensures EntriesKept(s, e, DeleteBuffers(s, count))
  {
    if count > 0 {
      var t := DeleteBuffers(s, count);
      forall q | q in s.cache && q in t.cache ensures t.cache[q] == s.cache[q] || Altered(s, e, q, s.cache[q], t.cache[q]) {
        ShrinkMarks(s, count, q);
      }
    }
  }

  lemma ResizeEntries(s: Queue, n: u32)
    requires Inv(s)
    ensures EntriesKept(s, EvSetQueueSize(n), SetQueueSize(s, n).q)
    ensures EntriesKept(s, EvSetMaxQueueSize(n), SetMaxQueueSize(s, n).q)
  {
    ShrinkEntries(s, EvSetQueueSize(n), s.size - Clamped(s, n));
    ShrinkEntries(s.(maxSize := n), EvSetMaxQueueSize(n), s.size - n);
  }

  /** An accepted AttachBuffer marks nothing: the lists are long enough. */
  lemma AttachBufferEntries(s: Queue, b: Buffer)
    requires Inv(s)
    ensures EntriesKept(s, EvAttachBuffer(b), AttachBuffer(s, b).q)
  {
    var over, r := Used(s) - s.size + 1, AttachBuffer(s, b);
    if r.out.Done? && b.id !in s.cache && over > 0 {
      assert Found(s, over) == over;
      forall q | q in DeleteBuffers(s, over).cache ensures q in s.cache && DeleteBuffers(s, over).cache[q] == s.cache[q] {
        ShrinkMarks(s, over, q);
      }
    }
  }

  lemma {:induction false} PreAllocEntries(s: Queue, cfg: Config, ready: seq<Spare>)
    requires FreshAll(s, ready)
    ensures var t := PreAllocInsert(s, cfg, ready).q; forall q :: q in s.cache ==> q in t.cache && t.cache[q] == s.cache[q]
    decreases |ready|
  {
    if ready != [] && Used(s) < Room(s) {
      var p := ready[0];
      var s1 := s.(cache := s.cache[p.id := PreAllocElement(p, cfg)], free := s.free + [p.id]);
      assert Fresh(s, ready[0].id);
      assert FreshAll(s1, ready[1..]) by {
        forall i | 0 <= i < |ready[1..]| ensures Fresh(s1, ready[1..][i].id) { assert Fresh(s, ready[i + 1].id); }
      }
      PreAllocEntries(s1, cfg, ready[1..]);
    }
  }

  lemma TouchEntries(s: Queue, e: Event)
    requires Enabled(s, e) && Touches(e)
    ensures EntriesKept(s, e, Step(s, e).q)
  {
    if TakesFrames(e) { FrontEntries(s, e); } else { NamedEntries(s, e); }
  }

  lemma FrontEntries(s: Queue, e: Event)
    requires Enabled(s, e) && TakesFrames(e)
    ensures EntriesKept(s, e, Step(s, e).q)
  {
  }

  lemma NamedEntries(s: Queue, e: Event)
    requires Enabled(s, e) && Touches(e) && !TakesFrames(e)
    ensures EntriesKept(s, e, Step(s, e).q)
  {
  }

  lemma DirectEntries(s: Queue, e: Event)
    requires Enabled(s, e) && (Direct(e) || e.EvConsumerDetach?)
    ensures EntriesKept(s, e, Step(s, e).q)
  {
  }

  lemma StepEntries(s: Queue, e: Event)
    requires Inv(s) && Enabled(s, e)
    ensures EntriesKept(s, e, Step(s, e).q)
  {
    if Requesting(e) {
      RequestingEntries(s, e);
    } else if Touches(e) {
      TouchEntries(s, e);
    } else if Direct(e) || e.EvConsumerDetach? {
      DirectEntries(s, e);
    } else {
      match e {
        case EvFinishAlloc(n, ok, x) => FinishEffect(s, n, ok, x);
        case EvRelease(q) => ReleaseEntries(s, q);
        case EvAttachBuffer(b) => AttachBufferEntries(s, b);
        case EvSetQueueSize(n) => ResizeEntries(s, n);
        case EvSetMaxQueueSize(n) => ResizeEntries(s, n);
        case EvPreAlloc(c, ready) => PreAllocEntries(s, c, ready);
      }
    }
  }

  // ---- new entries ----

  function Plain(b: Buffer, st: BufferState, c: Config): Element { Element(b, st, false, c, false, 0, 0, false, 0) }

  /** The entry with which a buffer comes into the queue. */
  predicate NewEntry(s: Queue, e: Event, q: SeqNum, n: Element) {
    match e
    case EvFinishAlloc(x, _, token) =>
      q == x && x in s.pending && n == Plain(Buffer(x, token, s.pending[x].config, s.pending[x].config, false), Requested, s.pending[x].config)
    case EvProducerAttach(b) => q == b.id && n == Plain(b, Requested, b.request)
    case EvConsumerAttach(b) => q == b.id && n == Plain(b.(consumerAttach := true), Acquired, b.request)
    case EvAttachAndFlush(b, _) =>
      q == b.id && n == Plain(b, Flushed, b.request).(desired := n.desired, auto := n.auto, timestamp := n.timestamp)
    case EvAttachBuffer(b) => q == b.id && n == Plain(b, Attached, b.shape)
    case EvPreAlloc(c, ready) =>
      exists i :: 0 <= i < |ready| && ready[i].id == q
                  && n == Plain(Buffer(q, ready[i].token, c, c, false), Released, c).(preAlloc := true)
    case _ => false
  }

  ghost predicate OnlyNewEntries(s: Queue, e: Event, t: Queue) {
    forall q :: q in t.cache && q !in s.cache ==> NewEntry(s, e, q, t.cache[q])
  }

  lemma {:induction false} PreAllocNew(s: Queue, cfg: Config, ready: seq<Spare>, q: SeqNum)
    requires FreshAll(s, ready) && q !in s.cache && q in PreAllocInsert(s, cfg, ready).q.cache
    ensures NewEntry(s, EvPreAlloc(cfg, ready), q, PreAllocInsert(s, cfg, ready).q.cache[q])
    decreases |ready|
  {
    if ready != [] && Used(s) < Room(s) {
      var p := ready[0];
      var s1 := s.(cache := s.cache[p.id := PreAllocElement(p, cfg)], free := s.free + [p.id]);
      assert Fresh(s, ready[0].id);
      assert FreshAll(s1, ready[1..]) by {
        forall i | 0 <= i < |ready[1..]| ensures Fresh(s1, ready[1..][i].id) { assert Fresh(s, ready[i + 1].id); }
      }
      if q == p.id {
        PreAllocEntries(s1, cfg, ready[1..]);
        assert ready[0].id == q;
      } else {
        PreAllocNew(s1, cfg, ready[1..], q);
        var n := PreAllocInsert(s1, cfg, ready[1..]).q.cache[q];
        var i :| 0 <= i < |ready[1..]| && ready[1..][i].id == q
                 && n == Plain(Buffer(q, ready[1..][i].token, cfg, cfg, false), Released, cfg).(preAlloc := true);
        assert ready[i + 1].id == q;
      }
    }
  }

  lemma AttachBufferNew(s: Queue, b: Buffer)
    requires Inv(s)
    ensures OnlyNewEntries(s, EvAttachBuffer(b), AttachBuffer(s, b).q)
  {
    var over, r := Used(s) - s.size + 1, AttachBuffer(s, b);
    if b.id !in s.cache {
      NewAttached(s, b, over);
      DeleteBuffersKeeps(s, over);
    }
  }

  lemma ResizeNew(s: Queue, n: u32)
    requires Inv(s)
    ensures SetQueueSize(s, n).q.cache.Keys <= s.cache.Keys && SetMaxQueueSize(s, n).q.cache.Keys <= s.cache.Keys
  {
    if s.size > Clamped(s, n) { ShrinkKeys(s, s.size - Clamped(s, n)); }
    if s.size > n { ShrinkKeys(s.(maxSize := n), s.size - n); }
  }

  lemma DirectNew(s: Queue, e: Event)
    requires Enabled(s, e) && (Direct(e) || e.EvConsumerDetach?)
    ensures OnlyNewEntries(s, e, Step(s, e).q)
  {
  }

  lemma TouchNew(s: Queue, e: Event)
    requires Enabled(s, e) && Touches(e)
    ensures OnlyNewEntries(s, e, Step(s, e).q)
  {
    if TakesFrames(e) { FrontNew(s, e); } else { NamedNew(s, e); }
  }

  lemma FrontNew(s: Queue, e: Event)
    requires Enabled(s, e) && TakesFrames(e)
    ensures OnlyNewEntries(s, e, Step(s, e).q)
  {
  }

  lemma NamedNew(s: Queue, e: Event)
    requires Enabled(s, e) && Touches(e) && !TakesFrames(e)
    ensures OnlyNewEntries(s, e, Step(s, e).q)
  {
  }

  /** Nothing comes into the queue but the buffer the call brings, with that buffer's configuration. */
  lemma StepNewEntries(s: Queue, e: Event)
    requires Inv(s) && Enabled(s, e)
    ensures OnlyNewEntries(s, e, Step(s, e).q)
  {
    if Requesting(e) {
      var x := RequestingEffect(s, e);
    } else if Touches(e) {
      TouchNew(s, e);
    } else if Direct(e) || e.EvConsumerDetach? {
      DirectNew(s, e);
    } else {
      match e {
        case EvFinishAlloc(n, ok, x) => FinishEffect(s, n, ok, x);
        case EvRelease(q) => ReleaseEffect(s, q);
        case EvAttachBuffer(b) => AttachBufferNew(s, b);
        case EvSetQueueSize(n) => ResizeNew(s, n);
        case EvSetMaxQueueSize(n) => ResizeNew(s, n);
        case EvPreAlloc(c, ready) => forall q | q in Step(s, e).q.cache && q !in s.cache { PreAllocNew(s, c, ready, q); }
      }
    }
  }

  // ---- calls on many buffers ----

  /** How many of the new buffers fit into the slots that are not reserved. */
  function Fitting(s: Queue, ready: seq<Spare>): nat {
    var room := (s.size - s.reserved) % 0x1_0000_0000;
    if room <= |s.cache| then 0 else if |ready| <= room - |s.cache| then |ready| else room - |s.cache|
  }

  /** Pre-allocation puts the new buffers at the back of the free list, in order, as many as fit. */
  lemma {:induction false} PreAllocOrder(s: Queue, cfg: Config, ready: seq<Spare>)
    requires FreshAll(s, ready)
    ensures PreAllocInsert(s, cfg, ready).q.free == s.free + Ids(ready[..Fitting(s, ready)])
    decreases |ready|
  {
    var n := Fitting(s, ready);
    if n > 0 {
      var p := ready[0];
      var s1 := s.(cache := s.cache[p.id := PreAllocElement(p, cfg)], free := s.free + [p.id]);
      assert Fresh(s, ready[0].id);
      InsertSize(s, p.id, PreAllocElement(p, cfg));
      FreshTail(s, s1, ready);
      FitsOneMore(s, s1, ready);
      PreAllocOrder(s1, cfg, ready[1..]);
      IdsFront(s.free, ready, n);
      InsertRound(s, s1, cfg, ready);
    } else {
      assert s.free + Ids(ready[..0]) == s.free;
      InsertNone(s, cfg, ready);
    }
  }

  lemma FitsOneMore(s: Queue, s1: Queue, ready: seq<Spare>)
    requires Fitting(s, ready) > 0 && |s1.cache| == |s.cache| + 1 && s1.size == s.size && s1.reserved == s.reserved
    ensures ready != [] && Fitting(s1, ready[1..]) == Fitting(s, ready) - 1
  {
  }

  lemma InsertRound(s: Queue, s1: Queue, cfg: Config, ready: seq<Spare>)
    requires Fitting(s, ready) > 0
    requires s1 == s.(cache := s.cache[ready[0].id := PreAllocElement(ready[0], cfg)], free := s.free + [ready[0].id])
    ensures PreAllocInsert(s, cfg, ready) == PreAllocInsert(s1, cfg, ready[1..])
  {
  }

  lemma InsertNone(s: Queue, cfg: Config, ready: seq<Spare>)
    requires Fitting(s, ready) == 0
    ensures PreAllocInsert(s, cfg, ready).q == s
  {
  }

  lemma FreshTail(s: Queue, s1: Queue, ready: seq<Spare>)
    requires ready != [] && FreshAll(s, ready) && s1.pending == s.pending && s1.cache.Keys == s.cache.Keys + {ready[0].id}
    ensures FreshAll(s1, ready[1..])
  {
    forall i | 0 <= i < |ready[1..]| ensures Fresh(s1, ready[1..][i].id) { assert Fresh(s, ready[i + 1].id); }
  }

  lemma IdsFront(free: seq<SeqNum>, ready: seq<Spare>, n: nat)
    requires 0 < n <= |ready|
    ensures (free + [ready[0].id]) + Ids(ready[1..][..n - 1]) == free + Ids(ready[..n])
  {
    assert ready[..n][0] == ready[0] && ready[..n][1..] == ready[1..][..n - 1];
  }

  /** A clean removes the free buffers except the one flushed last and the locked one, and no other. */
  lemma CleanExact(s: Queue)
    requires Inv(s)
    ensures var t, out := CleanReleased(s).q, CleanReleased(s).out;
            && out.Cleaned?
            && (forall q :: q in out.gone <==> q in s.free && q != s.lastFlushed && q != s.locked)
            && (forall q :: q in t.cache <==> q in s.cache && q !in out.gone)
            && (forall q :: q in t.cache ==> t.cache[q] == s.cache[q])
            && (forall q :: q in t.free <==> q in s.free && (q == s.lastFlushed || q == s.locked))
            && t == s.(cache := t.cache, free := t.free)
  {
    KeepMembers(s.free, (q: SeqNum) => !Spared(s, q));
    KeepMembers(s.free, (q: SeqNum) => Spared(s, q));
  }

  /** A clean by number removes exactly the named entries, wherever they are. */
  lemma CleanBySeqNumExact(s: Queue, ids: seq<SeqNum>)
    requires Inv(s)
    ensures var t := CleanBySeqNum(s, ids);
            && (forall q :: q in t.cache <==> q in s.cache && q !in ids)
            && (forall q :: q in t.cache ==> t.cache[q] == s.cache[q])
            && (forall q :: q in t.free <==> q in s.free && q !in ids)
            && (forall q :: q in t.dirty <==> q in s.dirty && q !in ids)
            && Subsequence(t.free, s.free) && Subsequence(t.dirty, s.dirty)
            && t == s.(cache := t.cache, free := t.free, dirty := t.dirty)
  {
    var p := (q: SeqNum) => q !in ids || q !in s.cache;
    KeepMembers(s.free, p);
    KeepMembers(s.dirty, p);
    KeepSubsequence(s.free, p);
    KeepSubsequence(s.dirty, p);
    forall q | q in s.free ensures q in s.cache { assert InState(s.cache, q, Released); }
    forall q | q in s.dirty ensures q in s.cache { assert InState(s.cache, q, Flushed); }
  }

  /** Raising or lowering the clean flag as one call is what runs have as two events in listener mode,
      when the flag is raised, and as one otherwise. */
  lemma CleanFlagCall(s: Queue, flag: bool)
    requires !s.allocating
    ensures var es := if flag && s.opts.handOut then [EvClear, EvSetCleanFlag(flag)] else [EvSetCleanFlag(flag)];
            CanRun(s, es) && Run(s, es) == SetCleanFlag(s, flag)
  {
    if flag && s.opts.handOut {
      var t, two := Step(s, EvClear).q, [EvClear, EvSetCleanFlag(flag)];
      OneStep(t, EvSetCleanFlag(flag));
      assert two[0] == EvClear && two[1..] == [EvSetCleanFlag(flag)];
    } else {
      OneStep(s, EvSetCleanFlag(flag));
    }
  }

  lemma OneStep(s: Queue, e: Event)
    requires Enabled(s, e)
    ensures CanRun(s, [e]) && Run(s, [e]) == Step(s, e).q
  {
    var es := [e];
    assert es[0] == e && es[1..] == [];
    assert Run(Step(s, e).q, []) == Step(s, e).q;
  }

  /** Afterwards nothing has been sent, and in listener mode nothing is left that would have to be. */
  lemma CleanFlagStarts(s: Queue)
    ensures var t := SetCleanFlag(s, true);
            t.cacheClean && t.resent == [] && (s.opts.handOut ==> t.cache == map[] && t.free == [] && t.dirty == [] && t.deleting == [])
            && (!s.opts.handOut ==> t == s.(cacheClean := true, resent := []))
  {
  }

  /** The lists after a call that makes room: the first entries of free ++ dirty are gone. */
  lemma AttachBufferMakesRoom(s: Queue, b: Buffer)
    requires Inv(s) && AttachBuffer(s, b).out.Done? && b.id !in s.cache
    ensures var t, n := AttachBuffer(s, b).q, if |s.cache| + 1 > s.size then |s.cache| + 1 - s.size else 0;
            b.id in t.cache && RoomMadeBy(s, t.free, t.dirty, t.cache.Keys - {b.id}, n)
  {
    var over := Used(s) - s.size + 1;
    NewAttached(s, b, over);
    var n := if over > 0 then over else 0;
    RoomBeforehand(s, over, n);
    AfterRoom(s, DeleteBuffers(s, over), AttachBuffer(s, b).q, b.id, Element(b, Attached, false, b.shape, false, 0, 0, false, 0), n);
  }

  lemma AfterRoom(s: Queue, t: Queue, u: Queue, q: SeqNum, e: Element, n: nat)
    requires u == t.(cache := t.cache[q := e]) && RoomMadeBy(s, t.free, t.dirty, t.cache.Keys, n)
    requires q !in t.cache
    ensures q in u.cache && RoomMadeBy(s, u.free, u.dirty, u.cache.Keys - {q}, n)
  {
    assert u.cache.Keys - {q} == t.cache.Keys;
  }

  /** The first `n` entries of free ++ dirty are gone from the lists and from the keys. */
  predicate RoomMadeBy(s: Queue, free: seq<SeqNum>, dirty: seq<SeqNum>, keys: set<SeqNum>, n: nat) {
    && n <= |s.free| + |s.dirty|
    && free == (if n <= |s.free| then s.free[n..] else [])
    && dirty == (if n <= |s.free| then s.dirty else s.dirty[n - |s.free|..])
    && keys == s.cache.Keys - Elems((s.free + s.dirty)[..n])
  }

  lemma RoomBeforehand(s: Queue, over: int, n: nat)
    requires Inv(s) && over <= |s.free| + |s.dirty| && n == if over > 0 then over else 0
    ensures var t := DeleteBuffers(s, over); RoomMadeBy(s, t.free, t.dirty, t.cache.Keys, n)
  {
    if over > 0 {
      RoomByShrinking(s, over);
    } else {
      assert s.free[0..] == s.free && (s.free + s.dirty)[..0] == [];
    }
  }

  lemma RoomByShrinking(s: Queue, over: nat)
    requires Inv(s) && over <= |s.free| + |s.dirty|
    ensures var t := DeleteBuffers(s, over); RoomMadeBy(s, t.free, t.dirty, t.cache.Keys, over)
  {
    ShrinkLists(s, over);
    ShrinkKeys(s, over);
  }

  lemma AttachKnown(s: Queue, b: Buffer)
    requires Inv(s) && AttachBuffer(s, b).out.Done? && b.id in s.cache
    ensures var t := AttachBuffer(s, b).q;
            b.id in s.free && (forall q :: q in t.free <==> q in s.free && q != b.id) && Subsequence(t.free, s.free)
            && t == s.(cache := s.cache[b.id := s.cache[b.id].(state := Attached)], free := t.free)
  {
    assert InState(s.cache, b.id, Released);
    WithoutMembers(s.free, b.id);
    WithoutSubsequence(s.free, b.id);
  }

  lemma {:induction false} WithoutSubsequence(l: seq<SeqNum>, q: SeqNum)
    ensures Subsequence(Without(l, q), l)
  {
    if l != [] {
      if l[0] == q { SubsequenceRefl(l[1..]); } else { WithoutSubsequence(l[1..], q); }
    }
  }
}
