/** Slots: used + in flight + reserved never exceeds the queue size, under conditions a caller
    can check before each call; each condition is shown to be needed. */
module Capacity {
  import opened Lists
  import opened QueueModel
  import opened Partition
  import opened Requests
  import opened Shrink
  import opened HandOuts
  import opened FrameOrder

  /** Slots taken or promised. */
  function Load(s: Queue): nat { Used(s) + |s.pending| + s.reserved }

  ghost predicate Within(s: Queue) {
    Load(s) <= s.size && |s.pending| == if s.allocating then 1 else 0
  }

  /** Used size after a shrink to `m`. */
  function After(s: Queue, m: u32): int { if s.size > m then Used(s) - Found(s, s.size - m) else Used(s) }

  /** What the callers must see to: no conditions on requests, releases, flushes or detaches. */
  predicate Guard(s: Queue, e: Event) {
    match e
    case EvProducerAttach(b) => Load(s) < s.size
    case EvAttachAndFlush(b, _) => Load(s) < s.size
    case EvAttachBuffer(b) => b.id !in s.cache ==> Load(s) < s.size || Load(s) == Used(s)
    case EvConsumerAttach(b) => s.reserved > 0 || Load(s) < s.size || Used(s) >= s.size
    case EvPreAlloc(_, ready) => !s.allocating || Used(s) + |ready| < Room(s)
    case EvSetQueueSize(n) => After(s, Clamped(s, n)) + |s.pending| + s.reserved <= Clamped(s, n)
    case EvSetMaxQueueSize(n) => s.size > n ==> After(s, n) + |s.pending| + s.reserved <= n
    case _ => true
  }

  lemma SubsetSize(a: set<SeqNum>, b: set<SeqNum>)
    requires a <= b
    ensures |a| <= |b|
  {
    assert b == a + (b - a);
  }

  lemma PendingSize(m: map<SeqNum, Pending>, n: SeqNum, p: Pending)
    ensures n !in m ==> |m[n := p]| == |m| + 1
    ensures n in m ==> |m - {n}| == |m| - 1
  {
    assert m[n := p].Keys == m.Keys + {n};
    assert (m - {n}).Keys == m.Keys - {n};
    assert |m[n := p].Keys| == |m[n := p]| && |(m - {n}).Keys| == |m - {n}|;
  }

  // ---- events that cannot raise the load ----

  predicate NonGrowing(e: Event) {
    e.EvCancel? || e.EvFlush? || e.EvAcquire? || e.EvDropByLevel? || e.EvTimedSelect? || e.EvRelease? || e.EvProducerDetach?
    || e.EvDetachBuffer? || e.EvClear? || e.EvSetCleanFlag? || e.EvCleanReleased? || e.EvCleanBySeqNum? || e.EvLock?
    || e.EvUnlock? || e.EvConfigure? || e.EvLowerFlag? || e.EvTurnedAway?
  }

  predicate NoGrowth(s: Queue, t: Queue) {
    t.cache.Keys <= s.cache.Keys && t.pending == s.pending && t.reserved == s.reserved && t.size == s.size
    && t.allocating == s.allocating
  }

  lemma ReleaseNoGrowth(s: Queue, q: SeqNum)
    requires Inv(s)
    ensures NoGrowth(s, Release(s, q).q)
  {
    ReleaseEffect(s, q);
  }

  lemma FlushNoGrowth(s: Queue, q: SeqNum, f: Frame)
    ensures NoGrowth(s, Flush(s, q, f, true).q)
  {
  }

  lemma FrontNoGrowth(s: Queue, due: int, useAuto: bool)
    ensures NoGrowth(s, Acquire(s).q) && NoGrowth(s, DropByLevel(s).q) && NoGrowth(s, TimedSelect(s, due, useAuto).q)
  {
  }

  lemma CleanNoGrowth(s: Queue, ids: seq<SeqNum>)
    ensures NoGrowth(s, CleanReleased(s).q) && NoGrowth(s, CleanBySeqNum(s, ids))
  {
  }

  lemma SingleNoGrowth(s: Queue, q: SeqNum)
    ensures NoGrowth(s, Cancel(s, q).q) && NoGrowth(s, DetachFromQueue(s, q, Producer, false).q) && NoGrowth(s, DetachBuffer(s, q).q)
  {
  }

  lemma StepNoGrowth(s: Queue, e: Event)
    requires Inv(s) && Enabled(s, e) && NonGrowing(e)
    ensures NoGrowth(s, Step(s, e).q)
  {
    match e {
      case EvRelease(q) => ReleaseNoGrowth(s, q);
      case EvFlush(q, f) => FlushNoGrowth(s, q, f);
      case EvAcquire => FrontNoGrowth(s, 0, false);
      case EvDropByLevel => FrontNoGrowth(s, 0, false);
      case EvTimedSelect(d, a) => FrontNoGrowth(s, d, a);
      case EvCancel(q) => SingleNoGrowth(s, q);
      case EvProducerDetach(q) => SingleNoGrowth(s, q);
      case EvDetachBuffer(q) => SingleNoGrowth(s, q);
      case EvCleanReleased => CleanNoGrowth(s, []);
      case EvCleanBySeqNum(ids) => CleanNoGrowth(s, ids);
      case _ => ControlNoGrowth(s, e);
    }
  }

  lemma ControlNoGrowth(s: Queue, e: Event)
    requires Enabled(s, e)
    requires e.EvClear? || e.EvSetCleanFlag? || e.EvLock? || e.EvUnlock? || e.EvConfigure? || e.EvLowerFlag? || e.EvTurnedAway?
    ensures NoGrowth(s, Step(s, e).q)
  {
  }

  lemma NoGrowthKeeps(s: Queue, t: Queue)
    requires Within(s) && NoGrowth(s, t)
    ensures Within(t)
  {
    SubsetSize(t.cache.Keys, s.cache.Keys);
  }

  // ---- requests and allocations ----

  /** A request that resumes from its timed wait does not test `isAllocatingBuffer_` again, but
      with a slot still promised to the other allocation it can only reuse a matching buffer. */
  lemma NoSecondAllocation(s: Queue, cfg: Config, n: SeqNum)
    requires Inv(s) && Used(s) < Room(s)
    ensures !AfterWait(s, cfg, n).out.Allocating?
  {
    PopShape(s, cfg);
  }

  lemma RequestingWithin(s: Queue, e: Event)
    requires Inv(s) && Within(s) && Enabled(s, e) && Requesting(e)
    ensures Within(Step(s, e).q)
  {
    var q := RequestingEffect(s, e);
    var r := Step(s, e);
    if r.out.Allocating? {
      PendingSize(s.pending, e.num, Pending(r.q.pending[e.num].config, q.Some?));
      if e.EvAfterWait? && s.allocating { NoSecondAllocation(s, e.config, e.num); }
      assert !s.allocating;
      if q.Some? {
        assert r.q.cache.Keys == s.cache.Keys - {q.value};
        assert |r.q.cache.Keys| == |s.cache.Keys| - 1;
      }
    } else if r.out.Granted? {
      assert r.q.cache.Keys == s.cache.Keys;
      assert |r.q.cache.Keys| == |s.cache.Keys|;
    }
  }

  lemma FinishWithin(s: Queue, n: SeqNum, ok: bool, token: nat)
    requires Inv(s) && Within(s) && n in s.pending
    ensures Within(FinishAlloc(s, n, ok, token).q)
  {
    FinishEffect(s, n, ok, token);
    PendingSize(s.pending, n, s.pending[n]);
    var t := FinishAlloc(s, n, ok, token).q;
    if ok {
      assert t.cache.Keys == s.cache.Keys + {n};
      assert n !in s.cache;
      assert |t.cache.Keys| == |s.cache.Keys| + 1;
    }
    assert s.allocating by { assert |s.pending.Keys| > 0 by { assert n in s.pending.Keys; } }
  }

  // ---- attach, detach, shrink, pre-allocation ----

  lemma AttachSize(s: Queue, b: Buffer, who: Invoker)
    ensures var r := AttachToQueue(s, b, who);
            if r.out.Failed? then r.q == s
            else
              && Used(r.q) == Used(s) + 1 && r.q.pending == s.pending && r.q.size == s.size && r.q.allocating == s.allocating
              && Used(s) < s.size
              && r.q.reserved == if who == Consumer && s.reserved > 0 then s.reserved - 1 else s.reserved
  {
    var r := AttachToQueue(s, b, who);
    if r.out.Done? {
      InsertSize(s, b.id, r.q.cache[b.id]);
      assert r.q.cache == s.cache[b.id := r.q.cache[b.id]];
    }
  }

  lemma RaisedSize(s: Queue, b: Buffer)
    ensures Used(Raised(s, b)) == Used(s)
  {
    assert Raised(s, b).cache.Keys == s.cache.Keys;
    assert |Raised(s, b).cache.Keys| == |s.cache.Keys|;
  }

  lemma AttachAndFlushSize(s: Queue, b: Buffer, f: Frame)
    ensures var r := AttachAndFlush(s, b, f);
            if r.out.Failed? then r.q == s
            else Used(r.q) == Used(s) + 1 && r.q.pending == s.pending && r.q.size == s.size && r.q.reserved == s.reserved
                 && r.q.allocating == s.allocating
  {
    AttachSize(s, b, Producer);
    var m := AttachToQueue(s, b, Producer).q;
    var r := AttachAndFlush(s, b, f);
    if r.out.Done? {
      assert r.q.cache.Keys == m.cache.Keys;
      assert |r.q.cache.Keys| == |m.cache.Keys|;
    }
  }

  lemma ConsumerDetachSize(s: Queue, q: SeqNum, reserve: bool)
    requires Within(s)
    ensures var r := ConsumerDetach(s, q, reserve);
            && r.q.pending == s.pending && r.q.size == s.size && r.q.allocating == s.allocating
            && if r.out.Failed? then Used(r.q) == Used(s) && r.q.reserved == s.reserved
               else Used(r.q) == Used(s) - 1 && r.q.reserved == if reserve then s.reserved + 1 else s.reserved
  {
    var r := ConsumerDetach(s, q, reserve);
    if r.out.Failed? {
      assert r.q.cache.Keys == s.cache.Keys;
      assert |r.q.cache.Keys| == |s.cache.Keys|;
    } else {
      assert r.q.cache.Keys == s.cache.Keys - {q};
      assert |r.q.cache.Keys| == |s.cache.Keys| - 1;
      assert Used(s) > 0 by { assert q in s.cache.Keys; }
    }
  }

  /** What a shrink by `count` does to the counters. */
  lemma ShrunkCounters(s: Queue, count: int)
    requires Inv(s)
    ensures var t := DeleteBuffers(s, count);
            && Used(t) == Used(s) - (if count > 0 then Found(s, count) else 0)
            && t.pending == s.pending && t.reserved == s.reserved && t.size == s.size && t.allocating == s.allocating
  {
    if count > 0 {
      ShrinkSize(s, count);
      ShrinkFrame(s, count);
    }
  }

  lemma ResizeSize(s: Queue, n: u32)
    requires Inv(s)
    ensures var r, m := SetQueueSizeLocked(s, n), Clamped(s, n);
            if r.out.Failed? then r.q == s
            else Used(r.q) == After(s, m) && r.q.pending == s.pending && r.q.reserved == s.reserved && r.q.size == m
                 && r.q.allocating == s.allocating
  {
    ShrunkCounters(s, s.size - Clamped(s, n));
  }

  lemma MaxResizeWithin(s: Queue, n: u32)
    requires Inv(s) && Within(s) && (s.size > n ==> After(s, n) + |s.pending| + s.reserved <= n)
    ensures Within(SetMaxQueueSize(s, n).q)
  {
    if 0 < n <= MAX_QUEUE_SIZE && s.size > n {
      var t := s.(maxSize := n);
      assert After(t, n) == After(s, n);
      ResizeSize(t, n);
    }
  }

  lemma AttachBufferSize(s: Queue, b: Buffer)
    requires Inv(s)
    ensures var r := AttachBuffer(s, b);
            && r.q.pending == s.pending && r.q.reserved == s.reserved && r.q.size == s.size && r.q.allocating == s.allocating
            && if r.out.Failed? || b.id in s.cache then Used(r.q) == Used(s)
               else Used(r.q) == if Used(s) < s.size then Used(s) + 1 else s.size
  {
    var over, r := Used(s) - s.size + 1, AttachBuffer(s, b);
    if r.out.Done? && b.id !in s.cache {
      var t := DeleteBuffers(s, over);
      DeleteBuffersKeeps(s, over);
      ShrunkCounters(s, over);
      InsertSize(t, b.id, r.q.cache[b.id]);
    } else if r.out.Done? {
      assert r.q.cache.Keys == s.cache.Keys;
      assert |r.q.cache.Keys| == |s.cache.Keys|;
    }
  }

  lemma {:induction false} PreAllocSize(s: Queue, cfg: Config, ready: seq<Spare>)
    requires FreshAll(s, ready)
    ensures var t := PreAllocInsert(s, cfg, ready).q;
            && t.pending == s.pending && t.reserved == s.reserved && t.size == s.size && t.allocating == s.allocating
            && Used(t) == if Used(s) >= Room(s) then Used(s) else if Used(s) + |ready| <= Room(s) then Used(s) + |ready| else Room(s)
    decreases |ready|
  {
    if ready != [] && Used(s) < Room(s) {
      var p := ready[0];
      var s1 := s.(cache := s.cache[p.id := PreAllocElement(p, cfg)], free := s.free + [p.id]);
      assert Fresh(s, p.id);
      InsertSize(s, p.id, PreAllocElement(p, cfg));
      assert FreshAll(s1, ready[1..]) by {
        forall i | 0 <= i < |ready[1..]| ensures Fresh(s1, ready[1..][i].id) { assert Fresh(s, ready[i + 1].id); }
      }
      PreAllocSize(s1, cfg, ready[1..]);
    }
  }

  /** Within the guards no step exceeds the queue size. */
  lemma StepWithin(s: Queue, e: Event)
    requires Inv(s) && Within(s) && Enabled(s, e) && Guard(s, e)
    ensures Within(Step(s, e).q)
  {
    if NonGrowing(e) {
      StepNoGrowth(s, e);
      NoGrowthKeeps(s, Step(s, e).q);
    } else if Requesting(e) {
      RequestingWithin(s, e);
    } else {
      match e {
        case EvFinishAlloc(n, ok, t) => FinishWithin(s, n, ok, t);
        case EvAttachAndFlush(b, f) => AttachAndFlushSize(s, b, f);
        case EvProducerAttach(b) => AttachSize(s, b, Producer);
        case EvConsumerAttach(b) => AttachSize(s, b.(consumerAttach := true), Consumer); RaisedSize(s, b);
        case EvConsumerDetach(q, r) => ConsumerDetachSize(s, q, r);
        case EvAttachBuffer(b) => AttachBufferSize(s, b);
        case EvSetQueueSize(n) => ResizeSize(s, n);
        case EvSetMaxQueueSize(n) => MaxResizeWithin(s, n);
        case EvPreAlloc(c, ready) => PreAllocSize(s, c, ready);
      }
    }
  }

  predicate Guarded(s: Queue, es: seq<Event>)
    requires CanRun(s, es)
    decreases |es|
  {
    es == [] || (Guard(s, es[0]) && Guarded(Step(s, es[0]).q, es[1..]))
  }

  /** used + in flight + reserved <= size over every guarded run. */
  lemma {:induction false} RunWithin(s: Queue, es: seq<Event>)
    requires Inv(s) && Within(s) && CanRun(s, es) && Guarded(s, es)
    ensures Within(Run(s, es))
    decreases |es|
  {
    if es != [] {
      StepWithin(s, es[0]);
      StepKeeps(s, es[0]);
      RunWithin(Step(s, es[0]).q, es[1..]);
    }
  }

  /** So the unsigned subtractions do not wrap ... */
  lemma NoWrap(s: Queue, count: u32)
    requires Within(s)
    ensures Room(s) == s.size - s.reserved && Used(s) <= Room(s)
    ensures PreAllocCount(s, count) == if count <= s.size - s.reserved - Used(s) then count else s.size - s.reserved - Used(s)
  {
  }

  predicate PreAllocArguments(c: Config, count: u32) {
    c.width >= 1 && c.height >= 1 && 0 <= c.format <= 0x7FFF_FFFE && count >= 1
  }

  /** Both the plan and the request for an allocation add the default usage, and nothing else. */
  lemma DefaultUsage(s: Queue, c: Config)
    ensures WithDefault(s, c) == c.(usage := c.usage | s.opts.defaultUsage)
  {
  }

  lemma PlanOf(s: Queue, c: Config, count: u32, total: u32, full: Config)
    requires total == PreAllocCount(s, count) && full == WithDefault(s, c)
    ensures PreAllocPlan(s, c, count)
         == if !PreAllocArguments(c, count) then Refused(InvalidArguments)
            else if total == 0 then Refused(QueueFull) else Allocate(total, full)
  {
  }

  /** Pre-allocation goes on with as many buffers as there are spare slots, at most those asked for,
      and is refused if there is none. */
  lemma PreAllocExact(s: Queue, c: Config, count: u32)
    requires Within(s)
    ensures var spare, plan := s.size - s.reserved - |s.cache|, PreAllocPlan(s, c, count);
            if !PreAllocArguments(c, count) then plan == Refused(InvalidArguments)
            else if spare == 0 then plan == Refused(QueueFull)
            else plan == Allocate(if count < spare then count else spare, c.(usage := c.usage | s.opts.defaultUsage))
  {
    NoWrap(s, count);
    DefaultUsage(s, c);
    PlanOf(s, c, count, PreAllocCount(s, count), WithDefault(s, c));
  }

  /** With more entries than slots the spare count wraps, and all that was asked for is allocated; the
      insertion that follows takes none of it. */
  lemma PreAllocWraps(s: Queue, c: Config, count: u32)
    requires PreAllocArguments(c, count) && s.reserved <= s.size < |s.cache| + s.reserved && |s.cache| < 0x1_0000_0000
    ensures PreAllocPlan(s, c, count) == Allocate(count, c.(usage := c.usage | s.opts.defaultUsage))
    ensures forall ready: seq<Spare> :: ready != [] ==> PreAllocInsert(s, c, ready) == Next(s, Failed(QueueFull))
  {
  }

  /** ... and a consumer that has reserved a slot never meets a full queue. */
  lemma ReservedAttachFits(s: Queue, b: Buffer)
    requires Within(s) && s.reserved > 0
    ensures ConsumerAttach(s, b).out != Failed(QueueFull)
  {
  }

  /** The guards are exact: a call that is accepted keeps the load within the size if and only
      if its guard held. */
  lemma GuardExact(s: Queue, e: Event)
    requires Inv(s) && Within(s) && Enabled(s, e) && (Step(s, e).out.Done? || e.EvPreAlloc?)
    requires e.EvProducerAttach? || e.EvAttachAndFlush? || e.EvConsumerAttach? || e.EvAttachBuffer? || e.EvSetQueueSize?
             || e.EvSetMaxQueueSize? || e.EvPreAlloc?
    ensures Load(Step(s, e).q) <= Step(s, e).q.size <==> Guard(s, e)
  {
    match e {
      case EvAttachAndFlush(b, f) => AttachAndFlushSize(s, b, f);
      case EvProducerAttach(b) => AttachSize(s, b, Producer);
      case EvConsumerAttach(b) => AttachSize(s, b.(consumerAttach := true), Consumer);
      case EvAttachBuffer(b) => AttachBufferSize(s, b);
      case EvSetQueueSize(n) => ResizeSize(s, n);
      case EvSetMaxQueueSize(n) => MaxResizeExact(s, n);
      case EvPreAlloc(c, ready) => PreAllocSize(s, c, ready);
    }
  }

  lemma MaxResizeExact(s: Queue, n: u32)
    requires Inv(s) && Within(s) && SetMaxQueueSize(s, n).out.Done?
    ensures var t := SetMaxQueueSize(s, n).q; Load(t) <= t.size <==> Guard(s, EvSetMaxQueueSize(n))
  {
    if s.size > n {
      var t := s.(maxSize := n);
      assert After(t, n) == After(s, n);
      ResizeSize(t, n);
    }
  }
}
