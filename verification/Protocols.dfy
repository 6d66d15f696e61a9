/** Two small protocols over whole runs: the lock on the last flushed buffer, and the re-send
    bookkeeping after the producer has dropped its cache. */
module Protocols {
  import opened Lists
  import opened QueueModel
  import opened Partition
  import opened Requests
  import opened Shrink
  import opened HandOuts
  import opened FrameOrder

  /** The fields these protocols live in. */
  predicate Quiet(s: Queue, t: Queue) {
    t.locked == s.locked && t.opts == s.opts && t.cacheClean == s.cacheClean && t.resent == s.resent && t.lowering == s.lowering
  }

  lemma {:induction false} PreAllocQuiet(s: Queue, cfg: Config, ready: seq<Spare>)
    ensures Quiet(s, PreAllocInsert(s, cfg, ready).q) && PreAllocInsert(s, cfg, ready).q.pending == s.pending
    decreases |ready|
  {
    if ready != [] && Used(s) < Room(s) {
      var p := ready[0];
      PreAllocQuiet(s.(cache := s.cache[p.id := PreAllocElement(p, cfg)], free := s.free + [p.id]), cfg, ready[1..]);
    }
  }

  lemma DeleteQuiet(s: Queue, count: int)
    ensures Quiet(s, DeleteBuffers(s, count)) && DeleteBuffers(s, count).pending == s.pending
  {
    if count > 0 { ShrinkFrame(s, count); }
  }

  lemma ResizeQuiet(s: Queue, n: u32)
    ensures Quiet(s, SetQueueSize(s, n).q) && SetQueueSize(s, n).q.pending == s.pending
    ensures Quiet(s, SetMaxQueueSize(s, n).q) && SetMaxQueueSize(s, n).q.pending == s.pending
  {
    DeleteQuiet(s, s.size - Clamped(s, n));
    DeleteQuiet(s.(maxSize := n), s.size - n);
  }

  lemma AttachBufferQuiet(s: Queue, b: Buffer)
    ensures Quiet(s, AttachBuffer(s, b).q) && AttachBuffer(s, b).q.pending == s.pending
  {
    DeleteQuiet(s, Used(s) - s.size + 1);
  }

  lemma AttachAndFlushQuiet(s: Queue, b: Buffer, f: Frame)
    ensures Quiet(s, AttachAndFlush(s, b, f).q) && AttachAndFlush(s, b, f).q.pending == s.pending
  {
  }

  lemma FlushQuiet(s: Queue, q: SeqNum, f: Frame)
    ensures Quiet(s, Flush(s, q, f, true).q) && Flush(s, q, f, true).q.pending == s.pending
  {
  }

  lemma ReleaseQuiet(s: Queue, q: SeqNum)
    requires Inv(s)
    ensures Quiet(s, Release(s, q).q) && Release(s, q).q.pending == s.pending
  {
    ReleaseEffect(s, q);
  }

  /** Events that are not about these protocols. */
  predicate Bystander(e: Event) {
    !Requesting(e) && !e.EvFinishAlloc? && !e.EvSetCleanFlag? && !e.EvLock? && !e.EvUnlock? && !e.EvConfigure?
    && !e.EvLowerFlag?
  }

  predicate Simple(e: Event) {
    e.EvCancel? || e.EvAcquire? || e.EvDropByLevel? || e.EvTimedSelect? || e.EvProducerAttach? || e.EvConsumerAttach?
    || e.EvProducerDetach? || e.EvConsumerDetach? || e.EvDetachBuffer? || e.EvClear? || e.EvCleanReleased? || e.EvCleanBySeqNum?
    || e.EvTurnedAway?
  }

  lemma SimpleQuiet(s: Queue, e: Event)
    requires Enabled(s, e) && Simple(e)
    ensures Quiet(s, Step(s, e).q) && Step(s, e).q.pending == s.pending
  {
    if e.EvAcquire? || e.EvDropByLevel? || e.EvTimedSelect? { FrontQuiet(s, e); } else { NamedQuiet(s, e); }
  }

  lemma FrontQuiet(s: Queue, e: Event)
    requires e.EvAcquire? || e.EvDropByLevel? || e.EvTimedSelect?
    ensures Quiet(s, Step(s, e).q) && Step(s, e).q.pending == s.pending
  {
  }

  lemma NamedQuiet(s: Queue, e: Event)
    requires Enabled(s, e) && Simple(e) && !e.EvAcquire? && !e.EvDropByLevel? && !e.EvTimedSelect?
    ensures Quiet(s, Step(s, e).q) && Step(s, e).q.pending == s.pending
  {
  }

  lemma BystanderQuiet(s: Queue, e: Event)
    requires Inv(s) && Enabled(s, e) && Bystander(e)
    ensures Quiet(s, Step(s, e).q) && Step(s, e).q.pending == s.pending
  {
    match e {
      case EvFlush(q, f) => FlushQuiet(s, q, f);
      case EvAttachAndFlush(b, f) => AttachAndFlushQuiet(s, b, f);
      case EvRelease(q) => ReleaseQuiet(s, q);
      case EvAttachBuffer(b) => AttachBufferQuiet(s, b);
      case EvSetQueueSize(n) => ResizeQuiet(s, n);
      case EvSetMaxQueueSize(n) => ResizeQuiet(s, n);
      case EvPreAlloc(c, ready) => PreAllocQuiet(s, c, ready);
      case _ => SimpleQuiet(s, e);
    }
  }

  // ---- the lock on the last flushed buffer ----

  /** The ids given to the producer by a step with this outcome. */
  function GivenIn(out: Outcome): seq<SeqNum> {
    match out
    case Granted(id, _, _) => [id]
    case Returned(handed) => handed
    case _ => []
  }

  function GivenBy(s: Queue, e: Event): seq<SeqNum>
    requires Enabled(s, e)
  {
    GivenIn(Step(s, e).out)
  }

  function Given(s: Queue, es: seq<Event>): seq<SeqNum>
    requires CanRun(s, es)
    decreases |es|
  {
    if es == [] then [] else GivenBy(s, es[0]) + Given(Step(s, es[0]).q, es[1..])
  }

  /** The queue blocks, `q` is locked, and no allocation is about to produce the number `q`. */
  ghost predicate LockHeld(s: Queue, q: SeqNum) {
    s.locked == q && q != INVALID_SEQUENCE && !s.opts.noBlock && q !in s.pending
  }

  /** The lock is not given back, the queue stays in blocking mode, and the number of the locked
      buffer, which its holder keeps alive, is not reused. */
  predicate RespectsLock(e: Event, q: SeqNum) {
    match e
    case EvUnlock(x) => x != q
    case EvConfigure(t) => !t.noBlock
    case EvRequest(_, n) => n != q
    case EvDequeue(_, n) => n != q
    case EvAfterWait(_, n) => n != q
    case _ => true
  }

  lemma ReleaseGives(s: Queue, x: SeqNum)
    requires Inv(s) && Release(s, x).out.Returned?
    ensures forall q :: q in Release(s, x).out.handed ==> q != s.locked
  {
    ReleaseEffect(s, x);
    var m, r := ReleaseLocked(s, x).q, Release(s, x);
    forall q | q in r.out.handed ensures q != s.locked { assert HandedEntry(m, r.q, q); }
  }

  lemma BystanderLock(s: Queue, e: Event, q: SeqNum)
    requires Inv(s) && Enabled(s, e) && Bystander(e) && LockHeld(s, q) && RespectsLock(e, q)
    ensures LockHeld(Step(s, e).q, q) && q !in GivenBy(s, e)
  {
    BystanderQuiet(s, e);
    if e.EvRelease? {
      ReleaseEffect(s, e.id);
      if Release(s, e.id).out.Returned? { ReleaseGives(s, e.id); }
    } else {
      BystanderGivesNothing(s, e);
    }
  }

  lemma StepLock(s: Queue, e: Event, q: SeqNum)
    requires Inv(s) && Enabled(s, e) && LockHeld(s, q) && RespectsLock(e, q)
    ensures LockHeld(Step(s, e).q, q) && q !in GivenBy(s, e)
  {
    if Bystander(e) {
      BystanderLock(s, e, q);
    } else if Requesting(e) {
      RequestingLock(s, e, q);
    } else if e.EvFinishAlloc? {
      FinishEffect(s, e.num, e.ok, e.token);
    } else {
      ControlLock(s, e, q);
    }
  }

  lemma RequestingLock(s: Queue, e: Event, q: SeqNum)
    requires Inv(s) && Enabled(s, e) && Requesting(e) && LockHeld(s, q) && RespectsLock(e, q)
    ensures LockHeld(Step(s, e).q, q) && q !in GivenBy(s, e)
  {
    var x := RequestingEffect(s, e);
  }

  lemma ControlLock(s: Queue, e: Event, q: SeqNum)
    requires Enabled(s, e) && LockHeld(s, q) && RespectsLock(e, q)
    requires e.EvSetCleanFlag? || e.EvLock? || e.EvUnlock? || e.EvConfigure? || e.EvLowerFlag?
    ensures LockHeld(Step(s, e).q, q) && q !in GivenBy(s, e)
  {
  }

  lemma {:induction false} PreAllocOut(s: Queue, cfg: Config, ready: seq<Spare>)
    ensures PreAllocInsert(s, cfg, ready).out in {Done, Failed(QueueFull)}
    decreases |ready|
  {
    if ready != [] && Used(s) < Room(s) {
      var p := ready[0];
      PreAllocOut(s.(cache := s.cache[p.id := PreAllocElement(p, cfg)], free := s.free + [p.id]), cfg, ready[1..]);
    }
  }

  lemma BystanderGivesNothing(s: Queue, e: Event)
    requires Enabled(s, e) && Bystander(e) && !e.EvRelease?
    ensures GivenBy(s, e) == []
  {
    if e.EvPreAlloc? { PreAllocOut(s, e.config, e.ready); }
  }

  /** From a successful AcquireLastFlushedBuffer until its release, in blocking mode, no request
      and no hand-out of any run returns the locked buffer. */
  lemma {:induction false} LockedNeverGiven(s: Queue, es: seq<Event>, q: SeqNum)
    requires Inv(s) && CanRun(s, es) && LockHeld(s, q) && forall e :: e in es ==> RespectsLock(e, q)
    ensures q !in Given(s, es) && LockHeld(Run(s, es), q)
    decreases |es|
  {
    if es != [] {
      assert es[0] in es;
      StepLock(s, es[0], q);
      StepKeeps(s, es[0]);
      LockedNeverGiven(Step(s, es[0]).q, es[1..], q);
    }
  }

  lemma LockTakesHold(s: Queue)
    requires Inv(s) && LockLastFlushed(s).out.Took? && s.lastFlushed != INVALID_SEQUENCE && !s.opts.noBlock
    ensures var t := LockLastFlushed(s).q;
            LockHeld(t, s.lastFlushed) && s.lastFlushed in t.cache && t.cache[s.lastFlushed].state != Requested
  {
  }

  /** In non-blocking mode the lock does not bind the path that takes back flushed frames: there a
      request returns the locked buffer exactly when it heads the dirty list, no free buffer will
      do, the queue is full, and the configuration matches. */
  lemma NonBlockingReturnsLocked(s: Queue, cfg: Config, n: SeqNum)
    requires Inv(s) && s.opts.noBlock && n != s.locked
    ensures var r := Dequeue(s, cfg, n, false);
            (r.out.Granted? && r.out.id == s.locked) <==>
            (s.dirty != [] && s.dirty[0] == s.locked && Used(s) >= Room(s) && PopFree(s, cfg).q.None?
             && s.locked in s.cache && SameConfig(cfg, s.cache[s.locked].config))
  {
    var q := DequeueEffect(s, cfg, n);
    PopShape(s, cfg);
    if s.dirty != [] { DirtyTakes(s); }
  }

  // ---- re-sending after the producer dropped its cache ----

  /** Ids whose buffer travelled in a reply of this step. */
  function SentBy(s: Queue, e: Event): seq<SeqNum>
    requires Enabled(s, e)
  {
    match Step(s, e).out
    case Granted(id, b, _) => if b.Some? then [id] else []
    case _ => []
  }

  function Sent(s: Queue, es: seq<Event>): seq<SeqNum>
    requires CanRun(s, es)
    decreases |es|
  {
    if es == [] then [] else SentBy(s, es[0]) + Sent(Step(s, es[0]).q, es[1..])
  }

  /** The buffer of a new allocation travels with its buffer, and is not entered in the list of sent ids. */
  function MadeBy(s: Queue, e: Event): seq<SeqNum>
    requires Enabled(s, e)
  {
    match e
    case EvFinishAlloc(n, ok, _) => if ok && !s.pending[n].realloc then [n] else []
    case _ => []
  }

  function Made(s: Queue, es: seq<Event>): seq<SeqNum>
    requires CanRun(s, es)
    decreases |es|
  {
    if es == [] then [] else MadeBy(s, es[0]) + Made(Step(s, es[0]).q, es[1..])
  }

  /** Before and after a step the list of sent ids, with those of new allocations, is the same as
      what was sent: nothing is entered that was not sent, and nothing else is left out. */
  ghost predicate Recorded(s: Queue, t: Queue, e: Event)
    requires Enabled(s, e)
  {
    forall x :: x in t.resent || x in MadeBy(s, e) <==> x in s.resent || x in SentBy(s, e)
  }

  /** The flag falls in a grant that completes the list, or at the end of one that waited; else the
      list is kept up. */
  lemma StepResend(s: Queue, e: Event)
    requires Inv(s) && Enabled(s, e) && s.cacheClean && !e.EvSetCleanFlag?
    ensures var t := Step(s, e).q;
            if t.cacheClean then Recorded(s, t, e)
            else
              && (Requesting(e) || e.EvFinishAlloc? || e.EvLowerFlag?)
              && (e.EvLowerFlag? ==> t.cache.Keys == s.cache.Keys && SentBy(s, e) == [])
              && (!e.EvLowerFlag? ==> forall x :: x in t.cache ==> x in s.resent || x in SentBy(s, e))
  {
    if Bystander(e) {
      BystanderQuiet(s, e);
      BystanderSendsNothing(s, e);
    } else if Requesting(e) {
      RequestingResend(s, e);
    } else if e.EvFinishAlloc? {
      FinishResend(s, e);
    } else {
      assert e.EvLock? || e.EvUnlock? || e.EvConfigure? || e.EvLowerFlag?;
    }
  }

  lemma BystanderSendsNothing(s: Queue, e: Event)
    requires Enabled(s, e) && Bystander(e)
    ensures SentBy(s, e) == [] && MadeBy(s, e) == []
  {
    if e.EvPreAlloc? { PreAllocOut(s, e.config, e.ready); }
  }

  lemma RequestingResend(s: Queue, e: Event)
    requires Inv(s) && Enabled(s, e) && s.cacheClean && Requesting(e)
    ensures var t := Step(s, e).q;
            if t.cacheClean then Recorded(s, t, e)
            else forall x :: x in t.cache ==> x in s.resent || x in SentBy(s, e)
  {
    var x := RequestingEffect(s, e);
  }

  lemma FinishResend(s: Queue, e: Event)
    requires Inv(s) && Enabled(s, e) && s.cacheClean && e.EvFinishAlloc?
    ensures var t := Step(s, e).q;
            if t.cacheClean then Recorded(s, t, e)
            else forall x :: x in t.cache ==> x in s.resent || x in SentBy(s, e)
  {
    FinishEffect(s, e.num, e.ok, e.token);
  }

  /** While the flag stays up, the list holds exactly what was sent, but for new allocations. */
  lemma {:induction false} ResentAreSent(s: Queue, es: seq<Event>)
    requires Inv(s) && CanRun(s, es) && StaysUp(s, es) && forall e :: e in es ==> !e.EvSetCleanFlag?
    ensures Run(s, es).cacheClean
    ensures forall x :: x in Run(s, es).resent || x in Made(s, es) <==> x in s.resent || x in Sent(s, es)
    decreases |es|
  {
    if es != [] {
      assert es[0] in es;
      StepResend(s, es[0]);
      StepKeeps(s, es[0]);
      ResentAreSent(Step(s, es[0]).q, es[1..]);
    }
  }

  predicate StaysUp(s: Queue, es: seq<Event>)
    requires CanRun(s, es)
    decreases |es|
  {
    s.cacheClean && (es == [] || StaysUp(Step(s, es[0]).q, es[1..]))
  }

  /** When the flag falls without being cleared by a call, it falls in a grant. If the grant did not
      have to wait for it, every id then in the cache has been sent with its buffer since the flag was
      raised; if it did, that is so exactly when no unsent id has come into the cache by then. */
  lemma ResendComplete(s: Queue, es: seq<Event>, e: Event)
    requires Inv(s) && CanRun(s, es) && StaysUp(s, es) && s.resent == []
    requires (forall x :: x in es ==> !x.EvSetCleanFlag?) && !e.EvSetCleanFlag?
    requires Enabled(Run(s, es), e) && !Step(Run(s, es), e).q.cacheClean
    ensures Requesting(e) || e.EvFinishAlloc? || e.EvLowerFlag?
    ensures (forall x :: x in Step(Run(s, es), e).q.cache ==> x in Sent(s, es) || x in SentBy(Run(s, es), e)) <==>
            (e.EvLowerFlag? ==> forall x :: x in Run(s, es).cache ==> x in Run(s, es).resent || x in Made(s, es))
  {
    ResentAreSent(s, es);
    RunKeeps(s, es);
    StepResend(Run(s, es), e);
  }

  /** When a grant begins to wait, the list is complete. */
  lemma LoweringStarts(s: Queue, e: Event)
    requires Inv(s) && Enabled(s, e) && Step(s, e).q.lowering != s.lowering && !e.EvLowerFlag?
    ensures e.EvAfterWait? && s.allocating && s.cacheClean && Step(s, e).out.Granted?
    ensures Step(s, e).q.lowering == s.lowering + [Step(s, e).out.id] && AllResent(Step(s, e).q)
  {
    if Bystander(e) {
      BystanderQuiet(s, e);
    } else if Requesting(e) {
      var x := RequestingEffect(s, e);
    } else if e.EvFinishAlloc? {
      FinishEffect(s, e.num, e.ok, e.token);
    }
  }
}
