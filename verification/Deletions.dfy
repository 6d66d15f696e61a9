/** The deletion list: what the queue removes on its own is reported to the producer once, in order. */
module Deletions {
  import opened Lists
  import opened QueueModel
  import opened Partition
  import opened Requests
  import opened Shrink
  import opened HandOuts
  import opened FrameOrder

  /** The id a call names, for the calls that may delete it. */
  function Subject(e: Event): seq<SeqNum> {
    match e
    case EvFlush(q, _) => [q]
    case EvRelease(q) => [q]
    case EvConsumerDetach(q, _) => [q]
    case _ => []
  }

  /** The ids of `l` that are in the cache of `s` but no longer in that of `t`. */
  function Vanished(s: Queue, t: Queue, l: seq<SeqNum>): seq<SeqNum> {
    Keep(l, (q: SeqNum) => q in s.cache && q !in t.cache)
  }

  /** The purges that remove list entries without reporting them: what they remove the producer
      learns from the reply, or not at all. */
  predicate Silent(e: Event) { e.EvCleanReleased? || e.EvCleanBySeqNum? }

  /** Entries that a call removes without a report. */
  function Unreported(s: Queue, e: Event): seq<SeqNum> {
    match e
    case EvProducerDetach(q) => [q]
    case EvDetachBuffer(q) => [q]
    case EvCleanReleased => s.free
    case EvCleanBySeqNum(ids) => ids
    case _ => []
  }

  function DueAfter(s: Queue, e: Event, t: Queue): seq<SeqNum> {
    if Silent(e) then [] else Reports(s.cache, Vanished(s, t, Both(s) + Subject(e)))
  }

  /** What the producer has to be told about this step: the ids that vanished, free list first,
      then dirty list, then the id named by the call, without the pre-allocated ones. */
  function ToReport(s: Queue, e: Event): seq<SeqNum>
    requires Enabled(s, e)
  {
    DueAfter(s, e, Step(s, e).q)
  }

  function DeliveredBy(out: Outcome): seq<SeqNum> {
    match out case Granted(_, _, gone) => gone case _ => []
  }

  /** Calls that drop the pending reports: a clear, and a release whose hand-out takes the list. */
  ghost predicate Lossy(s: Queue, e: Event) {
    e.EvClear? || (e.EvRelease? && Release(s, e.id).out.Returned? && s.opts.handOut && Drops(ReleaseLocked(s, e.id).q))
  }

  // ---- lists of vanished ids ----

  lemma VanishedNone(s: Queue, t: Queue, l: seq<SeqNum>)
    requires forall q :: q in s.cache && q in l ==> q in t.cache
    ensures Vanished(s, t, l) == []
  {
    KeepNone(l, (q: SeqNum) => q in s.cache && q !in t.cache);
  }

  lemma VanishedPrefix(s: Queue, t: Queue, l: seq<SeqNum>, n: nat)
    requires n <= |l| && NoDup(l) && (forall q :: q in l ==> q in s.cache)
    requires t.cache.Keys == s.cache.Keys - Elems(l[..n])
    ensures Vanished(s, t, l) == l[..n]
  {
    var p := (q: SeqNum) => q in s.cache && q !in t.cache;
    NoDupCut(l, n);
    KeepAll(l[..n], p);
    KeepNone(l[n..], p);
    KeepConcat(l[..n], l[n..], p);
    assert l == l[..n] + l[n..];
  }

  lemma {:induction false} KeepSingle(l: seq<SeqNum>, p: SeqNum -> bool, q: SeqNum)
    requires NoDup(l) && q in l && forall x :: x in l ==> (p(x) <==> x == q)
    ensures Keep(l, p) == [q]
  {
    if l[0] == q {
      KeepNone(l[1..], p);
    } else {
      KeepSingle(l[1..], p, q);
    }
  }

  lemma VanishedSingle(s: Queue, t: Queue, l: seq<SeqNum>, q: SeqNum)
    requires NoDup(l) && q in l && q in s.cache && t.cache.Keys == s.cache.Keys - {q}
    requires forall x :: x in l ==> x in s.cache
    ensures Vanished(s, t, l) == [q]
  {
    KeepSingle(l, (x: SeqNum) => x in s.cache && x !in t.cache, q);
  }

  lemma BothInCache(s: Queue)
    requires Inv(s)
    ensures NoDup(Both(s)) && forall q :: q in Both(s) ==> q in s.cache
  {
    BothNoDup(s);
    forall q | q in Both(s) ensures q in s.cache {
      if q in s.free { assert InState(s.cache, q, Released); } else { assert InState(s.cache, q, Flushed); }
    }
  }

  // ---- one step ----

  /** The account of one step: reports so far plus new ones are what was delivered plus what is
      still pending; and nothing vanished but list entries and the ids the call names. */
  ghost predicate Balanced(s: Queue, e: Event, r: Next) {
    && s.deleting + DueAfter(s, e, r.q) == DeliveredBy(r.out) + r.q.deleting
    && (forall q :: q in s.cache && q !in r.q.cache ==> q in Both(s) + Subject(e) || q in Unreported(s, e))
  }

  lemma KeysKept(s: Queue, e: Event, r: Next)
    requires forall q :: q in s.cache ==> q in r.q.cache
    requires s.deleting == DeliveredBy(r.out) + r.q.deleting
    ensures Balanced(s, e, r)
  {
    VanishedNone(s, r.q, Both(s) + Subject(e));
  }

  lemma RequestingBalanced(s: Queue, e: Event)
    requires Inv(s) && Enabled(s, e) && Requesting(e)
    ensures Balanced(s, e, Step(s, e))
  {
    var q := RequestingEffect(s, e);
    var r := Step(s, e);
    if r.out.Allocating? && q.Some? {
      BothInCache(s);
      assert q.value in Both(s);
      assert Both(s) + Subject(e) == Both(s);
      VanishedSingle(s, r.q, Both(s), q.value);
    } else {
      KeysKept(s, e, r);
    }
  }

  /** A call that deletes the entry it names, which was on no list. */
  lemma SubjectGone(s: Queue, e: Event, t: Queue, q: SeqNum)
    requires Inv(s) && Subject(e) == [q] && q in s.cache && s.cache[q].state !in {Released, Flushed}
    requires t.cache.Keys == s.cache.Keys - {q} && t.deleting == s.deleting + Reports(s.cache, [q])
    ensures Balanced(s, e, Next(t, Done))
  {
    BothInCache(s);
    assert q !in Both(s) by { assert !InState(s.cache, q, Released) && !InState(s.cache, q, Flushed); }
    NoDupSnoc(Both(s), q);
    VanishedSingle(s, t, Both(s) + [q], q);
  }

  lemma FlushBalanced(s: Queue, q: SeqNum, f: Frame)
    requires Inv(s)
    ensures Balanced(s, EvFlush(q, f), Flush(s, q, f, true))
  {
    var r := Flush(s, q, f, true);
    if r.out.Done? && s.cache[q].isDeleting {
      SubjectGone(s, EvFlush(q, f), r.q, q);
    } else {
      KeysKept(s, EvFlush(q, f), r);
    }
  }

  /** A release that loses nothing, in whatever mode: the hand-out changes no key. */
  lemma ReleaseBalanced(s: Queue, q: SeqNum)
    requires Inv(s) && !Lossy(s, EvRelease(q))
    ensures Balanced(s, EvRelease(q), Release(s, q))
  {
    ReleaseKeys(s, q);
    var r := Release(s, q);
    if r.out.Returned? && s.cache[q].isDeleting {
      SubjectGone(s, EvRelease(q), r.q, q);
    } else {
      KeysKept(s, EvRelease(q), r);
    }
  }

  lemma ReleaseKeys(s: Queue, q: SeqNum)
    requires Inv(s) && !Lossy(s, EvRelease(q))
    ensures var r := Release(s, q);
            && (r.out.Returned? ==> q in s.cache && s.cache[q].state in {Acquired, Attached})
            && DeliveredBy(r.out) == []
            && if r.out.Returned? && s.cache[q].isDeleting then
                 r.q.cache.Keys == s.cache.Keys - {q} && r.q.deleting == s.deleting + Reports(s.cache, [q])
               else (forall x :: x in s.cache ==> x in r.q.cache) && r.q.deleting == s.deleting
  {
    ReleaseEffect(s, q);
    var m, r := ReleaseLocked(s, q).q, Release(s, q);
    if r.out.Returned? {
      assert r.q.cache.Keys == m.cache.Keys;
      LockedPartKeys(s, q);
    }
  }

  lemma LockedPartKeys(s: Queue, q: SeqNum)
    requires q in s.cache && s.cache[q].state in {Acquired, Attached}
    ensures var m := ReleaseLocked(s, q).q;
            if s.cache[q].isDeleting then m.cache.Keys == s.cache.Keys - {q} && m.deleting == s.deleting + Reports(s.cache, [q])
            else m.cache.Keys == s.cache.Keys && m.deleting == s.deleting
  {
  }

  /** Entries taken out by name that were on no list: nothing is due. */
  lemma NamedBalanced(s: Queue, e: Event, q: SeqNum, out: Outcome)
    requires Inv(s) && Subject(e) == [] && !Silent(e) && q in Unreported(s, e) && DeliveredBy(out) == []
    requires q in s.cache && s.cache[q].state !in {Released, Flushed}
    ensures Balanced(s, e, Next(Erase(s, q), out))
  {
    BothInCache(s);
    assert Both(s) + Subject(e) == Both(s);
    assert q !in Both(s) by { assert !InState(s.cache, q, Released) && !InState(s.cache, q, Flushed); }
    VanishedNone(s, Erase(s, q), Both(s));
  }

  lemma DetachBalanced(s: Queue, q: SeqNum)
    requires Inv(s)
    ensures Balanced(s, EvProducerDetach(q), DetachFromQueue(s, q, Producer, false))
    ensures Balanced(s, EvDetachBuffer(q), DetachBuffer(s, q))
  {
    if q in s.cache && s.cache[q].state in {Requested, Acquired} {
      NamedBalanced(s, EvProducerDetach(q), q, Done);
      NamedBalanced(s, EvDetachBuffer(q), q, Done);
    }
    if DetachFromQueue(s, q, Producer, false).out.Failed? { KeysKept(s, EvProducerDetach(q), DetachFromQueue(s, q, Producer, false)); }
    if DetachBuffer(s, q).out.Failed? { KeysKept(s, EvDetachBuffer(q), DetachBuffer(s, q)); }
  }

  lemma SilentBalanced(s: Queue, e: Event)
    requires Enabled(s, e) && Silent(e)
    ensures Balanced(s, e, Step(s, e))
  {
    match e {
      case EvCleanReleased => KeepMembers(s.free, (q: SeqNum) => !Spared(s, q));
      case EvCleanBySeqNum(ids) =>
    }
  }

  lemma ConsumerDetachBalanced(s: Queue, q: SeqNum, reserve: bool)
    requires Inv(s)
    ensures Balanced(s, EvConsumerDetach(q, reserve), ConsumerDetach(s, q, reserve))
  {
    var r := ConsumerDetach(s, q, reserve);
    if r.out.Done? {
      SubjectGone(s, EvConsumerDetach(q, reserve), r.q, q);
    } else {
      KeysKept(s, EvConsumerDetach(q, reserve), r);
    }
  }

  lemma ShrinkBalanced(s: Queue, e: Event, count: int, r: Next)
    requires Inv(s) && Subject(e) == [] && !Silent(e) && DeliveredBy(r.out) == []
    requires r.q.deleting == DeleteBuffers(s, count).deleting
    requires forall q :: q in s.cache ==> (q in r.q.cache <==> q in DeleteBuffers(s, count).cache)
    ensures Balanced(s, e, r)
  {
    if count <= 0 {
      KeysKept(s, e, r);
    } else {
      var t, n := DeleteBuffers(s, count), Found(s, count);
      BothInCache(s);
      ShrinkKeys(s, count);
      ShrinkReports(s, count);
      VanishedPrefix(s, t, Both(s), n);
      assert Both(s) + Subject(e) == Both(s);
      KeepCong(Both(s), (q: SeqNum) => q in s.cache && q !in t.cache, (q: SeqNum) => q in s.cache && q !in r.q.cache);
    }
  }

  lemma ResizeBalanced(s: Queue, n: u32)
    requires Inv(s)
    ensures Balanced(s, EvSetQueueSize(n), SetQueueSize(s, n))
  {
    var r := SetQueueSize(s, n);
    if r.out.Failed? { KeysKept(s, EvSetQueueSize(n), r); }
    else { ShrinkBalanced(s, EvSetQueueSize(n), s.size - Clamped(s, n), r); }
  }

  lemma MaxResizeBalanced(s: Queue, n: u32)
    requires Inv(s)
    ensures Balanced(s, EvSetMaxQueueSize(n), SetMaxQueueSize(s, n))
  {
    var r, t := SetMaxQueueSize(s, n), s.(maxSize := n);
    if r.out.Failed? || s.size <= n { KeysKept(s, EvSetMaxQueueSize(n), r); }
    else { ShrinkBalanced(t, EvSetMaxQueueSize(n), t.size - Clamped(t, n), r); }
  }

  lemma AttachBufferBalanced(s: Queue, b: Buffer)
    requires Inv(s)
    ensures Balanced(s, EvAttachBuffer(b), AttachBuffer(s, b))
  {
    var r := AttachBuffer(s, b);
    if r.out.Failed? || b.id in s.cache { KeysKept(s, EvAttachBuffer(b), r); }
    else { ShrinkBalanced(s, EvAttachBuffer(b), Used(s) - s.size + 1, r); }
  }

  lemma {:induction false} PreAllocKeepsKeys(s: Queue, cfg: Config, ready: seq<Spare>)
    ensures var r := PreAllocInsert(s, cfg, ready);
            (forall q :: q in s.cache ==> q in r.q.cache) && r.q.deleting == s.deleting && DeliveredBy(r.out) == []
    decreases |ready|
  {
    if ready != [] && Used(s) < Room(s) {
      var p := ready[0];
      PreAllocKeepsKeys(s.(cache := s.cache[p.id := PreAllocElement(p, cfg)], free := s.free + [p.id]), cfg, ready[1..]);
    }
  }

  lemma AttachAndFlushKeepsKeys(s: Queue, b: Buffer, f: Frame)
    ensures var r := AttachAndFlush(s, b, f);
            (forall q :: q in s.cache ==> q in r.q.cache) && r.q.deleting == s.deleting && DeliveredBy(r.out) == []
  {
  }

  predicate KeepsEntries(e: Event) {
    e.EvCancel? || e.EvAcquire? || e.EvDropByLevel? || e.EvTimedSelect? || e.EvProducerAttach? || e.EvConsumerAttach?
    || e.EvSetCleanFlag? || e.EvLock? || e.EvUnlock? || e.EvConfigure? || e.EvLowerFlag? || e.EvTurnedAway?
  }

  lemma KeepsEntriesBalanced(s: Queue, e: Event)
    requires Enabled(s, e) && KeepsEntries(e)
    ensures Balanced(s, e, Step(s, e))
  {
    if e.EvAcquire? || e.EvDropByLevel? || e.EvTimedSelect? { FrontKeys(s, e); } else { OtherKeys(s, e); }
    KeysKept(s, e, Step(s, e));
  }

  lemma FrontKeys(s: Queue, e: Event)
    requires e.EvAcquire? || e.EvDropByLevel? || e.EvTimedSelect?
    ensures var r := Step(s, e); (forall q :: q in s.cache ==> q in r.q.cache) && r.q.deleting == s.deleting && DeliveredBy(r.out) == []
  {
  }

  lemma OtherKeys(s: Queue, e: Event)
    requires Enabled(s, e) && KeepsEntries(e) && !e.EvAcquire? && !e.EvDropByLevel? && !e.EvTimedSelect?
    ensures var r := Step(s, e); (forall q :: q in s.cache ==> q in r.q.cache) && r.q.deleting == s.deleting && DeliveredBy(r.out) == []
  {
  }

  lemma StepBalanced(s: Queue, e: Event)
    requires Inv(s) && Enabled(s, e) && !Lossy(s, e)
    ensures Balanced(s, e, Step(s, e))
  {
    match e {
      case EvRequest(_, _) => RequestingBalanced(s, e);
      case EvDequeue(_, _) => RequestingBalanced(s, e);
      case EvAfterWait(_, _) => RequestingBalanced(s, e);
      case EvFinishAlloc(n, ok, t) => FinishEffect(s, n, ok, t); KeysKept(s, e, FinishAlloc(s, n, ok, t));
      case EvFlush(q, f) => FlushBalanced(s, q, f);
      case EvAttachAndFlush(b, f) => AttachAndFlushKeepsKeys(s, b, f); KeysKept(s, e, AttachAndFlush(s, b, f));
      case EvRelease(q) => ReleaseBalanced(s, q);
      case EvConsumerDetach(q, x) => ConsumerDetachBalanced(s, q, x);
      case EvProducerDetach(q) => DetachBalanced(s, q);
      case EvDetachBuffer(q) => DetachBalanced(s, q);
      case EvCleanReleased => SilentBalanced(s, e);
      case EvCleanBySeqNum(_) => SilentBalanced(s, e);
      case EvAttachBuffer(b) => AttachBufferBalanced(s, b);
      case EvSetQueueSize(n) => ResizeBalanced(s, n);
      case EvSetMaxQueueSize(n) => MaxResizeBalanced(s, n);
      case EvPreAlloc(c, ready) => PreAllocKeepsKeys(s, c, ready); KeysKept(s, e, PreAllocInsert(s, c, ready));
      case _ => KeepsEntriesBalanced(s, e);
    }
  }

  /** The account of a step fails exactly when the step drops reports and there is one to drop. */
  lemma AccountExact(s: Queue, e: Event)
    requires Inv(s) && Enabled(s, e)
    ensures s.deleting + ToReport(s, e) == DeliveredBy(Step(s, e).out) + Step(s, e).q.deleting <==>
            !Lossy(s, e) || s.deleting + ToReport(s, e) == []
  {
    if !Lossy(s, e) {
      StepBalanced(s, e);
    } else if e.EvRelease? {
      ReleaseEffect(s, e.id);
    }
  }

  // ---- whole runs ----

  function AllReports(s: Queue, es: seq<Event>): seq<SeqNum>
    requires CanRun(s, es)
    decreases |es|
  {
    if es == [] then [] else ToReport(s, es[0]) + AllReports(Step(s, es[0]).q, es[1..])
  }

  function AllDelivered(s: Queue, es: seq<Event>): seq<SeqNum>
    requires CanRun(s, es)
    decreases |es|
  {
    if es == [] then [] else DeliveredBy(Step(s, es[0]).out) + AllDelivered(Step(s, es[0]).q, es[1..])
  }

  ghost predicate NoneLossy(s: Queue, es: seq<Event>)
    requires CanRun(s, es)
    decreases |es|
  {
    es == [] || (!Lossy(s, es[0]) && NoneLossy(Step(s, es[0]).q, es[1..]))
  }

  /** Over any run without a clear and without a release that drops the list, the reports due are
      delivered exactly once and in order: what was due is what the replies carried followed by what
      the list still holds. */
  lemma {:induction false} ReportsDelivered(s: Queue, es: seq<Event>)
    requires Inv(s) && CanRun(s, es) && NoneLossy(s, es)
    ensures s.deleting + AllReports(s, es) == AllDelivered(s, es) + Run(s, es).deleting
    decreases |es|
  {
    if es != [] {
      var t := Step(s, es[0]).q;
      StepBalanced(s, es[0]);
      StepKeeps(s, es[0]);
      ReportsDelivered(t, es[1..]);
      OrderChain(s.deleting, ToReport(s, es[0]), DeliveredBy(Step(s, es[0]).out), t.deleting,
                 AllReports(t, es[1..]), AllDelivered(t, es[1..]), Run(s, es).deleting);
    }
  }

  /** In listener mode a release loses the pending reports, its own included, exactly when the
      hand-out that follows it is answered for some configuration, whether or not a buffer is
      handed out in the end. */
  lemma ListenerReleaseLosesReports(s: Queue, q: SeqNum)
    requires Inv(s) && s.opts.handOut && Release(s, q).out.Returned?
    ensures var m := ReleaseLocked(s, q).q;
            && DeliveredBy(Release(s, q).out) == []
            && Release(s, q).q.deleting == if Drops(m) then [] else m.deleting
  {
    ReleaseEffect(s, q);
  }
}
