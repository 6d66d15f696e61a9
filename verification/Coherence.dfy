/** When a bare number in a reply is enough: each buffer of the queue is held by the producer or
    will be sent to it. Each step keeps this exactly under a condition that can be checked before
    the call, and most steps keep it always. */
module Coherence {
  import opened Lists
  import opened QueueModel
  import opened Partition
  import opened Requests
  import opened Shrink
  import opened HandOuts
  import opened FrameOrder
  import opened Protocols
  import opened Entries
  import opened CacheProtocol

  /** The next grant of `q` will carry the buffer. */
  predicate MustSend(s: Queue, q: SeqNum)
    requires q in s.cache
  {
    (s.cacheClean && q !in s.resent) || s.cache[q].buffer.consumerAttach || s.cache[q].preAlloc
  }

  /** The producer holds `q` or will be sent it. */
  predicate Covered(s: Queue, c: Cache, q: SeqNum)
    requires q in s.cache
  {
    q in c || MustSend(s, q)
  }

  ghost predicate Coherent(s: Queue, c: Cache) { forall q :: q in s.cache ==> Covered(s, c, q) }

  ghost predicate Link(y: System) { Inv(y.s) && NoStale(y.s, y.c) && Coherent(y.s, y.c) }

  // ---- the exact conditions ----

  /** A reply delivers no deletion report of a buffer that is in the queue again, unless that
      buffer will still be sent. */
  ghost predicate GrantSafe(s: Queue, e: Event)
    requires Enabled(s, e)
  {
    match Step(s, e).out
    case Granted(id, _, _) =>
      forall q :: q in s.deleting ==>
        if q != id then q in s.cache ==> MustSend(s, q)
        else e.EvFinishAlloc? && e.num in s.pending && !s.pending[e.num].realloc && s.cacheClean && id !in s.resent
    case _ => true
  }

  /** The entries that make room for a buffer attached with AttachBuffer. */
  function Evicted(s: Queue, b: Buffer): seq<SeqNum> {
    var over := Used(s) - s.size + 1;
    if b.id in s.cache || over <= 0 then [] else Both(s)[..Found(s, over)]
  }

  /** The producer's cache has room for the buffer it attaches, or knows it; otherwise it is emptied,
      and everything that stays in the queue must be about to be sent. */
  ghost predicate ProducerAttachSafe(y: System, b: Buffer) {
    b.id in y.c || |y.c| < y.s.size || forall q :: q in y.s.cache && q != b.id && q !in Evicted(y.s, b) ==> MustSend(y.s, q)
  }

  /** A buffer attached behind the producer's back is one it knows, or will be sent. */
  predicate ConsumerAttachSafe(y: System, b: Buffer) {
    b.id in y.s.cache || b.id in y.c || b.consumerAttach || (y.s.cacheClean && b.id !in y.s.resent)
  }

  /** The attach flag that a refused detach clears was not the only reason to send the buffer. */
  predicate RefusedDetachSafe(y: System, q: SeqNum)
    requires q in y.s.cache
  {
    q in y.c || y.s.cache[q].preAlloc || (y.s.cacheClean && q !in y.s.resent)
  }

  /** Every buffer the producer lacks has a reason of its own to be sent. */
  ghost predicate LoweredFlagSafe(y: System) {
    forall q :: q in y.s.cache && q !in y.c ==> y.s.cache[q].buffer.consumerAttach || y.s.cache[q].preAlloc
  }

  /** The same at the end of a grant that waited to lower the flag, which also clears the marks of
      the buffer it granted. */
  ghost predicate LateLoweringSafe(y: System, q: SeqNum) {
    forall x :: x in y.s.cache && x !in y.c ==> x != q && (y.s.cache[x].buffer.consumerAttach || y.s.cache[x].preAlloc)
  }

  /** The producer empties its cache although the queue is never asked; all it had must be sent again. */
  ghost predicate TurnedAwaySafe(y: System) { forall q :: q in y.s.cache ==> MustSend(y.s, q) }

  /** What a call has to meet for the caches to stay coherent. */
  ghost predicate KeepsCoherent(y: System, m: Move)
    requires Enabled(y.s, m.event)
  {
    match m.event
    case EvAttachBuffer(b) =>
      AttachBuffer(y.s, b).out.Done? ==> if m.byProducer then ProducerAttachSafe(y, b) else ConsumerAttachSafe(y, b)
    case EvConsumerDetach(q, _) => q in y.s.cache && y.s.cache[q].state != Acquired ==> RefusedDetachSafe(y, q)
    case EvSetCleanFlag(flag) => !flag ==> LoweredFlagSafe(y)
    case EvLowerFlag(q) => LateLoweringSafe(y, q)
    case EvTurnedAway => TurnedAwaySafe(y)
    case _ => GrantSafe(y.s, m.event)
  }

  // ---- grants ----

  /** A bare number in a reply names a buffer the producer holds. */
  lemma BareGrantHeld(y: System, m: Move)
    requires Inv(y.s) && Coherent(y.s, y.c) && Enabled(y.s, m.event)
    requires Step(y.s, m.event).out.Granted? && Step(y.s, m.event).out.buffer.None?
    ensures var id := Step(y.s, m.event).out.id; id in y.s.cache && id in y.c && !NeedsResend(y.s, id)
    ensures NoStale(y.s, y.c) ==> y.c[Step(y.s, m.event).out.id].token == y.s.cache[Step(y.s, m.event).out.id].buffer.token
  {
    GrantedBuffer(y.s, m.event);
    if Requesting(m.event) {
      var q := RequestingEffect(y.s, m.event);
    } else {
      FinishEffect(y.s, m.event.num, m.event.ok, m.event.token);
    }
  }

  /** An id handed to the listener is one the producer holds. */
  lemma HandedHeld(y: System, x: SeqNum)
    requires Link(y) && Release(y.s, x).out.Returned?
    ensures forall q :: q in Release(y.s, x).out.handed ==> q in y.c && q in y.s.cache && y.c[q].token == y.s.cache[q].buffer.token
  {
    ReleaseEffect(y.s, x);
    var n, r := ReleaseLocked(y.s, x).q, Release(y.s, x);
    forall q | q in r.out.handed ensures q in y.c && q in y.s.cache && y.c[q].token == y.s.cache[q].buffer.token {
      assert HandedEntry(n, r.q, q);
      assert Kept(y.s, n, q);
    }
  }

  lemma GrantKeys(y: System, m: Move)
    requires Inv(y.s) && Coherent(y.s, y.c) && Enabled(y.s, m.event) && Step(y.s, m.event).out.Granted?
    ensures var r := Step(y.s, m.event);
            forall q :: q in Advance(y, m).c <==> (q in y.c || q == r.out.id) && q !in r.out.deleting
  {
    if Step(y.s, m.event).out.buffer.None? { BareGrantHeld(y, m); }
  }

  /** What a grant does to the reasons for sending. */
  lemma GrantReasons(s: Queue, e: Event)
    requires Inv(s) && Enabled(s, e) && Step(s, e).out.Granted?
    ensures var r := Step(s, e);
            var id := r.out.id;
            && r.out.deleting == s.deleting && id in r.q.cache
            && (forall q :: q != id ==> (q in r.q.cache <==> q in s.cache))
            && (forall q :: q in r.q.cache && q != id ==> (MustSend(r.q, q) <==> MustSend(s, q)))
            && (MustSend(r.q, id) <==> e.EvFinishAlloc? && e.num in s.pending && !s.pending[e.num].realloc && s.cacheClean && id !in s.resent)
  {
    GrantedBuffer(s, e);
    if Requesting(e) {
      RequestReasons(s, e);
    } else {
      FinishEffect(s, e.num, e.ok, e.token);
    }
  }

  lemma RequestReasons(s: Queue, e: Event)
    requires Inv(s) && Enabled(s, e) && Requesting(e) && Step(s, e).out.Granted?
    ensures var r := Step(s, e);
            var id := r.out.id;
            && r.out.deleting == s.deleting && id in r.q.cache && r.q.cache.Keys == s.cache.Keys && !MustSend(r.q, id)
            && (forall q :: q in r.q.cache && q != id ==> (MustSend(r.q, q) <==> MustSend(s, q)))
  {
    var x := RequestingEffect(s, e);
    var r := Step(s, e);
    forall q | q in r.q.cache && q != r.out.id ensures MustSend(r.q, q) <==> MustSend(s, q) {
      assert r.q.cache[q] == s.cache[q];
    }
  }

  lemma GrantExact(y: System, m: Move)
    requires Inv(y.s) && Coherent(y.s, y.c) && Enabled(y.s, m.event) && Step(y.s, m.event).out.Granted?
    ensures Coherent(Advance(y, m).s, Advance(y, m).c) <==> GrantSafe(y.s, m.event)
  {
    var s, t, c, id := y.s, Advance(y, m).s, Advance(y, m).c, Step(y.s, m.event).out.id;
    GrantKeys(y, m);
    GrantReasons(s, m.event);
    if GrantSafe(s, m.event) {
      forall q | q in t.cache ensures Covered(t, c, q) { assert q != id ==> Covered(s, y.c, q); }
    } else {
      var q :| q in s.deleting && !(if q != id then q in s.cache ==> MustSend(s, q) else MustSend(t, id));
      assert q in t.cache && !Covered(t, c, q);
    }
  }

  /** As long as no number comes back before its deletion was delivered (Entries.StepTidy), the
      condition of a grant holds by itself. */
  lemma TidyGrantSafe(s: Queue, e: Event)
    requires Inv(s) && Enabled(s, e) && Tidy(s) && Step(s, e).out.Granted?
    ensures GrantSafe(s, e)
  {
    GrantedKnown(s, e);
  }

  /** A granted number is one the queue has, or is about to make. */
  lemma GrantedKnown(s: Queue, e: Event)
    requires Inv(s) && Enabled(s, e) && Step(s, e).out.Granted?
    ensures Step(s, e).out.id in s.cache || Step(s, e).out.id in s.pending
  {
    GrantedBuffer(s, e);
    if Requesting(e) {
      var x := RequestingEffect(s, e);
    } else {
      FinishEffect(s, e.num, e.ok, e.token);
    }
  }

  // ---- AttachBuffer ----

  lemma EvictedGone(s: Queue, b: Buffer)
    requires Inv(s) && AttachBuffer(s, b).out.Done?
    ensures forall q :: q != b.id ==> (q in AttachBuffer(s, b).q.cache <==> q in s.cache && q !in Evicted(s, b))
  {
    var over := Used(s) - s.size + 1;
    if b.id !in s.cache {
      NewAttached(s, b, over);
      if over > 0 { ShrinkKeys(s, over); }
    }
  }

  lemma AttachReasons(s: Queue, b: Buffer)
    requires Inv(s) && AttachBuffer(s, b).out.Done?
    ensures var t := AttachBuffer(s, b).q;
            && b.id in t.cache && t.size == s.size
            && (forall q :: q in t.cache && q != b.id ==> q in s.cache && (MustSend(t, q) <==> MustSend(s, q)))
            && (MustSend(t, b.id) <==> if b.id in s.cache then MustSend(s, b.id) else b.consumerAttach || (s.cacheClean && b.id !in s.resent))
  {
    AttachBufferPuts(s, b);
    AttachBufferQuiet(s, b);
    AttachBufferLocal(s, b);
    var t := AttachBuffer(s, b).q;
    forall q | q in t.cache && q != b.id ensures q in s.cache && (MustSend(t, q) <==> MustSend(s, q)) { assert Kept(s, t, q); }
  }

  lemma AttachExact(y: System, m: Move, b: Buffer)
    requires Inv(y.s) && Coherent(y.s, y.c) && Enabled(y.s, m.event) && m.event == EvAttachBuffer(b) && AttachBuffer(y.s, b).out.Done?
    ensures Coherent(Advance(y, m).s, Advance(y, m).c) <==> if m.byProducer then ProducerAttachSafe(y, b) else ConsumerAttachSafe(y, b)
  {
    AttachReasons(y.s, b);
    EvictedGone(y.s, b);
    if m.byProducer { ProducerAttachExact(y, m, b); } else { ConsumerAttachExact(y, m, b); }
  }

  lemma ProducerAttachExact(y: System, m: Move, b: Buffer)
    requires Coherent(y.s, y.c) && Enabled(y.s, m.event) && m.event == EvAttachBuffer(b) && m.byProducer
    requires var t := AttachBuffer(y.s, b).q;
             && AttachBuffer(y.s, b).out.Done? && t.size == y.s.size
             && (forall q :: q != b.id ==> (q in t.cache <==> q in y.s.cache && q !in Evicted(y.s, b)))
             && (forall q :: q in t.cache && q != b.id ==> q in y.s.cache && (MustSend(t, q) <==> MustSend(y.s, q)))
    ensures Coherent(Advance(y, m).s, Advance(y, m).c) <==> ProducerAttachSafe(y, b)
  {
    var s, t, c := y.s, Advance(y, m).s, Advance(y, m).c;
    assert c == AddAttached(y.c, b, s.size) && b.id in c;
    if ProducerAttachSafe(y, b) {
      forall q | q in t.cache ensures Covered(t, c, q) { assert q != b.id ==> Covered(s, y.c, q); }
    } else {
      var q :| q in s.cache && q != b.id && q !in Evicted(s, b) && !MustSend(s, q);
      assert q in t.cache && !Covered(t, c, q);
    }
  }

  lemma ConsumerAttachExact(y: System, m: Move, b: Buffer)
    requires Coherent(y.s, y.c) && Enabled(y.s, m.event) && m.event == EvAttachBuffer(b) && !m.byProducer
    requires var t := AttachBuffer(y.s, b).q;
             && AttachBuffer(y.s, b).out.Done? && b.id in t.cache
             && (forall q :: q in t.cache && q != b.id ==> q in y.s.cache && (MustSend(t, q) <==> MustSend(y.s, q)))
             && (MustSend(t, b.id) <==> if b.id in y.s.cache then MustSend(y.s, b.id)
                                        else b.consumerAttach || (y.s.cacheClean && b.id !in y.s.resent))
    ensures Coherent(Advance(y, m).s, Advance(y, m).c) <==> ConsumerAttachSafe(y, b)
  {
    var s, t, c := y.s, Advance(y, m).s, Advance(y, m).c;
    assert c == y.c;
    if ConsumerAttachSafe(y, b) {
      forall q | q in t.cache ensures Covered(t, c, q) { assert q in s.cache ==> Covered(s, y.c, q); }
    } else {
      assert !Covered(t, c, b.id);
    }
  }

  // ---- the consumer's detach and the clean flag ----

  /** A detach that the queue refuses has already cleared the attach flag of the buffer. */
  lemma RefusedDetachExact(y: System, q: SeqNum, reserve: bool, m: Move)
    requires Coherent(y.s, y.c) && m.event == EvConsumerDetach(q, reserve) && Enabled(y.s, m.event)
    requires q in y.s.cache && y.s.cache[q].state != Acquired
    ensures Coherent(Advance(y, m).s, Advance(y, m).c) <==> RefusedDetachSafe(y, q)
  {
    var s, t, c := y.s, Advance(y, m).s, Advance(y, m).c;
    assert c == y.c && q in t.cache;
    if RefusedDetachSafe(y, q) {
      forall x | x in t.cache ensures Covered(t, c, x) {
        assert Covered(s, y.c, x);
        assert x != q ==> t.cache[x] == s.cache[x];
      }
    } else {
      assert !Covered(t, c, q);
    }
  }

  lemma LoweredFlagExact(y: System, m: Move)
    requires Coherent(y.s, y.c) && m.event == EvSetCleanFlag(false) && Enabled(y.s, m.event)
    ensures Coherent(Advance(y, m).s, Advance(y, m).c) <==> LoweredFlagSafe(y)
  {
    var s, t, c := y.s, Advance(y, m).s, Advance(y, m).c;
    assert c == y.c && t.cache == s.cache && !t.cacheClean;
    if LoweredFlagSafe(y) {
      forall q | q in t.cache ensures Covered(t, c, q) {}
    } else {
      var q :| q in s.cache && q !in y.c && !(s.cache[q].buffer.consumerAttach || s.cache[q].preAlloc);
      assert !Covered(t, c, q);
    }
  }

  lemma LateLoweringExact(y: System, m: Move, q: SeqNum)
    requires Coherent(y.s, y.c) && m.event == EvLowerFlag(q) && Enabled(y.s, m.event)
    ensures Coherent(Advance(y, m).s, Advance(y, m).c) <==> LateLoweringSafe(y, q)
  {
    var s, t, c := y.s, Advance(y, m).s, Advance(y, m).c;
    assert c == y.c && t.cache.Keys == s.cache.Keys && !t.cacheClean;
    if LateLoweringSafe(y, q) {
      forall x | x in t.cache ensures Covered(t, c, x) {}
    } else {
      var x :| x in s.cache && x !in y.c && !(x != q && (s.cache[x].buffer.consumerAttach || s.cache[x].preAlloc));
      assert !Covered(t, c, x);
    }
  }

  lemma TurnedAwayExact(y: System, m: Move)
    requires m.event.EvTurnedAway? && Enabled(y.s, m.event)
    ensures Coherent(Advance(y, m).s, Advance(y, m).c) <==> TurnedAwaySafe(y)
  {
    var s, c := y.s, Advance(y, m).c;
    assert Advance(y, m).s == s && c == map[];
    if TurnedAwaySafe(y) {
      forall q | q in s.cache ensures Covered(s, c, q) {}
    } else {
      var q :| q in s.cache && !MustSend(s, q);
      assert !Covered(s, c, q);
    }
  }

  // ---- steps that always keep the caches coherent ----

  /** Not a grant, and none of the calls with a condition. */
  predicate Harmless(s: Queue, e: Event)
    requires Enabled(s, e)
  {
    match e
    case EvAttachBuffer(b) => !AttachBuffer(s, b).out.Done?
    case EvConsumerDetach(q, _) => q in s.cache ==> s.cache[q].state == Acquired
    case EvSetCleanFlag(flag) => flag
    case EvLowerFlag(_) => false
    case EvTurnedAway => false
    case _ => !Step(s, e).out.Granted?
  }

  /** An id the producer held and the queue still has stays in the producer's cache. */
  lemma ReactKeeps(y: System, m: Move, q: SeqNum)
    requires Enabled(y.s, m.event) && Harmless(y.s, m.event) && Bystander(m.event)
    requires q in y.c && q in Advance(y, m).s.cache
    ensures q in Advance(y, m).c
  {
    OthersGrantNothing(y.s, m.event);
    match m.event {
      case EvAttachBuffer(b) => AttachBufferPuts(y.s, b);
      case EvCleanReleased => CleanKeepsKey(y, m, q);
      case EvProducerDetach(x) => RemovalKeepsKey(y, m, q);
      case EvClear => RemovalKeepsKey(y, m, q);
      case _ => OnlyRemovals(y.s, m);
    }
  }

  lemma RemovalKeepsKey(y: System, m: Move, q: SeqNum)
    requires Enabled(y.s, m.event) && (m.event.EvProducerDetach? || m.event.EvClear?)
    requires q in y.c && q in Advance(y, m).s.cache
    ensures q in Advance(y, m).c
  {
  }

  lemma CleanKeepsKey(y: System, m: Move, q: SeqNum)
    requires m.event.EvCleanReleased? && q in y.c && q in CleanReleased(y.s).q.cache
    ensures q in React(y.c, m, CleanReleased(y.s))
  {
  }

  lemma OnlyRemovals(s: Queue, m: Move)
    requires Enabled(s, m.event) && Bystander(m.event) && !m.event.EvCleanReleased?
    ensures !Step(s, m.event).out.Cleaned?
  {
    if m.event.EvPreAlloc? { PreAllocOut(s, m.event.config, m.event.ready); }
  }

  /** Buffers that enter the queue in a harmless step are held by the producer, or will be sent. */
  lemma NewcomerCovered(y: System, m: Move, q: SeqNum)
    requires Coherent(y.s, y.c) && Enabled(y.s, m.event) && Harmless(y.s, m.event) && Bystander(m.event)
    requires q in Newcomers(m.event) && q in Advance(y, m).s.cache
    ensures Covered(Advance(y, m).s, Advance(y, m).c, q)
  {
    match m.event {
      case EvProducerAttach(b) => AttachCovered(y, m, b);
      case EvAttachAndFlush(b, f) => AttachCovered(y, m, b);
      case EvConsumerAttach(b) => AttachCovered(y, m, b);
      case EvAttachBuffer(b) => AttachBufferPuts(y.s, b);
      case EvConsumerDetach(x, z) => ConsumerDetachToken(y.s, x, z);
      case EvPreAlloc(c, ready) => PreAllocCovered(y, m, q);
      case _ =>
    }
  }

  lemma AttachCovered(y: System, m: Move, b: Buffer)
    requires Coherent(y.s, y.c) && Enabled(y.s, m.event) && b.id in Advance(y, m).s.cache
    requires m.event == EvProducerAttach(b) || m.event == EvConsumerAttach(b) || (m.event.EvAttachAndFlush? && m.event.buffer == b)
    ensures Covered(Advance(y, m).s, Advance(y, m).c, b.id)
  {
    match m.event {
      case EvProducerAttach(_) => AttachPuts(y.s, b, Frame(0, 0, 0, true, true));
      case EvAttachAndFlush(_, f) => AttachPuts(y.s, b, f);
      case EvConsumerAttach(_) => AttachPuts(y.s, b, Frame(0, 0, 0, true, true));
    }
    if b.id in y.s.cache { assert Covered(y.s, y.c, b.id); }
  }

  lemma PreAllocCovered(y: System, m: Move, q: SeqNum)
    requires Enabled(y.s, m.event) && m.event.EvPreAlloc? && q in Ids(m.event.ready) && q in Advance(y, m).s.cache
    ensures MustSend(Advance(y, m).s, q)
  {
    IdsMembers(m.event.ready, q);
    PreAllocPuts(y.s, m.event.config, m.event.ready, q);
  }

  lemma BystanderCoherent(y: System, m: Move)
    requires Inv(y.s) && Coherent(y.s, y.c) && Enabled(y.s, m.event) && Harmless(y.s, m.event) && Bystander(m.event)
    ensures Coherent(Advance(y, m).s, Advance(y, m).c)
  {
    var s, e, t, c := y.s, m.event, Advance(y, m).s, Advance(y, m).c;
    BystanderQuiet(s, e);
    StepLocal(s, e);
    forall q | q in t.cache ensures Covered(t, c, q) {
      if q in Special(s, e) {
        NewcomerCovered(y, m, q);
      } else {
        assert Kept(s, t, q) && Covered(s, y.c, q);
        if q in y.c { ReactKeeps(y, m, q); }
      }
    }
  }

  lemma RefusedCoherent(y: System, m: Move)
    requires Inv(y.s) && Coherent(y.s, y.c) && Enabled(y.s, m.event) && Requesting(m.event) && !Step(y.s, m.event).out.Granted?
    ensures Coherent(Advance(y, m).s, Advance(y, m).c)
  {
    var q := RequestingEffect(y.s, m.event);
    forall x | x in Advance(y, m).s.cache ensures Covered(Advance(y, m).s, Advance(y, m).c, x) { assert Covered(y.s, y.c, x); }
  }

  lemma ControlCoherent(y: System, m: Move)
    requires Coherent(y.s, y.c) && Enabled(y.s, m.event) && !Step(y.s, m.event).out.Granted?
    requires m.event.EvFinishAlloc? || m.event == EvSetCleanFlag(true) || m.event.EvLock? || m.event.EvUnlock? || m.event.EvConfigure?
    ensures Coherent(Advance(y, m).s, Advance(y, m).c)
  {
    if m.event.EvFinishAlloc? { FinishEffect(y.s, m.event.num, m.event.ok, m.event.token); }
    var t, c := Advance(y, m).s, Advance(y, m).c;
    forall q | q in t.cache ensures Covered(t, c, q) { assert Covered(y.s, y.c, q); }
  }

  lemma HarmlessCoherent(y: System, m: Move)
    requires Inv(y.s) && Coherent(y.s, y.c) && Enabled(y.s, m.event) && Harmless(y.s, m.event)
    ensures Coherent(Advance(y, m).s, Advance(y, m).c)
  {
    if Bystander(m.event) {
      BystanderCoherent(y, m);
    } else if Requesting(m.event) {
      RefusedCoherent(y, m);
    } else {
      ControlCoherent(y, m);
    }
  }

  // ---- the theorem ----

  /** From coherent caches a step leads to coherent caches if and only if its condition holds. */
  lemma StepCoherentExact(y: System, m: Move)
    requires Inv(y.s) && Coherent(y.s, y.c) && Enabled(y.s, m.event)
    ensures Coherent(Advance(y, m).s, Advance(y, m).c) <==> KeepsCoherent(y, m)
  {
    if Harmless(y.s, m.event) {
      HarmlessCoherent(y, m);
    } else {
      match m.event {
        case EvAttachBuffer(b) => AttachExact(y, m, b);
        case EvConsumerDetach(q, r) => RefusedDetachExact(y, q, r, m);
        case EvSetCleanFlag(_) => LoweredFlagExact(y, m);
        case EvLowerFlag(q) => LateLoweringExact(y, m, q);
        case EvTurnedAway => TurnedAwayExact(y, m);
        case _ => GrantExact(y, m);
      }
    }
  }

  lemma StepLink(y: System, m: Move)
    requires Link(y) && Enabled(y.s, m.event) && OneName(y, m.event) && KeepsCoherent(y, m)
    ensures Link(Advance(y, m))
  {
    StepKeeps(y.s, m.event);
    StepNoStale(y, m);
    StepCoherentExact(y, m);
  }

  // ---- whole runs ----

  ghost predicate AllKeepCoherent(y: System, ms: seq<Move>)
    requires CanAdvance(y, ms)
    decreases |ms|
  {
    ms == [] || (KeepsCoherent(y, ms[0]) && AllKeepCoherent(Advance(y, ms[0]), ms[1..]))
  }

  /** The caches are coherent before and after each step of the run. */
  ghost predicate AlwaysCoherent(y: System, ms: seq<Move>)
    requires CanAdvance(y, ms)
    decreases |ms|
  {
    Coherent(y.s, y.c) && (ms == [] || AlwaysCoherent(Advance(y, ms[0]), ms[1..]))
  }

  /** A run from coherent caches is coherent throughout if and only if each call meets its condition. */
  lemma {:induction false} RunCoherentExact(y: System, ms: seq<Move>)
    requires Inv(y.s) && Coherent(y.s, y.c) && CanAdvance(y, ms)
    ensures AlwaysCoherent(y, ms) <==> AllKeepCoherent(y, ms)
    decreases |ms|
  {
    if ms != [] {
      StepKeeps(y.s, ms[0].event);
      StepCoherentExact(y, ms[0]);
      if KeepsCoherent(y, ms[0]) { RunCoherentExact(Advance(y, ms[0]), ms[1..]); }
    }
  }

  /** In every such run in which a number names one buffer the two parties stay linked, so by
      BareGrantHeld and HandedHeld no synchronisation is ever needed. */
  lemma {:induction false} RunCoherent(y: System, ms: seq<Move>)
    requires Link(y) && CanAdvance(y, ms) && AllOneName(y, ms) && AllKeepCoherent(y, ms)
    ensures Link(AdvanceAll(y, ms))
    decreases |ms|
  {
    if ms != [] {
      StepLink(y, ms[0]);
      RunCoherent(Advance(y, ms[0]), ms[1..]);
    }
  }

  lemma StartsLinked(opts: Settings)
    ensures Link(System(Initial(opts), map[]))
  {
  }

  // ---- RequestAndDetachBuffer ----

  /** The client's half of RequestAndDetachBuffer does to its cache what the reply to a request
      followed by a detach does, without the synchronisation. */
  lemma UpdateIsAddThenDetach(c: Cache, id: SeqNum, b: Option<Buffer>, gone: seq<SeqNum>)
    ensures UpdateCache(c, id, b, gone).cache == AddCache(c, id, b, gone, None).cache - {id}
    ensures UpdateCache(c, id, b, gone).buffer == AddCache(c, id, b, gone, None).buffer
  {
    var u, a := UpdateCache(c, id, b, gone).cache, AddCache(c, id, b, gone, None).cache - {id};
    assert u == a;
  }

  /** RequestAndDetachBuffer is a request and a producer detach of what it was given, one right
      after the other; from linked caches it needs no synchronisation and ends with the queue's
      buffer in the caller's hands, and the buffer is then in neither cache. */
  lemma RequestDetachResolves(y: System, e: Event)
    requires Link(y) && Enabled(y.s, e) && Step(y.s, e).out.Granted?
    ensures var r := Step(y.s, e);
            var id := r.out.id;
            var u := UpdateCache(y.c, id, r.out.buffer, r.out.deleting);
            var y1 := Advance(y, Move(e, true, false));
            && Enabled(y1.s, EvProducerDetach(id))
            && Advance(y1, Move(EvProducerDetach(id), true, false)) == System(Erase(r.q, id), u.cache)
            && id !in Erase(r.q, id).cache && id !in u.cache
            && u.buffer.Some? && id in r.q.cache && u.buffer.value.token == r.q.cache[id].buffer.token
  {
    var r := Step(y.s, e);
    UpdateIsAddThenDetach(y.c, r.out.id, r.out.buffer, r.out.deleting);
    GrantedBuffer(y.s, e);
    if r.out.buffer.None? { BareGrantHeld(y, Move(e, true, false)); }
    if Requesting(e) {
      var q := RequestingEffect(y.s, e);
    } else {
      FinishEffect(y.s, e.num, e.ok, e.token);
    }
  }

  /** So it keeps the two parties linked under the conditions of the request alone. */
  lemma RequestDetachLinked(y: System, e: Event)
    requires Link(y) && Enabled(y.s, e) && Step(y.s, e).out.Granted? && OneName(y, e) && KeepsCoherent(y, Move(e, true, false))
    ensures var r := Step(y.s, e);
            Link(System(Erase(r.q, r.out.id), UpdateCache(y.c, r.out.id, r.out.buffer, r.out.deleting).cache))
  {
    RequestDetachResolves(y, e);
    var id, y1 := Step(y.s, e).out.id, Advance(y, Move(e, true, false));
    StepLink(y, Move(e, true, false));
    StepLink(y1, Move(EvProducerDetach(id), true, false));
  }
}
