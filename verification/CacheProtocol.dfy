/** The producer's buffer cache and the queue as two parties of one protocol. The queue answers
    with a bare number when it believes the producer holds the buffer. */
module CacheProtocol {
  import opened Lists
  import opened QueueModel
  import opened Partition
  import opened Requests
  import opened Shrink
  import opened HandOuts
  import opened FrameOrder
  import opened Protocols
  import opened Deletions
  import opened Entries

  type Cache = map<SeqNum, Buffer>

  // ---- the producer's side ----

  /** DeleteCacheBufferLocked. */
  function DeleteGone(c: Cache, gone: seq<SeqNum>): Cache { c - Elems(gone) }

  /** BufferQueue::SyncProducerCache. */
  function SyncReply(s: Queue): Cache { map q | q in s.cache :: s.cache[q].buffer }

  datatype Added = Added(cache: Cache, buffer: Option<Buffer>)

  /** AddCacheLocked for the reply to a request; `sync` is what SyncProducerCache answers. */
  function AddCache(c: Cache, id: SeqNum, b: Option<Buffer>, gone: seq<SeqNum>, sync: Option<Cache>): Added {
    if b.Some? then Added(DeleteGone(c[id := b.value], gone), b)
    else if id in c then Added(DeleteGone(c, gone), Some(c[id]))
    else if sync.None? then Added(DeleteGone(c, gone), None)
    else
      var c1 := c + sync.value;
      Added(DeleteGone(c1, gone), if id in c1 then Some(c1[id]) else None)
  }

  /** UpdateCacheLocked, for a request that also detaches. */
  function UpdateCache(c: Cache, id: SeqNum, b: Option<Buffer>, gone: seq<SeqNum>): Added {
    if b.None? && id !in c then Added(DeleteGone(c, gone), None)
    else Added(DeleteGone(c - {id}, gone), if b.Some? then b else Some(c[id]))
  }

  /** AddCacheLocked for a buffer the producer attached. */
  function AddAttached(c: Cache, b: Buffer, queueSize: nat): Cache {
    if b.id in c then c else (if queueSize <= |c| then map[] else c)[b.id := b]
  }

  /** A buffer the producer attaches is in its cache afterwards, an older one under the same number
      stays, and nothing else is lost unless the cache is as large as the queue. */
  lemma AddAttachedExact(c: Cache, b: Buffer, queueSize: nat)
    ensures var d := AddAttached(c, b, queueSize);
            && b.id in d && d[b.id] == (if b.id in c then c[b.id] else b)
            && (forall q :: q != b.id ==> (q in d <==> q in c && (b.id in c || |c| < queueSize)))
            && (forall q :: q != b.id && q in d ==> d[q] == c[q])
  {
  }

  /** The producer asks for the queue's cache if and only if it got a bare number it does not know. */
  predicate Lacks(c: Cache, id: SeqNum, b: Option<Buffer>) { b.None? && id !in c }

  /** After a reply the producer has what it had, the buffer that came with it and, if it had to ask,
      all the queue has, which then wins; without what the reply reports as deleted, in every case. */
  lemma AddCacheExact(c: Cache, id: SeqNum, b: Option<Buffer>, gone: seq<SeqNum>, sync: Option<Cache>)
    ensures var r := AddCache(c, id, b, gone, sync);
            && (forall q :: q in r.cache <==> q !in gone && (q in c || (b.Some? && q == id) || (Lacks(c, id, b) && sync.Some? && q in sync.value)))
            && (forall q :: q in r.cache ==> r.cache[q] == if b.Some? && q == id then b.value
                                                           else if Lacks(c, id, b) && sync.Some? && q in sync.value then sync.value[q] else c[q])
            && r.buffer == if b.Some? then b else if id in c then Some(c[id])
                           else if sync.Some? && id in sync.value then Some(sync.value[id]) else None
  {
  }

  /** A request that also detaches leaves nothing of its buffer behind and asks for nothing. */
  lemma UpdateCacheExact(c: Cache, id: SeqNum, b: Option<Buffer>, gone: seq<SeqNum>)
    ensures var r := UpdateCache(c, id, b, gone);
            && (forall q :: q in r.cache <==> q in c && q != id && q !in gone)
            && (forall q :: q in r.cache ==> r.cache[q] == c[q])
            && r.buffer == if b.Some? then b else if id in c then Some(c[id]) else None
  {
  }

  // ---- the two parties together ----

  /** A step of the queue and who asked for it; `syncOk` says whether a cache
      synchronisation that turns out to be needed succeeds. */
  datatype Move = Move(event: Event, byProducer: bool, syncOk: bool)

  datatype System = System(s: Queue, c: Cache)

  /** What the producer does when the call behind the event returns. */
  function React(c: Cache, m: Move, r: Next): Cache {
    match r.out
    case Granted(id, b, gone) => AddCache(c, id, b, gone, if m.syncOk then Some(SyncReply(r.q)) else None).cache
    case Cleaned(gone) => DeleteGone(c, gone)
    case Done =>
      (match m.event
       case EvProducerAttach(b) => if b.id in c then c else c[b.id := b]
       case EvAttachAndFlush(b, _) => if b.id in c then c else c[b.id := b]
       case EvProducerDetach(q) => c - {q}
       case EvAttachBuffer(b) => if m.byProducer then AddAttached(c, b, r.q.size) else c
       case EvClear => if m.byProducer then map[] else c
       case EvSetCleanFlag(flag) => if flag then map[] else c
       case _ => c)
    case Failed(_) => if m.event.EvTurnedAway? then map[] else c
    case _ => c
  }

  function Advance(y: System, m: Move): System
    requires Enabled(y.s, m.event)
  {
    var r := Step(y.s, m.event);
    System(r.q, React(y.c, m, r))
  }

  // ---- no stale buffers: the fallback always ends with the queue's buffer ----

  /** What both sides hold under one number is one buffer. */
  ghost predicate NoStale(s: Queue, c: Cache) {
    forall q :: q in s.cache && q in c ==> c[q].token == s.cache[q].buffer.token
  }

  predicate Consistent(c: Cache, q: SeqNum, token: nat) { q in c ==> c[q].token == token }

  /** A buffer enters the queue under a number by which the producer knows no other buffer. */
  predicate OneName(y: System, e: Event) {
    match e
    case EvProducerAttach(b) => Consistent(y.c, b.id, b.token)
    case EvAttachAndFlush(b, _) => Consistent(y.c, b.id, b.token)
    case EvConsumerAttach(b) => Consistent(y.c, b.id, b.token)
    case EvAttachBuffer(b) => Consistent(y.c, b.id, b.token) && (b.id in y.s.cache ==> y.s.cache[b.id].buffer.token == b.token)
    case EvPreAlloc(_, ready) => forall i :: 0 <= i < |ready| ==> Consistent(y.c, ready[i].id, ready[i].token)
    case _ => true
  }

  /** What a reply with a buffer, or a synchronisation, can put into the producer's cache. */
  lemma AddCacheFacts(c: Cache, id: SeqNum, b: Option<Buffer>, gone: seq<SeqNum>, sync: Option<Cache>)
    ensures var r := AddCache(c, id, b, gone, sync);
            forall q :: q in r.cache ==>
              && q !in gone
              && if b.Some? && q == id then r.cache[q] == b.value
                 else (q in c && r.cache[q] == c[q]) || (sync.Some? && b.None? && q in sync.value && r.cache[q] == sync.value[q])
  {
  }

  /** Every entry of the producer's cache after a step was there before, or is the queue's own
      buffer of that number. */
  ghost predicate Sourced(c: Cache, t: Queue, c': Cache) {
    forall q :: q in c' ==> (q in c && c'[q] == c[q]) || (q in t.cache && c'[q].token == t.cache[q].buffer.token)
  }

  lemma ReactSourced(y: System, m: Move)
    requires Inv(y.s) && Enabled(y.s, m.event) && OneName(y, m.event)
    ensures Sourced(y.c, Advance(y, m).s, Advance(y, m).c)
  {
    var r := Step(y.s, m.event);
    match r.out {
      case Granted(id, b, gone) =>
        GrantedBuffer(y.s, m.event);
        AddCacheFacts(y.c, id, b, gone, if m.syncOk then Some(SyncReply(r.q)) else None);
      case Done => AttachSourced(y, m);
      case _ =>
    }
  }

  /** A buffer that travels in a reply is the one in the cache. */
  lemma GrantedBuffer(s: Queue, e: Event)
    requires Inv(s) && Enabled(s, e) && Step(s, e).out.Granted?
    ensures Requesting(e) || e.EvFinishAlloc?
    ensures var r := Step(s, e);
            r.out.id in r.q.cache && (r.out.buffer.Some? ==> r.q.cache[r.out.id].buffer == r.out.buffer.value)
  {
    if Requesting(e) {
      var x := RequestingEffect(s, e);
    } else if e.EvFinishAlloc? {
      FinishEffect(s, e.num, e.ok, e.token);
    } else {
      OthersGrantNothing(s, e);
    }
  }

  lemma OthersGrantNothing(s: Queue, e: Event)
    requires Enabled(s, e) && !Requesting(e) && !e.EvFinishAlloc?
    ensures !Step(s, e).out.Granted?
  {
    if e.EvPreAlloc? { PreAllocOut(s, e.config, e.ready); }
  }

  // ---- what enters the queue ----

  predicate Entered(t: Queue, b: Buffer) {
    b.id in t.cache && t.cache[b.id].buffer == b && !t.cache[b.id].preAlloc
  }

  lemma AttachPuts(s: Queue, b: Buffer, f: Frame)
    ensures var r := AttachToQueue(s, b, Producer);
            if r.out.Failed? then r.q == s else b.id !in s.cache && Entered(r.q, b)
    ensures var r := AttachAndFlush(s, b, f);
            if r.out.Failed? then r.q == s else b.id !in s.cache && Entered(r.q, b)
    ensures var r := ConsumerAttach(s, b);
            if r.out.Failed? then r.q == Raised(s, b) else b.id !in s.cache && Entered(r.q, b.(consumerAttach := true))
  {
  }

  lemma AttachBufferPuts(s: Queue, b: Buffer)
    ensures var r := AttachBuffer(s, b);
            if r.out.Failed? then r.q == s
            else
              && b.id in r.q.cache
              && r.q.cache[b.id].buffer == (if b.id in s.cache then s.cache[b.id].buffer else b)
              && (if b.id in s.cache then Kept(s, r.q, b.id) else !r.q.cache[b.id].preAlloc)
              && r.q.size == s.size
  {
    DeleteQuiet(s, Used(s) - s.size + 1);
    if Used(s) - s.size + 1 > 0 { ShrinkFrame(s, Used(s) - s.size + 1); }
  }

  lemma {:induction false} PreAllocPuts(s: Queue, cfg: Config, ready: seq<Spare>, q: SeqNum)
    requires FreshAll(s, ready) && q in PreAllocInsert(s, cfg, ready).q.cache && q !in s.cache
    ensures var t := PreAllocInsert(s, cfg, ready).q;
            t.cache[q].preAlloc && exists i :: 0 <= i < |ready| && ready[i].id == q && ready[i].token == t.cache[q].buffer.token
    decreases |ready|
  {
    if ready != [] && Used(s) < Room(s) {
      var p := ready[0];
      var s1 := s.(cache := s.cache[p.id := PreAllocElement(p, cfg)], free := s.free + [p.id]);
      assert FreshAll(s1, ready[1..]) by {
        forall i | 0 <= i < |ready[1..]| ensures Fresh(s1, ready[1..][i].id) { assert Fresh(s, ready[i + 1].id); }
      }
      if q == p.id {
        PreAllocLocal(s1, cfg, ready[1..]);
        if q in Ids(ready[1..]) { IdsMembers(ready[1..], q); }
        assert Kept(s1, PreAllocInsert(s1, cfg, ready[1..]).q, q);
        assert ready[0].id == q;
      } else {
        PreAllocPuts(s1, cfg, ready[1..], q);
        var i :| 0 <= i < |ready[1..]| && ready[1..][i].id == q && ready[1..][i].token == PreAllocInsert(s1, cfg, ready[1..]).q.cache[q].buffer.token;
        assert ready[i + 1].id == q;
      }
    }
  }

  lemma ConsumerDetachToken(s: Queue, q: SeqNum, reserve: bool)
    requires q in ConsumerDetach(s, q, reserve).q.cache
    ensures var r := ConsumerDetach(s, q, reserve);
            && r.out.Failed? && q in s.cache && r.q.cache[q].buffer == s.cache[q].buffer.(consumerAttach := false)
            && r.q.cache[q].preAlloc == s.cache[q].preAlloc && s.cache[q].state != Acquired
  {
  }

  /** The special entries of a step agree with the producer's cache after it. */
  lemma SpecialAgrees(y: System, m: Move, q: SeqNum)
    requires Inv(y.s) && Enabled(y.s, m.event) && NoStale(y.s, y.c) && OneName(y, m.event)
    requires q in Special(y.s, m.event) && q in Advance(y, m).s.cache && q in Advance(y, m).c
    ensures Advance(y, m).c[q].token == Advance(y, m).s.cache[q].buffer.token
  {
    var s, e, r := y.s, m.event, Step(y.s, m.event);
    if Requesting(e) || e.EvFinishAlloc? {
      if e.EvFinishAlloc? { FinishEffect(s, e.num, e.ok, e.token); }
      if r.out.Granted? {
        GrantedBuffer(s, e);
        AddCacheFacts(y.c, r.out.id, r.out.buffer, r.out.deleting, if m.syncOk then Some(SyncReply(r.q)) else None);
      } else {
        assert e.EvFinishAlloc?;
      }
    } else {
      SpecialAttached(y, m, q);
    }
  }

  lemma SpecialAttached(y: System, m: Move, q: SeqNum)
    requires Inv(y.s) && Enabled(y.s, m.event) && NoStale(y.s, y.c) && OneName(y, m.event)
    requires !Requesting(m.event) && !m.event.EvFinishAlloc?
    requires q in Newcomers(m.event) && q in Advance(y, m).s.cache && q in Advance(y, m).c
    ensures Advance(y, m).c[q].token == Advance(y, m).s.cache[q].buffer.token
  {
    var s := y.s;
    match m.event {
      case EvProducerAttach(b) => AttachPuts(s, b, Frame(0, 0, 0, true, true));
      case EvAttachAndFlush(b, f) => AttachPuts(s, b, f);
      case EvConsumerAttach(b) => AttachPuts(s, b, Frame(0, 0, 0, true, true));
      case EvAttachBuffer(b) => AttachBufferPuts(s, b);
      case EvConsumerDetach(x, z) => ConsumerDetachToken(s, x, z);
      case EvLowerFlag(x) =>
      case EvPreAlloc(c, ready) => SpecialPreAlloc(y, m, q);
    }
  }

  lemma SpecialPreAlloc(y: System, m: Move, q: SeqNum)
    requires Enabled(y.s, m.event) && OneName(y, m.event) && m.event.EvPreAlloc?
    requires q in Ids(m.event.ready) && q in Advance(y, m).s.cache && q in Advance(y, m).c
    ensures Advance(y, m).c[q].token == Advance(y, m).s.cache[q].buffer.token
  {
    var ready := m.event.ready;
    PreAllocOut(y.s, m.event.config, ready);
    IdsMembers(ready, q);
    var j :| 0 <= j < |ready| && ready[j].id == q;
    assert Fresh(y.s, ready[j].id);
    PreAllocPuts(y.s, m.event.config, ready, q);
  }

  lemma AttachSourced(y: System, m: Move)
    requires Inv(y.s) && Enabled(y.s, m.event) && Step(y.s, m.event).out.Done? && OneName(y, m.event)
    ensures Sourced(y.c, Advance(y, m).s, Advance(y, m).c)
  {
    match m.event {
      case EvProducerAttach(b) => AttachPuts(y.s, b, Frame(0, 0, 0, true, true));
      case EvAttachAndFlush(b, f) => AttachPuts(y.s, b, f);
      case EvAttachBuffer(b) => AttachBufferPuts(y.s, b);
      case _ =>
    }
  }

  /** As long as a number names one buffer, neither side ever holds a stale one. */
  lemma StepNoStale(y: System, m: Move)
    requires Inv(y.s) && Enabled(y.s, m.event) && NoStale(y.s, y.c) && OneName(y, m.event)
    ensures NoStale(Advance(y, m).s, Advance(y, m).c)
  {
    ReactSourced(y, m);
    StepLocal(y.s, m.event);
    var s, t, c := y.s, Advance(y, m).s, Advance(y, m).c;
    forall q | q in t.cache && q in c ensures c[q].token == t.cache[q].buffer.token {
      if q in Special(s, m.event) {
        SpecialAgrees(y, m, q);
      } else {
        assert Kept(s, t, q);
      }
    }
  }

  /** A request that succeeds ends with exactly the queue's buffer in the producer's hands:
      from the reply, from the cache, or through a synchronisation that succeeds. */
  lemma RequestResolves(y: System, m: Move)
    requires Inv(y.s) && Enabled(y.s, m.event) && NoStale(y.s, y.c) && Step(y.s, m.event).out.Granted?
    ensures var r := Step(y.s, m.event);
            var a := AddCache(y.c, r.out.id, r.out.buffer, r.out.deleting, if m.syncOk then Some(SyncReply(r.q)) else None);
            && r.out.id in r.q.cache
            && (a.buffer.Some? ==> a.buffer.value.token == r.q.cache[r.out.id].buffer.token)
            && (m.syncOk || r.out.buffer.Some? || r.out.id in y.c ==> a.buffer.Some?)
  {
    GrantedBuffer(y.s, m.event);
    if Requesting(m.event) {
      var q := RequestingEffect(y.s, m.event);
    } else {
      FinishEffect(y.s, m.event.num, m.event.ok, m.event.token);
    }
  }

  // ---- runs of the two parties ----

  predicate CanAdvance(y: System, ms: seq<Move>)
    decreases |ms|
  {
    ms == [] || (Enabled(y.s, ms[0].event) && CanAdvance(Advance(y, ms[0]), ms[1..]))
  }

  function AdvanceAll(y: System, ms: seq<Move>): System
    requires CanAdvance(y, ms)
    decreases |ms|
  {
    if ms == [] then y else AdvanceAll(Advance(y, ms[0]), ms[1..])
  }

  lemma ConcatFront(a: seq<Move>, b: seq<Move>)
    ensures a == [] ==> a + b == b
    ensures a != [] ==> a + b != [] && (a + b)[0] == a[0] && (a + b)[1..] == a[1..] + b
  {
  }

  lemma {:induction false} AdvanceConcat(y: System, a: seq<Move>, b: seq<Move>)
    requires CanAdvance(y, a) && CanAdvance(AdvanceAll(y, a), b)
    ensures CanAdvance(y, a + b) && AdvanceAll(y, a + b) == AdvanceAll(AdvanceAll(y, a), b)
    decreases |a|
  {
    ConcatFront(a, b);
    if a != [] { AdvanceConcat(Advance(y, a[0]), a[1..], b); }
  }

  predicate AllOneName(y: System, ms: seq<Move>)
    requires CanAdvance(y, ms)
    decreases |ms|
  {
    ms == [] || (OneName(y, ms[0].event) && AllOneName(Advance(y, ms[0]), ms[1..]))
  }

  /** In every run in which a number names one buffer, no stale buffer is ever held, so by
      RequestResolves every request that succeeds and can synchronise gets the right buffer. */
  lemma {:induction false} RunNoStale(y: System, ms: seq<Move>)
    requires Inv(y.s) && NoStale(y.s, y.c) && CanAdvance(y, ms) && AllOneName(y, ms)
    ensures Inv(AdvanceAll(y, ms).s) && NoStale(AdvanceAll(y, ms).s, AdvanceAll(y, ms).c)
    decreases |ms|
  {
    if ms != [] {
      StepKeeps(y.s, ms[0].event);
      StepNoStale(y, ms[0]);
      RunNoStale(Advance(y, ms[0]), ms[1..]);
    }
  }
}
