/** The producer's buffer cache as the object it is. Its methods compute the functions of
    CacheProtocol, for which the coherence of the two caches is proved. */
module ProducerSurfaces {
  import opened Lists
  import opened QueueModel
  import opened Partition
  import opened Requests
  import opened CacheProtocol
  import opened Coherence
  import opened BufferQueues
  import opened Batches

  /** What a request of the producer amounts to, when no other thread runs in between: the request,
      its resumption after a wait, the end of its allocation; and the cleaning of both caches when
      there is no consumer. */
  function RequestMoves(s: Queue, cfg: Config, a: Supply, syncOk: bool): seq<Move> {
    var first := FirstMoves(s, cfg, a, syncOk);
    if FirstHalf(s, cfg, a).out.Allocating? then first + [Move(EvFinishAlloc(a.num, a.ok, a.token), true, syncOk)]
    else if WholeRequest(s, cfg, a).out == Failed(NoConsumer) then first + [Move(EvClear, true, syncOk)]
    else first
  }

  /** The moves up to an allocation or to the end of the request. */
  function FirstMoves(s: Queue, cfg: Config, a: Supply, syncOk: bool): seq<Move> {
    var m := Move(EvRequest(cfg, a.num), true, syncOk);
    var w := Move(EvAfterWait(WithDefault(s, cfg), a.num), true, syncOk);
    if Request(s, cfg, a.num, false).out.Blocked? then [m, w] else [m]
  }

  /** Where these moves lead: one request of the queue, one reaction of the producer. */
  function AfterRequest(y: System, cfg: Config, a: Supply, syncOk: bool): System {
    var r := WholeRequest(y.s, cfg, a);
    match r.out
    case Granted(id, b, gone) => System(r.q, AddCache(y.c, id, b, gone, if syncOk then Some(SyncReply(r.q)) else None).cache)
    case Failed(NoConsumer) => System(Clear(r.q), map[])
    case _ => System(r.q, y.c)
  }

  lemma OneAdvance(y: System, m: Move)
    requires Enabled(y.s, m.event)
    ensures CanAdvance(y, [m]) && AdvanceAll(y, [m]) == Advance(y, m)
  {
    assert [m][1..] == [];
    assert AdvanceAll(Advance(y, m), []) == Advance(y, m);
  }

  lemma FirstAdvances(y: System, cfg: Config, a: Supply, syncOk: bool)
    requires Inv(y.s) && Idle(y.s) && Fresh(y.s, a.num)
    ensures var first, r := FirstMoves(y.s, cfg, a, syncOk), FirstHalf(y.s, cfg, a);
            && CanAdvance(y, first)
            && AdvanceAll(y, first) == System(r.q, if r.out.Granted? then
                 AddCache(y.c, r.out.id, r.out.buffer, r.out.deleting, if syncOk then Some(SyncReply(r.q)) else None).cache else y.c)
  {
    var m, w := Move(EvRequest(cfg, a.num), true, syncOk), Move(EvAfterWait(WithDefault(y.s, cfg), a.num), true, syncOk);
    var q := RequestEffect(y.s, cfg, a.num);
    OneAdvance(y, m);
    if Request(y.s, cfg, a.num, false).out.Blocked? {
      assert Advance(y, m) == y;
      OneAdvance(y, w);
      q := AfterWaitEffect(y.s, WithDefault(y.s, cfg), a.num);
      AdvanceConcat(y, [m], [w]);
      assert [m] + [w] == [m, w];
    }
  }

  lemma AllocationAdvances(y: System, first: seq<Move>, c: Cache, a: Supply, syncOk: bool)
    requires CanAdvance(y, first) && AdvanceAll(y, first).c == c && a.num in AdvanceAll(y, first).s.pending
    ensures var s1, f := AdvanceAll(y, first).s, Move(EvFinishAlloc(a.num, a.ok, a.token), true, syncOk);
            var r := FinishAlloc(s1, a.num, a.ok, a.token);
            && CanAdvance(y, first + [f])
            && AdvanceAll(y, first + [f]) == System(r.q, if r.out.Granted? then
                 AddCache(c, r.out.id, r.out.buffer, r.out.deleting, if syncOk then Some(SyncReply(r.q)) else None).cache else c)
  {
    var y1, f := AdvanceAll(y, first), Move(EvFinishAlloc(a.num, a.ok, a.token), true, syncOk);
    FinishEffect(y1.s, a.num, a.ok, a.token);
    OneAdvance(y1, f);
    AdvanceConcat(y, first, [f]);
  }

  lemma ClearAdvances(y: System, first: seq<Move>, syncOk: bool)
    requires CanAdvance(y, first) && !AdvanceAll(y, first).s.allocating
    ensures var f := Move(EvClear, true, syncOk);
            CanAdvance(y, first + [f]) && AdvanceAll(y, first + [f]) == System(Clear(AdvanceAll(y, first).s), map[])
  {
    OneAdvance(AdvanceAll(y, first), Move(EvClear, true, syncOk));
    AdvanceConcat(y, first, [Move(EvClear, true, syncOk)]);
  }

  lemma RequestAdvances(y: System, cfg: Config, a: Supply, syncOk: bool)
    requires Inv(y.s) && Idle(y.s) && Fresh(y.s, a.num)
    ensures var moves := RequestMoves(y.s, cfg, a, syncOk);
            CanAdvance(y, moves) && AdvanceAll(y, moves) == AfterRequest(y, cfg, a, syncOk)
  {
    FirstAdvances(y, cfg, a, syncOk);
    var q := FirstHalfEffect(y.s, cfg, a);
    RequestEnds(y, AdvanceAll(y, FirstMoves(y.s, cfg, a, syncOk)), cfg, a, syncOk);
  }

  /** The last move, if there is one. */
  lemma RequestEnds(y: System, y1: System, cfg: Config, a: Supply, syncOk: bool)
    requires CanAdvance(y, FirstMoves(y.s, cfg, a, syncOk)) && y1 == AdvanceAll(y, FirstMoves(y.s, cfg, a, syncOk))
    requires y1.s == FirstHalf(y.s, cfg, a).q
    requires FirstHalf(y.s, cfg, a).out.Allocating? ==> a.num in y1.s.pending
    requires FirstHalf(y.s, cfg, a).out.Failed? ==> !y1.s.allocating
    requires var r := FirstHalf(y.s, cfg, a);
             y1.c == if r.out.Granted? then
               AddCache(y.c, r.out.id, r.out.buffer, r.out.deleting, if syncOk then Some(SyncReply(r.q)) else None).cache else y.c
    ensures var moves := RequestMoves(y.s, cfg, a, syncOk);
            CanAdvance(y, moves) && AdvanceAll(y, moves) == AfterRequest(y, cfg, a, syncOk)
  {
    var first, r := FirstMoves(y.s, cfg, a, syncOk), FirstHalf(y.s, cfg, a);
    if r.out.Allocating? {
      FinishEffect(y1.s, a.num, a.ok, a.token);
      AllocationAdvances(y, first, y.c, a, syncOk);
    } else if r.out == Failed(NoConsumer) {
      ClearAdvances(y, first, syncOk);
    }
  }

  /** A granted request of linked parties ends with the queue's buffer, without a synchronisation. */
  lemma WholeRequestResolves(y: System, cfg: Config, a: Supply, sync: Option<Cache>)
    requires Link(y) && Idle(y.s) && Fresh(y.s, a.num) && WholeRequest(y.s, cfg, a).out.Granted?
    ensures var r := WholeRequest(y.s, cfg, a);
            var d := AddCache(y.c, r.out.id, r.out.buffer, r.out.deleting, sync);
            && (r.out.buffer.None? ==> r.out.id in y.c)
            && r.out.id in r.q.cache && d.buffer.Some? && d.buffer.value.token == r.q.cache[r.out.id].buffer.token
  {
    var q := FirstHalfEffect(y.s, cfg, a);
    var w := FirstHalf(y.s, cfg, a);
    if w.out.Allocating? {
      FinishEffect(w.q, a.num, a.ok, a.token);
    } else if w.out.buffer.None? {
      assert Covered(y.s, y.c, w.out.id);
    }
  }

  /** CleanCacheLocked is one of two moves of the protocol. */
  lemma CleaningMoves(y: System, connected: bool)
    requires connected ==> !y.s.allocating
    ensures var m := Move(if connected then EvClear else EvTurnedAway, true, false);
            Enabled(y.s, m.event) && Advance(y, m) == System(if connected then Clear(y.s) else y.s, map[])
  {
  }

  class ProducerSurface {
    var bufferProducerCache: Cache
    const producer: BufferQueueProducer
    /** The queue at the other end. */
    const bufferQueue: BufferQueue := producer.bufferQueue

    constructor (p: BufferQueueProducer)
      ensures producer == p && bufferProducerCache == map[]
    {
      bufferProducerCache := map[];
      producer := p;
    }

    method DeleteCacheBufferLocked(deletingBuffers: seq<SeqNum>)
      modifies this
      ensures bufferProducerCache == DeleteGone(old(bufferProducerCache), deletingBuffers)
    {
      var i := 0;
      while i < |deletingBuffers|
        invariant i <= |deletingBuffers| && bufferProducerCache == DeleteGone(old(bufferProducerCache), deletingBuffers[..i])
      {
        assert Elems(deletingBuffers[..i + 1]) == Elems(deletingBuffers[..i]) + {deletingBuffers[i]};
        bufferProducerCache := bufferProducerCache - {deletingBuffers[i]};
        i := i + 1;
      }
      assert deletingBuffers[..i] == deletingBuffers;
    }

    /** BufferQueue::SyncProducerCache, and the loop that merges its answer; `ok` is the result of the call. */
    method SyncProducerCacheLocked(ok: bool)
      modifies this
      ensures bufferProducerCache ==
              if ok then old(bufferProducerCache) + SyncReply(bufferQueue.Abs()) else old(bufferProducerCache)
    {
      if !ok { return; }
      var buffers := bufferQueue.bufferQueueCache;
      var todo := buffers.Keys;
      while todo != {}
        invariant todo <= buffers.Keys
        invariant bufferProducerCache ==
                  old(bufferProducerCache) + map q | q in buffers && q !in todo :: buffers[q].buffer
        decreases todo
      {
        var id := Least(todo);
        bufferProducerCache := bufferProducerCache[id := buffers[id].buffer];
        todo := todo - {id};
      }
    }

    /** AddCacheLocked for the reply to a request. */
    method AddCacheLocked(id: SeqNum, reply: Option<Buffer>, deletingBuffers: seq<SeqNum>, syncOk: bool)
      returns (buffer: Option<Buffer>)
      modifies this
      ensures var sync := if syncOk then Some(SyncReply(bufferQueue.Abs())) else None;
              Added(bufferProducerCache, buffer) == AddCache(old(bufferProducerCache), id, reply, deletingBuffers, sync)
    {
      buffer := reply;
      if reply.Some? {
        bufferProducerCache := bufferProducerCache[id := reply.value];
      } else {
        if id !in bufferProducerCache {
          SyncProducerCacheLocked(syncOk);
          if !syncOk {
            DeleteCacheBufferLocked(deletingBuffers);
            return;
          }
          if id !in bufferProducerCache {
            DeleteCacheBufferLocked(deletingBuffers);
            return;
          }
        }
        buffer := Some(bufferProducerCache[id]);
      }
      DeleteCacheBufferLocked(deletingBuffers);
    }

    /** AddCacheLocked for a buffer the producer attached. */
    method AddAttachedLocked(attachedBuffer: Buffer)
      modifies this
      ensures bufferProducerCache == AddAttached(old(bufferProducerCache), attachedBuffer, bufferQueue.bufferQueueSize)
    {
      if attachedBuffer.id !in bufferProducerCache {
        if bufferQueue.bufferQueueSize <= |bufferProducerCache| { bufferProducerCache := map[]; }
        bufferProducerCache := bufferProducerCache[attachedBuffer.id := attachedBuffer];
      }
    }

    /** UpdateCacheLocked, after a request that also detaches. */
    method UpdateCacheLocked(id: SeqNum, reply: Option<Buffer>, deletingBuffers: seq<SeqNum>) returns (buffer: Option<Buffer>)
      modifies this
      ensures Added(bufferProducerCache, buffer) == UpdateCache(old(bufferProducerCache), id, reply, deletingBuffers)
    {
      buffer := reply;
      if reply.None? {
        if id !in bufferProducerCache {
          DeleteCacheBufferLocked(deletingBuffers);
          return;
        }
        buffer := Some(bufferProducerCache[id]);
      }
      bufferProducerCache := bufferProducerCache - {id};
      DeleteCacheBufferLocked(deletingBuffers);
    }

    method CleanAllLocked()
      modifies this
      ensures bufferProducerCache == map[]
    {
      bufferProducerCache := map[];
    }

    /** The pair that CacheProtocol follows through a run. */
    ghost function Pair(): System
      reads this, bufferQueue
    {
      System(bufferQueue.Abs(), bufferProducerCache)
    }

    /** CleanCacheLocked: the queue is cleared, unless CheckConnectLocked turns the call away, and
        then the producer's cache in any case. */
    method CleanCacheLocked(connected: bool)
      requires bufferQueue.Valid() && (connected ==> !bufferQueue.Abs().allocating)
      modifies this, bufferQueue
      ensures bufferQueue.Valid()
      ensures Pair() == System(if connected then Clear(old(bufferQueue.Abs())) else old(bufferQueue.Abs()), map[])
    {
      if connected { bufferQueue.ClearLocked(); }
      CleanAllLocked();
    }

    /** RequestBufferLocked when no other thread runs in between, through wait and allocation: both
        parties move as the protocol says, and the caller of a request that is granted gets the
        queue's buffer, from linked caches without a synchronisation. */
    method RequestBufferLocked(config: Config, supply: Supply, syncOk: bool) returns (out: Outcome, buffer: Option<Buffer>)
      requires bufferQueue.Valid() && Idle(bufferQueue.Abs()) && Fresh(bufferQueue.Abs(), supply.num)
      modifies this, bufferQueue
      ensures bufferQueue.Valid()
      ensures var y, moves := old(Pair()), RequestMoves(old(bufferQueue.Abs()), config, supply, syncOk);
              && CanAdvance(y, moves) && Pair() == AdvanceAll(y, moves)
              && (Link(y) && out.Granted? ==>
                    buffer.Some? && out.id in bufferQueue.bufferQueueCache
                    && buffer.value.token == bufferQueue.bufferQueueCache[out.id].buffer.token)
    {
      ghost var y := Pair();
      RequestAdvances(y, config, supply, syncOk);
      out, buffer := RequestAndCache(config, supply, syncOk);
      if Link(y) && out.Granted? {
        WholeRequestResolves(y, config, supply, if syncOk then Some(SyncReply(bufferQueue.Abs())) else None);
      }
    }

    /** The call to the queue and what the producer makes of its answer. A request that comes back with
        NO_CONSUMER has just connected, so the cleaning is not turned away. */
    method RequestAndCache(config: Config, supply: Supply, syncOk: bool) returns (out: Outcome, buffer: Option<Buffer>)
      requires bufferQueue.Valid() && Idle(bufferQueue.Abs()) && Fresh(bufferQueue.Abs(), supply.num)
      modifies this, bufferQueue
      ensures bufferQueue.Valid() && out == WholeRequest(old(bufferQueue.Abs()), config, supply).out
      ensures Pair() == AfterRequest(old(Pair()), config, supply, syncOk)
      ensures out.Granted? ==>
                var sync := if syncOk then Some(SyncReply(bufferQueue.Abs())) else None;
                buffer == AddCache(old(bufferProducerCache), out.id, out.buffer, out.deleting, sync).buffer
    {
      WholeRequestEffect(bufferQueue.Abs(), config, supply);
      out := producer.RequestBuffer(config, supply);
      buffer := None;
      if out.Granted? {
        buffer := AddCacheLocked(out.id, out.buffer, out.deleting, syncOk);
      } else if out == Failed(NoConsumer) {
        CleanCacheLocked(true);
      }
    }
  }
}
