/** The queue as the object it is: its lists, its map and its counters are fields that the methods
    update in place, with the loops of the C++ code. Each method computes the transition that
    QueueModel gives for it, so the theorems about runs hold of the object. */
module BufferQueues {
  import opened Lists
  import opened QueueModel
  import opened Partition
  import opened Requests
  import opened TimedAcquires

  /** The bookkeeping looks at the keys of the cache only. */
  lemma RecordBeforeUpdate(s: Queue, id: SeqNum, cache: map<SeqNum, Element>)
    requires cache.Keys == s.cache.Keys
    ensures RecordResent(s.(cache := cache), id) == RecordResent(s, id).(cache := cache)
  {
    var s1, s2 := s.(resent := s.resent + [id]), s.(cache := cache, resent := s.resent + [id]);
    assert AllResent(s1) <==> AllResent(s2);
  }

  /** Grant in terms of the state in which the buffer is already Requested. */
  lemma GrantAfterRequested(s: Queue, id: SeqNum, realloc: bool, listener: bool)
    requires id in s.cache
    ensures var t := QueueModel.SetState(s, id, Requested).(deleting := []);
            var e := t.cache[id];
            var b := e.buffer.(consumerAttach := false);
            Grant(s, id, realloc, listener) ==
              if !realloc && !NeedsResend(t, id) then Next(t, Granted(id, None, s.deleting))
              else if listener then Fail(t.(cache := t.cache[id := e.(state := Released)], free := t.free + [id]), NoBuffer)
              else Next(RecordResent(t.(cache := t.cache[id := e.(buffer := b, preAlloc := false)]), id), Granted(id, Some(b), s.deleting))
  {
    var t := QueueModel.SetState(s, id, Requested).(deleting := []);
    var e := t.cache[id];
    assert t.cache[id := e.(state := Released)] == s.cache[id := s.cache[id].(state := Released)];
    var c := e.(buffer := e.buffer.(consumerAttach := false), preAlloc := false);
    assert t.cache[id := c] == s.cache[id := c];
  }

  // ---- one round of each loop ----

  lemma DropNone(s: Queue)
    requires Inv(s)
    ensures DropFront(s, 0) == s
  {
    assert s.dirty[0..] == s.dirty && s.dirty[..0] == [];
    assert DropFront(s, 0).cache == s.cache;
  }

  /** What the drop loops need of the partition. */
  ghost predicate Frames(s: Queue) { NoDup(s.dirty) && forall j :: 0 <= j < |s.dirty| ==> s.dirty[j] in s.cache }

  lemma FramesPresent(s: Queue)
    requires Inv(s)
    ensures Frames(s)
  {
    forall j | 0 <= j < |s.dirty| ensures s.dirty[j] in s.cache { assert InState(s.cache, s.dirty[j], Flushed); }
  }

  lemma SplitAt(l: seq<SeqNum>, n: nat)
    requires n < |l| && NoDup(l)
    ensures l[..n + 1] == l[..n] + [l[n]] && l[n..][0] == l[n] && l[n..][1..] == l[n + 1..]
    ensures l[n] !in l[..n]
  {
    if l[n] in l[..n] {
      var k :| 0 <= k < n && l[k] == l[n];
      NoDupIndex(l, k, n);
      assert false;
    }
  }

  lemma LevelDropKeeps(s: Queue)
    requires Inv(s)
    ensures Inv(DropByLevel(s).q)
    ensures DropByLevel(s) == Next(DropFront(s, LevelDrop(s)), Dropped(s.dirty[..LevelDrop(s)]))
  {
    DropByLevelChoice(s);
    DropKeeps(s, LevelDrop(s));
  }

  /** Dropping one frame more. */
  lemma DropOneMore(s: Queue, n: nat)
    requires Frames(s) && n < |s.dirty|
    ensures s.dirty[n] in s.cache && s.dirty[..n + 1] == s.dirty[..n] + [s.dirty[n]]
    ensures var t := DropFront(s, n);
            && t.dirty[0] == s.dirty[n] && s.dirty[n] in t.cache && t.dirty[1..] == s.dirty[n + 1..]
            && t.cache[s.dirty[n] := t.cache[s.dirty[n]].(state := Acquired)] == DropFront(s, n + 1).cache
  {
    SplitAt(s.dirty, n);
  }

  /** The frames behind the dropped ones are untouched. */
  lemma DropKeepsRest(s: Queue, n: nat, j: nat)
    requires Frames(s) && n <= j < |s.dirty|
    ensures DropFront(s, n).dirty[j - n] == s.dirty[j] && s.dirty[j] in s.cache && DropFront(s, n).cache[s.dirty[j]] == s.cache[s.dirty[j]]
  {
    NoDupCut(s.dirty, n);
    assert s.dirty[n..][j - n] == s.dirty[j] && s.dirty[j] in s.dirty[n..];
  }

  /** The first `n` frames may be dropped: they and, if there are any, the one after them are eligible. */
  ghost predicate Outdated(s: Queue, n: nat, due: int, useAuto: bool) {
    && n < |s.dirty| && s.dirty[n] in s.cache
    && (forall j :: 0 <= j < n ==> s.dirty[j] in s.cache && Eligible(s.cache[s.dirty[j]], due, useAuto))
    && (n > 0 ==> Eligible(s.cache[s.dirty[n]], due, useAuto))
  }

  /** The loop has dropped all but the last frame of the eligible prefix. */
  lemma RunFound(s: Queue, n: nat, due: int, useAuto: bool)
    requires Inv(s) && Outdated(s, n, due, useAuto)
    requires !Outdated(s, n + 1, due, useAuto)
    ensures EligibleRun(s, 0, due, useAuto) == if Eligible(s.cache[s.dirty[n]], due, useAuto) then n + 1 else 0
  {
    FramesPresent(s);
  }

  lemma StopsHere(s: Queue, n: nat, due: int, useAuto: bool)
    requires Outdated(s, n, due, useAuto)
    ensures !Eligible(s.cache[s.dirty[n]], due, useAuto) ==> !Outdated(s, n + 1, due, useAuto)
  {
  }

  lemma OneMoreOutdated(s: Queue, n: nat, due: int, useAuto: bool)
    requires Outdated(s, n, due, useAuto) && Eligible(s.cache[s.dirty[n]], due, useAuto)
    requires n + 1 < |s.dirty| && s.dirty[n + 1] in s.cache && Eligible(s.cache[s.dirty[n + 1]], due, useAuto)
    ensures Outdated(s, n + 1, due, useAuto)
  {
  }

  lemma {:induction false} WithoutFirst(l: seq<SeqNum>, i: nat)
    requires i < |l| && l[i] !in l[..i]
    ensures Without(l, l[i]) == l[..i] + l[i + 1..]
  {
    if i > 0 {
      assert l[..i] == [l[0]] + l[1..][..i - 1] && l[1..][i..] == l[i + 1..];
      WithoutFirst(l[1..], i - 1);
    }
  }

  function Prefixed(before: seq<SeqNum>, h: Handed): Handed { Handed(h.q, before + h.ids) }

  /** One round of the hand-out loop. */
  lemma HandOutRound(s: Queue, before: seq<SeqNum>, configs: seq<Config>)
    requires configs != []
    ensures var r := Request(s, configs[0], 0, true);
            && (r.out.Granted? ==> InState(r.q.cache, r.out.id, Requested) && r.q.opts == s.opts)
            && Prefixed(before, HandOutLoop(s, configs)) ==
               if r.out.Granted? then
                 var e := r.q.cache[r.out.id].(listenerPid := s.opts.listenerPid);
                 Prefixed(before + [r.out.id], HandOutLoop(r.q.(cache := r.q.cache[r.out.id := e]), configs))
               else Prefixed(before, HandOutLoop(r.q, configs[1..]))
  {
    var r := Request(s, configs[0], 0, true);
    if r.out.Granted? {
      GrantedIsRequested(s, configs[0]);
      ListenKeepsSettings(s, configs[0]);
      HandOutGranted(s, configs, r);
      var e := r.q.cache[r.out.id].(listenerPid := s.opts.listenerPid);
      PrefixedFurther(before, r.out.id, HandOutLoop(r.q.(cache := r.q.cache[r.out.id := e]), configs));
    } else {
      HandOutRefused(s, configs, r);
    }
  }

  lemma ListenKeepsSettings(s: Queue, cfg: Config)
    ensures Request(s, cfg, 0, true).q.opts == s.opts
  {
  }

  lemma PrefixedFurther(before: seq<SeqNum>, id: SeqNum, h: Handed)
    ensures Prefixed(before, Handed(h.q, [id] + h.ids)) == Prefixed(before + [id], h)
  {
    assert before + ([id] + h.ids) == before + [id] + h.ids;
  }

  lemma HandOutGranted(s: Queue, configs: seq<Config>, r: Next)
    requires configs != [] && r == Request(s, configs[0], 0, true) && r.out.Granted? && r.out.id in r.q.cache
    ensures var e := r.q.cache[r.out.id].(listenerPid := s.opts.listenerPid);
            var h := HandOutLoop(r.q.(cache := r.q.cache[r.out.id := e]), configs);
            HandOutLoop(s, configs) == Handed(h.q, [r.out.id] + h.ids)
  {
  }

  lemma HandOutRefused(s: Queue, configs: seq<Config>, r: Next)
    requires configs != [] && r == Request(s, configs[0], 0, true) && !r.out.Granted?
    ensures HandOutLoop(s, configs) == HandOutLoop(r.q, configs[1..])
  {
  }

  lemma RefusedFlushKeeps(s: Queue, q: SeqNum, f: Frame)
    ensures Flush(s, q, f, false).out.Failed? ==> Flush(s, q, f, false).q == s
  {
  }

  /** Undoing the attach by hand gives back the state before it. */
  lemma AttachFlushRolledBack(s: Queue, b: Buffer, f: Frame)
    requires Inv(s) && AttachToQueue(s, b, Producer).out.Done?
    ensures var t := AttachToQueue(s, b, Producer).q;
            var r := Flush(t, b.id, f, false);
            r.out.Failed? ==> r.q.(dirty := Without(r.q.dirty, b.id), cache := r.q.cache - {b.id}) == s
  {
    var t := AttachToQueue(s, b, Producer).q;
    assert b.id !in s.dirty by { assert !InState(s.cache, b.id, Flushed); }
    WithoutAbsent(s.dirty, b.id);
    assert t.cache - {b.id} == s.cache;
    RefusedFlushKeeps(t, b.id, f);
  }

  lemma KeepNext(l: seq<SeqNum>, n: nat, p: SeqNum -> bool)
    requires n < |l|
    ensures Keep(l[..n + 1], p) == Keep(l[..n], p) + (if p(l[n]) then [l[n]] else [])
  {
    assert l[..n + 1] == l[..n] + [l[n]];
    KeepConcat(l[..n], [l[n]], p);
  }

  function KeptFront(s: Queue, n: nat): seq<SeqNum>
    requires n <= |s.free|
  {
    Keep(s.free[..n], (q: SeqNum) => Spared(s, q))
  }

  function GoneFront(s: Queue, n: nat): seq<SeqNum>
    requires n <= |s.free|
  {
    Keep(s.free[..n], (q: SeqNum) => !Spared(s, q))
  }

  /** The state after the cleaning loop has looked at `n` entries of the free list. */
  function CleanUpTo(s: Queue, n: nat): Queue
    requires n <= |s.free|
  {
    s.(free := KeptFront(s, n) + s.free[n..], cache := s.cache - Elems(GoneFront(s, n)))
  }

  lemma CleanUpToEnds(s: Queue)
    ensures CleanUpTo(s, 0) == s && KeptFront(s, 0) == [] && GoneFront(s, 0) == []
    ensures CleanReleased(s) == Next(CleanUpTo(s, |s.free|), Cleaned(GoneFront(s, |s.free|)))
  {
    assert s.cache - Elems([]) == s.cache;
    assert s.free[..|s.free|] == s.free;
    KeepCong(s.free, (q: SeqNum) => Spared(s, q), (q: SeqNum) => Spared(s, q));
    KeepCong(s.free, (q: SeqNum) => !Spared(s, q), (q: SeqNum) => !Spared(s, q));
  }

  lemma CleanListsNext(s: Queue, n: nat)
    requires n < |s.free|
    ensures KeptFront(s, n + 1) == KeptFront(s, n) + (if Spared(s, s.free[n]) then [s.free[n]] else [])
    ensures GoneFront(s, n + 1) == GoneFront(s, n) + (if Spared(s, s.free[n]) then [] else [s.free[n]])
  {
    KeepNext(s.free, n, (x: SeqNum) => Spared(s, x));
    KeepNext(s.free, n, (x: SeqNum) => !Spared(s, x));
  }

  lemma EraseBetween(a: seq<SeqNum>, l: seq<SeqNum>, n: nat)
    requires n < |l|
    ensures (a + l[n..])[|a|] == l[n]
    ensures (a + l[n..])[..|a|] + (a + l[n..])[|a| + 1..] == a + l[n + 1..]
    ensures a + [l[n]] + l[n + 1..] == a + l[n..]
  {
  }

  lemma EraseOneMore(cache: map<SeqNum, Element>, gone: seq<SeqNum>, q: SeqNum)
    ensures cache - Elems(gone + [q]) == cache - Elems(gone) - {q}
  {
  }

  lemma CleanUpToNext(s: Queue, n: nat)
    requires n < |s.free|
    ensures var t, i, q := CleanUpTo(s, n), |KeptFront(s, n)|, s.free[n];
            && i < |t.free| && t.free[i] == q
            && KeptFront(s, n + 1) == KeptFront(s, n) + (if Spared(s, q) then [q] else [])
            && GoneFront(s, n + 1) == GoneFront(s, n) + (if Spared(s, q) then [] else [q])
            && CleanUpTo(s, n + 1) == (if Spared(s, q) then t else t.(free := t.free[..i] + t.free[i + 1..], cache := t.cache - {q}))
  {
    CleanListsNext(s, n);
    EraseBetween(KeptFront(s, n), s.free, n);
    EraseOneMore(s.cache, GoneFront(s, n), s.free[n]);
  }

  /** `std::list::remove`. */
  function RemoveAll(l: seq<SeqNum>, x: SeqNum): seq<SeqNum> { Keep(l, (q: SeqNum) => q != x) }

  lemma CleanNone(s: Queue)
    ensures CleanBySeqNum(s, []) == s
  {
    KeepAll(s.free, (q: SeqNum) => q !in [] || q !in s.cache);
    KeepAll(s.dirty, (q: SeqNum) => q !in [] || q !in s.cache);
    assert s.cache - Elems([]) == s.cache;
  }

  lemma {:induction false} KeepTwice(l: seq<SeqNum>, p: SeqNum -> bool, r: SeqNum -> bool, both: SeqNum -> bool)
    requires forall q :: q in l ==> (both(q) <==> p(q) && r(q))
    ensures Keep(Keep(l, p), r) == Keep(l, both)
  {
    if l != [] {
      KeepTwice(l[1..], p, r, both);
      if p(l[0]) { assert ([l[0]] + Keep(l[1..], p))[1..] == Keep(l[1..], p); }
    }
  }

  lemma CleanOneMore(s: Queue, ids: seq<SeqNum>, n: nat)
    requires n < |ids|
    ensures var t := CleanBySeqNum(s, ids[..n]);
            CleanBySeqNum(s, ids[..n + 1]) ==
              if ids[n] in t.cache then t.(free := RemoveAll(t.free, ids[n]), dirty := RemoveAll(t.dirty, ids[n]), cache := t.cache - {ids[n]})
              else t
  {
    var t, a, b, x := CleanBySeqNum(s, ids[..n]), ids[..n], ids[..n + 1], ids[n];
    assert b == a + [x];
    assert s.cache - Elems(b) == t.cache - {x};
    var p, p' := (q: SeqNum) => q !in a || q !in s.cache, (q: SeqNum) => q !in b || q !in s.cache;
    if x in t.cache {
      KeepTwice(s.free, p, (q: SeqNum) => q != x, p');
      KeepTwice(s.dirty, p, (q: SeqNum) => q != x, p');
    } else {
      assert t.cache - {x} == t.cache;
      KeepCong(s.free, p, p');
      KeepCong(s.dirty, p, p');
    }
  }

  class BufferQueue {
    var bufferQueueCache: map<SeqNum, Element>
    var freeList: seq<SeqNum>
    var dirtyList: seq<SeqNum>
    var deletingList: seq<SeqNum>
    var producerCacheList: seq<SeqNum>
    var producerCacheClean: bool
    var bufferQueueSize: u32
    var maxQueueSize: u32
    var detachReserveSlotNum: u32
    var acquireLastFlushedBufSequence: SeqNum
    var lastFlushedSequence: SeqNum
    var isAllocatingBuffer: bool
    var opts: Settings
    /** The calls suspended inside AllocBuffer, by the number of the buffer they allocate, with the
        arguments they will continue with. */
    var pending: map<SeqNum, Pending>
    /** The grants suspended in SetProducerCacheCleanFlagLocked, by the buffer they granted. */
    var lowering: seq<SeqNum>

    /** The model state this object stands for. */
    ghost function Abs(): Queue
      reads this
    {
      Queue(bufferQueueCache, freeList, dirtyList, deletingList, producerCacheList, producerCacheClean,
            bufferQueueSize, maxQueueSize, detachReserveSlotNum, acquireLastFlushedBufSequence, lastFlushedSequence,
            isAllocatingBuffer, pending, lowering, opts)
    }

    ghost predicate Valid()
      reads this
    {
      Inv(Abs())
    }

    constructor (settings: Settings)
      ensures Valid() && Abs() == Initial(settings)
    {
      bufferQueueCache := map[];
      freeList, dirtyList, deletingList, producerCacheList := [], [], [], [];
      producerCacheClean := false;
      bufferQueueSize, maxQueueSize, detachReserveSlotNum := 3, 0, 0;
      acquireLastFlushedBufSequence, lastFlushedSequence := INVALID_SEQUENCE, 0;
      isAllocatingBuffer := false;
      opts := settings;
      pending, lowering := map[], [];
    }

    function UsedSize(): nat
      reads this
    {
      |bufferQueueCache|
    }

    function FreeSlots(): u32
      reads this
    {
      Sub32(bufferQueueSize, detachReserveSlotNum)
    }

    method SetState(id: SeqNum, state: BufferState)
      requires id in bufferQueueCache
      modifies this`bufferQueueCache
      ensures Abs() == QueueModel.SetState(old(Abs()), id, state)
    {
      bufferQueueCache := bufferQueueCache[id := bufferQueueCache[id].(state := state)];
    }

    // ---- requesting ----

    method PopFromFreeListLocked(config: Config) returns (buffer: Option<SeqNum>)
      modifies this`freeList
      ensures buffer == PopFree(old(Abs()), config).q
      ensures Abs() == old(Abs()).(free := PopFree(old(Abs()), config).free)
    {
      var i := 0;
      while i < |freeList|
        invariant i <= |freeList| && freeList == old(freeList)
        invariant FirstFit(Abs(), config, 0) == FirstFit(Abs(), config, i)
      {
        var id := freeList[i];
        if id in bufferQueueCache && SameConfig(bufferQueueCache[id].config, config) {
          if id != acquireLastFlushedBufSequence {
            freeList := freeList[..i] + freeList[i + 1..];
            return Some(id);
          }
        }
        i := i + 1;
      }
      if freeList == [] || UsedSize() < FreeSlots() || (|freeList| == 1 && freeList[0] == acquireLastFlushedBufSequence) {
        return None;
      }
      if freeList[0] == acquireLastFlushedBufSequence {
        freeList := freeList[1..] + [acquireLastFlushedBufSequence];
      }
      var front := freeList[0];
      freeList := freeList[1..];
      return Some(front);
    }

    method PopFromDirtyListLocked() returns (buffer: Option<SeqNum>)
      modifies this`dirtyList
      ensures if old(dirtyList) == [] then buffer == None && Abs() == old(Abs())
              else buffer == Some(old(dirtyList[0])) && Abs() == old(Abs()).(dirty := old(dirtyList)[1..])
    {
      if dirtyList != [] {
        buffer := Some(dirtyList[0]);
        dirtyList := dirtyList[1..];
      } else {
        buffer := None;
      }
    }

    method CheckProducerCacheListLocked() returns (all: bool)
      ensures all <==> AllResent(Abs())
    {
      var todo := bufferQueueCache.Keys;
      while todo != {}
        invariant todo <= bufferQueueCache.Keys
        invariant forall q :: q in bufferQueueCache && q !in todo ==> q in producerCacheList
      {
        var id := Least(todo);
        if id !in producerCacheList { return false; }
        todo := todo - {id};
      }
      return true;
    }

    method AddDeletingBuffersLocked() returns (deletingBuffers: seq<SeqNum>)
      modifies this`deletingList
      ensures deletingBuffers == old(deletingList) && Abs() == old(Abs()).(deleting := [])
    {
      deletingBuffers := deletingList;
      deletingList := [];
    }

    /** The bookkeeping of UpdateReuseBufferState while the producer's cache is to be refilled, up to
        the wait of SetProducerCacheCleanFlagLocked for an announced allocation. */
    method NoteResent(id: SeqNum)
      modifies this`producerCacheList, this`producerCacheClean, this`lowering
      ensures Abs() == RecordResent(old(Abs()), id)
    {
      if producerCacheClean {
        producerCacheList := producerCacheList + [id];
        var all := CheckProducerCacheListLocked();
        if all && isAllocatingBuffer {
          lowering := lowering + [id];
        } else if all {
          producerCacheClean := false;
          producerCacheList := [];
        }
      }
    }

    /** UpdateReuseBufferState from the end of that wait on. */
    method LowerCleanFlag(id: SeqNum)
      requires Valid() && id in lowering && !isAllocatingBuffer && id in bufferQueueCache
      modifies this
      ensures Valid() && Abs() == LowerFlag(old(Abs()), id).q
    {
      LowerFlagKeeps(Abs(), id);
      producerCacheClean := false;
      producerCacheList := [];
      lowering := Without(lowering, id);
      var e := bufferQueueCache[id];
      bufferQueueCache := bufferQueueCache[id := e.(buffer := e.buffer.(consumerAttach := false), preAlloc := false)];
    }

    /** The part of UpdateReuseBufferState for a buffer that must travel in the reply. */
    method SendAgain(id: SeqNum, gone: seq<SeqNum>) returns (out: Outcome)
      requires id in bufferQueueCache
      modifies this
      ensures var e := old(bufferQueueCache)[id];
              var b := e.buffer.(consumerAttach := false);
              && Abs() == RecordResent(old(Abs()).(cache := old(bufferQueueCache)[id := e.(buffer := b, preAlloc := false)]), id)
              && out == Granted(id, Some(b), gone)
    {
      var e := bufferQueueCache[id];
      var b := e.buffer.(consumerAttach := false);
      RecordBeforeUpdate(Abs(), id, bufferQueueCache[id := e.(buffer := b, preAlloc := false)]);
      NoteResent(id);
      bufferQueueCache := bufferQueueCache[id := e.(buffer := b, preAlloc := false)];
      out := Granted(id, Some(b), gone);
    }

    method UpdateReuseBufferState(id: SeqNum, needRealloc: bool, listenerSeqAndFence: bool) returns (out: Outcome)
      requires id in bufferQueueCache
      modifies this
      ensures Next(Abs(), out) == Grant(old(Abs()), id, needRealloc, listenerSeqAndFence)
    {
      GrantAfterRequested(Abs(), id, needRealloc, listenerSeqAndFence);
      SetState(id, Requested);
      var gone := AddDeletingBuffersLocked();
      var e := bufferQueueCache[id];
      if needRealloc || producerCacheClean || e.buffer.consumerAttach || e.preAlloc {
        if listenerSeqAndFence {
          SetState(id, Released);
          freeList := freeList + [id];
          return Failed(NoBuffer);
        }
        out := SendAgain(id, gone);
        return;
      }
      return Granted(id, None, gone);
    }

    /** AllocBuffer up to the release of the mutex. */
    method BeginAlloc(num: SeqNum, config: Config, realloc: bool) returns (out: Outcome)
      modifies this
      ensures Next(Abs(), out) == StartAlloc(old(Abs()), num, config, realloc)
    {
      isAllocatingBuffer := true;
      pending := pending[num := Pending(config, realloc)];
      return Outcome.Allocating(num);
    }

    /** AllocBuffer once it holds the mutex again, up to the end of the request it serves. */
    method EndAlloc(num: SeqNum, ok: bool, token: nat) returns (out: Outcome)
      requires Valid() && num in pending
      modifies this
      ensures Valid() && Next(Abs(), out) == FinishAlloc(old(Abs()), num, ok, token)
    {
      FinishKeeps(Abs(), num, ok, token);
      var config, realloc := pending[num].config, pending[num].realloc;
      isAllocatingBuffer := false;
      pending := pending - {num};
      if !ok { return Failed(Unknown); }
      var buffer := Buffer(num, token, config, config, false);
      bufferQueueCache := bufferQueueCache[num := Element(buffer, Requested, false, config, false, 0, 0, false, 0)];
      if realloc {
        out := UpdateReuseBufferState(num, true, false);
      } else {
        var gone := AddDeletingBuffersLocked();
        out := Granted(num, Some(buffer), gone);
      }
    }

    method ReuseBuffer(id: SeqNum, config: Config, num: SeqNum, listenerSeqAndFence: bool) returns (out: Outcome)
      modifies this
      ensures Next(Abs(), out) == Reuse(old(Abs()), id, config, num, listenerSeqAndFence)
    {
      if id !in bufferQueueCache { return Failed(Unknown); }
      var needRealloc := !SameConfig(config, bufferQueueCache[id].config);
      if needRealloc {
        if listenerSeqAndFence {
          freeList := freeList + [id];
          return Failed(NoBuffer);
        }
        DeleteBufferInCacheNoWait(id);
        out := BeginAlloc(num, config, true);
      } else {
        out := UpdateReuseBufferState(id, false, listenerSeqAndFence);
      }
    }

    /** The request up to its first wait, or to its end. */
    method RequestBufferLocked(config: Config, num: SeqNum, listenerSeqAndFence: bool) returns (out: Outcome)
      requires Valid() && (listenerSeqAndFence || num !in bufferQueueCache)
      modifies this
      ensures Valid() && Next(Abs(), out) == Request(old(Abs()), config, num, listenerSeqAndFence)
    {
      RequestKeeps(Abs(), config, num, listenerSeqAndFence);
      out := BeginRequest(config, num, listenerSeqAndFence);
    }

    method BeginRequest(config: Config, num: SeqNum, listenerSeqAndFence: bool) returns (out: Outcome)
      modifies this
      ensures Next(Abs(), out) == Request(old(Abs()), config, num, listenerSeqAndFence)
    {
      var status := RequestBufferCheckStatus();
      if status.Some? { return Failed(status.value); }
      var updateConfig := WithUsage(config, opts.defaultUsage);
      if !ConfigOk(updateConfig) { return Failed(Unknown); }
      if isAllocatingBuffer { return Blocked; }
      assert Request(Abs(), config, num, listenerSeqAndFence) == Dequeue(Abs(), updateConfig, num, listenerSeqAndFence);
      out := DequeueLocked(updateConfig, num, listenerSeqAndFence);
    }

    method RequestBufferCheckStatus() returns (error: Option<Error>)
      ensures error == if opts.batch || (opts.valid && opts.listener) then None
                       else Some(if !opts.valid then NoConsumer else NoListener)
    {
      if opts.batch { return None; }
      if !opts.valid { return Some(NoConsumer); }
      if !opts.listener { return Some(NoListener); }
      return None;
    }

    /** The request once no allocation is announced. */
    method DequeueLocked(updateConfig: Config, num: SeqNum, listenerSeqAndFence: bool) returns (out: Outcome)
      modifies this
      ensures Next(Abs(), out) == Dequeue(old(Abs()), updateConfig, num, listenerSeqAndFence)
    {
      if !(opts.priorityAlloc && UsedSize() < FreeSlots()) || listenerSeqAndFence {
        var buffer := PopFromFreeListLocked(updateConfig);
        if buffer.Some? {
          out := ReuseBuffer(buffer.value, updateConfig, num, listenerSeqAndFence);
          return;
        }
        assert Abs() == old(Abs());
        if listenerSeqAndFence { return Failed(NoBuffer); }
        if UsedSize() >= FreeSlots() {
          if !opts.noBlock { return Blocked; }
          out := ReuseBufferForNoBlockMode(updateConfig, num);
          return;
        }
      }
      out := BeginAlloc(num, updateConfig, false);
    }

    method ReuseBufferForNoBlockMode(updateConfig: Config, num: SeqNum) returns (out: Outcome)
      modifies this
      ensures Next(Abs(), out) == Steal(old(Abs()), updateConfig, num)
    {
      var buffer := PopFromDirtyListLocked();
      if buffer.Some? {
        out := ReuseBuffer(buffer.value, updateConfig, num, false);
      } else {
        out := Failed(NoBuffer);
      }
    }

    /** ReuseBufferForBlockMode after its timed wait. */
    method ReuseBufferForBlockMode(updateConfig: Config, num: SeqNum) returns (out: Outcome)
      requires Valid() && num !in bufferQueueCache
      modifies this
      ensures Valid() && Next(Abs(), out) == AfterWait(old(Abs()), updateConfig, num)
    {
      AfterWaitKeeps(Abs(), updateConfig, num);
      if !opts.valid && !opts.batch { return Failed(NoConsumer); }
      var buffer := PopFromFreeListLocked(updateConfig);
      if buffer.Some? {
        out := ReuseBuffer(buffer.value, updateConfig, num, false);
      } else {
        out := Failed(NoBuffer);
      }
    }

    /** On a full queue with a consumer it tells whether the free list can serve a request, whatever
        the request asks for. */
    method WaitForCondition() returns (ready: bool)
      requires Valid()
      ensures ready <==> WaitCondition(Abs())
      ensures UsedSize() >= FreeSlots() && opts.valid ==> forall config :: ready <==> PopFree(Abs(), config).q.Some?
    {
      forall config | UsedSize() >= FreeSlots() && opts.valid
        ensures WaitCondition(Abs()) <==> PopFree(Abs(), config).q.Some?
      {
        PopAgreesWithWait(Abs(), config);
      }
      ready := (freeList != [] && !(|freeList| == 1 && freeList[0] == acquireLastFlushedBufSequence))
               || UsedSize() < FreeSlots() || !opts.valid;
    }

    // ---- cancelling and flushing ----

    method CancelBufferLocked(id: SeqNum) returns (out: Outcome)
      requires Valid()
      modifies this
      ensures Valid() && Next(Abs(), out) == Cancel(old(Abs()), id)
    {
      if id !in bufferQueueCache { return Failed(NotInCache); }
      if bufferQueueCache[id].state != Requested && bufferQueueCache[id].state != Attached { return Failed(StateInvalid); }
      bufferQueueCache := bufferQueueCache[id := bufferQueueCache[id].(state := Released)];
      freeList := freeList + [id];
      bufferQueueCache := bufferQueueCache[id := bufferQueueCache[id].(listenerPid := 0)];
      assert bufferQueueCache == old(bufferQueueCache)[id := old(bufferQueueCache)[id].(state := Released, listenerPid := 0)];
      CancelKeeps(old(Abs()), id);
      out := Done;
    }

    /** The region that really flushes; a marked buffer is deleted instead, which first waits
        for an announced allocation. */
    method DoFlushBufferLocked(id: SeqNum, frame: Frame) returns (out: Outcome)
      modifies this
      ensures Next(Abs(), out) == DoFlush(old(Abs()), id, frame)
    {
      if id !in bufferQueueCache { return Failed(NotInCache); }
      if bufferQueueCache[id].isDeleting {
        DeleteBufferInCacheNoWait(id);
        return Done;
      }
      if !frame.cacheFlushOk { return Failed(Unknown); }
      bufferQueueCache := bufferQueueCache[id := bufferQueueCache[id].(state := Flushed)];
      dirtyList := dirtyList + [id];
      lastFlushedSequence := id;
      bufferQueueCache := bufferQueueCache[id := bufferQueueCache[id].(listenerPid := 0)];
      SetDesiredPresentTimestampAndUiTimestamp(id, frame);
      assert bufferQueueCache == old(bufferQueueCache)[id := Stamp(old(bufferQueueCache)[id].(state := Flushed, listenerPid := 0), frame)];
      out := Done;
    }

    method SetDesiredPresentTimestampAndUiTimestamp(id: SeqNum, frame: Frame)
      requires id in bufferQueueCache
      modifies this`bufferQueueCache
      ensures bufferQueueCache == old(bufferQueueCache)[id := Stamp(old(bufferQueueCache)[id], frame)]
    {
      var e := bufferQueueCache[id].(auto := false);
      if frame.desired <= 0 {
        if frame.desired == 0 && frame.ui != 0 && frame.ui <= INT64_MAX {
          e := e.(desired := frame.ui);
        } else {
          e := e.(desired := frame.now, auto := true);
        }
      } else {
        e := e.(desired := frame.desired);
      }
      bufferQueueCache := bufferQueueCache[id := e.(timestamp := frame.ui)];
    }

    /** FlushBufferImprovedLocked; `plain` selects the form of FlushBuffer, which gives the
        buffer back when no consumer listens. */
    method FlushBuffer(id: SeqNum, frame: Frame, plain: bool) returns (out: Outcome)
      requires Valid()
      modifies this
      ensures Valid() && Next(Abs(), out) == Flush(old(Abs()), id, frame, plain)
    {
      FlushKeeps(Abs(), id, frame, plain);
      if !opts.valid { return Failed(NoConsumer); }
      if !frame.damagesOk { return Failed(InvalidArguments); }
      if id !in bufferQueueCache { return Failed(NotInCache); }
      if bufferQueueCache[id].state != Requested && bufferQueueCache[id].state != Attached { return Failed(StateInvalid); }
      if !opts.listener {
        if plain { var _ := CancelBufferLocked(id); }
        return Failed(NoListener);
      }
      out := DoFlushBufferLocked(id, frame);
    }

    // ---- deleting ----

    method DeleteFreeListCacheLocked(id: SeqNum)
      modifies this`freeList
      ensures freeList == Without(old(freeList), id)
    {
      var i := 0;
      while i < |freeList|
        invariant i <= |freeList| && freeList == old(freeList) && id !in freeList[..i]
      {
        if freeList[i] == id {
          WithoutFirst(freeList, i);
          freeList := freeList[..i] + freeList[i + 1..];
          return;
        }
        i := i + 1;
      }
      WithoutAbsent(freeList, id);
    }

    method DeleteBufferInCacheNoWait(id: SeqNum)
      modifies this
      ensures Abs() == DeleteInCache(old(Abs()), id)
    {
      if id in bufferQueueCache {
        var preAlloc := bufferQueueCache[id].preAlloc;
        bufferQueueCache := bufferQueueCache - {id};
        DeleteFreeListCacheLocked(id);
        if !preAlloc { deletingList := deletingList + [id]; }
      }
    }

    /** DeleteBuffersLocked once no allocation is announced. */
    method DeleteBuffersLocked(count: int)
      requires Valid()
      modifies this
      ensures Valid() && Abs() == DeleteBuffers(old(Abs()), count)
    {
      if count <= 0 { return; }
      var left := count;
      while freeList != []
        invariant Valid() && left > 0 && DeleteBuffers(Abs(), left) == DeleteBuffers(old(Abs()), count)
        decreases |freeList|
      {
        DeleteFront();
        left := left - 1;
        if left <= 0 { return; }
      }
      while dirtyList != []
        invariant Valid() && left > 0 && freeList == [] && DeleteBuffers(Abs(), left) == DeleteBuffers(old(Abs()), count)
        decreases |dirtyList|
      {
        DeleteOldestFrame();
        left := left - 1;
        if left <= 0 { return; }
      }
      DeleteBuffersKeeps(Abs(), left);
      MarkAll(left);
    }

    method DeleteFront()
      requires Valid() && freeList != []
      modifies this
      ensures Valid() && Abs() == DeleteHead(old(Abs())) && |freeList| < |old(freeList)|
    {
      DeleteHeadKeeps(Abs());
      var id := freeList[0];
      assert Without(freeList, id) == freeList[1..];
      assert InState(bufferQueueCache, id, Released);
      WithoutAbsent(freeList[1..], id);
      DeleteBufferInCacheNoWait(id);
      DeleteFreeListCacheLocked(id);
    }

    method DeleteOldestFrame()
      requires Valid() && freeList == [] && dirtyList != []
      modifies this
      ensures Valid() && Abs() == DeleteHead(old(Abs())) && |dirtyList| < |old(dirtyList)| && freeList == []
    {
      DeleteHeadKeeps(Abs());
      DeleteBufferInCacheNoWait(dirtyList[0]);
      dirtyList := dirtyList[1..];
    }

    /** The last loop of DeleteBuffersLocked, in the order of the map. */
    method MarkAll(count: int)
      modifies this`bufferQueueCache
      ensures bufferQueueCache == MarkLowest(old(bufferQueueCache), old(bufferQueueCache).Keys, count)
    {
      var todo, left := bufferQueueCache.Keys, count;
      while todo != {} && left > 0
        invariant todo <= bufferQueueCache.Keys
        invariant MarkLowest(bufferQueueCache, todo, left) == MarkLowest(old(bufferQueueCache), old(bufferQueueCache).Keys, count)
        decreases todo
      {
        var id := Least(todo);
        bufferQueueCache := bufferQueueCache[id := bufferQueueCache[id].(isDeleting := true)];
        left := left - 1;
        todo := todo - {id};
      }
    }

    // ---- acquiring ----

    method AcquireBuffer() returns (out: Outcome)
      requires Valid()
      modifies this
      ensures Valid() && Next(Abs(), out) == Acquire(old(Abs()))
    {
      AcquireKeeps(Abs());
      assert dirtyList != [] ==> InState(bufferQueueCache, dirtyList[0], Flushed);
      var buffer := PopFromDirtyListLocked();
      if buffer.None? { return Failed(NoBuffer); }
      SetState(buffer.value, Acquired);
      out := Took(buffer.value, bufferQueueCache[buffer.value].timestamp);
    }

    /** The oldest frame leaves the dirty list as Acquired. */
    method DropFirstDirtyBuffer(ghost s: Queue, ghost n: nat) returns (id: SeqNum)
      requires Frames(s) && n < |s.dirty| && Abs() == DropFront(s, n)
      modifies this
      ensures id == s.dirty[n] && s.dirty[..n + 1] == s.dirty[..n] + [id] && Abs() == DropFront(s, n + 1)
    {
      DropOneMore(s, n);
      id := dirtyList[0];
      SetState(id, Acquired);
      dirtyList := dirtyList[1..];
    }

    method DropBuffersByLevel() returns (dropBuffers: seq<SeqNum>)
      requires Valid()
      modifies this
      ensures Valid() && Next(Abs(), Dropped(dropBuffers)) == DropByLevel(old(Abs()))
    {
      ghost var s := Abs();
      DropNone(s);
      FramesPresent(s);
      dropBuffers := [];
      if opts.dropLevel <= 0 || |dirtyList| <= opts.dropLevel { return; }
      LevelDropKeeps(s);
      dropBuffers := DropOldest(s, |dirtyList| - opts.dropLevel);
    }

    /** The loop of DropBuffersByLevel. */
    method DropOldest(ghost s: Queue, dropCount: nat) returns (dropBuffers: seq<SeqNum>)
      requires Frames(s) && dropCount <= |s.dirty| && Abs() == s == DropFront(s, 0)
      modifies this
      ensures dropBuffers == s.dirty[..dropCount] && Abs() == DropFront(s, dropCount)
    {
      dropBuffers := [];
      var i := 0;
      while i < dropCount
        invariant i <= dropCount && dropBuffers == s.dirty[..i] && Abs() == DropFront(s, i)
      {
        if dirtyList == [] { break; }
        var front := DropFirstDirtyBuffer(s, i);
        dropBuffers := dropBuffers + [front];
        i := i + 1;
      }
    }

    /** The second locked region of the timed AcquireBuffer, with both readiness tests. */
    method SelectByTimestamp(due: int, useAuto: bool) returns (out: Outcome)
      requires Valid()
      modifies this
      ensures Valid() && Next(Abs(), out) == TimedSelect(old(Abs()), due, useAuto)
    {
      ghost var s := Abs();
      TimedSelectKeeps(s, due, useAuto);
      FramesPresent(s);
      DropNone(s);
      if dirtyList == [] { return Failed(NoBuffer); }
      var front := bufferQueueCache[dirtyList[0]];
      if !front.auto && front.desired > due && front.desired - ONE_SECOND <= due { return Failed(NotReady); }
      var dropBuffers, desired, auto := DropOutdated(s, due, useAuto);
      RunFound(s, |dropBuffers|, due, useAuto);
      if !auto && !PresentReady(desired, due) { return Failed(NotReady); }
      out := Dropped(dropBuffers);
    }

    /** The frame behind the front one. */
    method SecondFrame(ghost s: Queue, ghost n: nat) returns (second: Option<Element>)
      requires Frames(s) && n < |s.dirty| && Abs() == DropFront(s, n)
      ensures second.Some? <==> n + 1 < |s.dirty|
      ensures second.Some? ==> s.dirty[n + 1] in s.cache && second.value == s.cache[s.dirty[n + 1]]
    {
      if |dirtyList| == 1 { return None; }
      DropKeepsRest(s, n, n + 1);
      second := Some(bufferQueueCache[dirtyList[1]]);
    }

    /** The state of the drop loop after `n` drops; `desired` and `auto` are those of the frame in front. */
    ghost predicate Dropping(s: Queue, n: nat, due: int, useAuto: bool, desired: int, auto: bool)
      reads this
    {
      && Frames(s) && Outdated(s, n, due, useAuto) && Abs() == DropFront(s, n)
      && s.cache[s.dirty[n]].desired == desired && s.cache[s.dirty[n]].auto == auto
    }

    /** One round of the drop loop, entered with an eligible frame in front. */
    method DropIfNextOutdated(ghost s: Queue, ghost n: nat, due: int, useAuto: bool, desired: int, auto: bool)
      returns (dropped: Option<SeqNum>, desired': int, auto': bool)
      requires Dropping(s, n, due, useAuto, desired, auto) && !(auto && !useAuto) && desired <= due
      modifies this
      ensures if dropped.Some? then
                n + 1 < |s.dirty| && dropped.value == s.dirty[n] && s.dirty[..n + 1] == s.dirty[..n] + [dropped.value]
                && Dropping(s, n + 1, due, useAuto, desired', auto')
              else
                !Outdated(s, n + 1, due, useAuto) && Dropping(s, n, due, useAuto, desired', auto') && desired' == desired && auto' == auto
    {
      dropped, desired', auto' := None, desired, auto;
      var next := SecondFrame(s, n);
      if next.None? { return; }
      var second := next.value;
      if (second.auto && !useAuto) || second.desired > due { return; }
      OneMoreOutdated(s, n, due, useAuto);
      var id := DropFirstDirtyBuffer(s, n);
      dropped, desired', auto' := Some(id), second.desired, second.auto;
    }

    /** The drop loop of the timed AcquireBuffer. */
    method DropOutdated(ghost s: Queue, due: int, useAuto: bool) returns (dropBuffers: seq<SeqNum>, desired: int, auto: bool)
      requires Frames(s) && Outdated(s, 0, due, useAuto) && Abs() == DropFront(s, 0) && dirtyList == s.dirty && bufferQueueCache == s.cache
      modifies this
      ensures var n := |dropBuffers|;
              && Dropping(s, n, due, useAuto, desired, auto) && !Outdated(s, n + 1, due, useAuto) && dropBuffers == s.dirty[..n]
    {
      dropBuffers := [];
      desired, auto := bufferQueueCache[dirtyList[0]].desired, bufferQueueCache[dirtyList[0]].auto;
      while !(auto && !useAuto) && desired <= due
        invariant Dropping(s, |dropBuffers|, due, useAuto, desired, auto) && dropBuffers == s.dirty[..|dropBuffers|]
        decreases |s.dirty| - |dropBuffers|
      {
        var dropped;
        dropped, desired, auto := DropIfNextOutdated(s, |dropBuffers|, due, useAuto, desired, auto);
        if dropped.None? { break; }
        dropBuffers := dropBuffers + [dropped.value];
      }
      StopsHere(s, |dropBuffers|, due, useAuto);
    }

    method ReleaseDropBuffers(dropBuffers: seq<SeqNum>)
      requires Valid()
      modifies this
      ensures Valid() && Abs() == ReleaseAll(old(Abs()), dropBuffers)
    {
      var i := 0;
      while i < |dropBuffers|
        invariant i <= |dropBuffers| && Valid() && ReleaseAll(Abs(), dropBuffers[i..]) == ReleaseAll(old(Abs()), dropBuffers)
      {
        assert dropBuffers[i..][1..] == dropBuffers[i + 1..];
        var _ := ReleaseBuffer(dropBuffers[i]);
        i := i + 1;
      }
    }

    /** The timed AcquireBuffer, when nothing else runs between its locked regions. */
    method AcquireBufferTimed(due: int, useAuto: bool) returns (out: Outcome)
      requires Valid()
      modifies this
      ensures Valid() && Next(Abs(), out) == TimedAcquire(old(Abs()), due, useAuto)
    {
      if due <= 0 {
        out := AcquireBuffer();
        return;
      }
      if dirtyList == [] { return Failed(NoBuffer); }
      var dropBuffers := DropBuffersByLevel();
      ReleaseDropBuffers(dropBuffers);
      out := SelectByTimestamp(due, useAuto);
      if out.Failed? { return; }
      ReleaseDropBuffers(out.frames);
      out := AcquireBuffer();
    }

    // ---- releasing ----

    method ReleaseBufferLocked(id: SeqNum) returns (out: Outcome)
      requires Valid()
      modifies this
      ensures Valid() && Next(Abs(), out) == ReleaseLocked(old(Abs()), id)
    {
      ReleaseLockedKeeps(Abs(), id);
      if id !in bufferQueueCache { return Failed(NotInCache); }
      if bufferQueueCache[id].state != Acquired && bufferQueueCache[id].state != Attached { return Failed(StateInvalid); }
      SetState(id, Released);
      if bufferQueueCache[id].isDeleting {
        DeleteBufferInCacheNoWait(id);
      } else {
        freeList := freeList + [id];
      }
      out := Done;
    }

    /** The configurations of the first loop of RequestBuffersForListenerLocked. */
    method FreeListConfigs() returns (configs: seq<Config>)
      ensures configs == FreeConfigs(Abs(), 0, [])
    {
      configs := [];
      var i := 0;
      while i < |freeList|
        invariant i <= |freeList| && FreeConfigs(Abs(), i, configs) == FreeConfigs(Abs(), 0, [])
      {
        if freeList[i] in bufferQueueCache {
          var config := bufferQueueCache[freeList[i]].buffer.request;
          var isExist, k := false, 0;
          while k < |configs|
            invariant k <= |configs| && !isExist && forall j :: 0 <= j < k ==> !SameConfig(configs[j], config)
          {
            if SameConfig(configs[k], config) {
              isExist := true;
              break;
            }
            k := k + 1;
          }
          assert isExist <==> exists d :: d in configs && SameConfig(d, config) by {
            if isExist { assert configs[k] in configs; }
          }
          if !isExist { configs := configs + [config]; }
        }
        i := i + 1;
      }
    }

    method RequestBuffersForListenerLocked() returns (handed: seq<SeqNum>)
      requires Valid()
      modifies this
      ensures Valid() && Handed(Abs(), handed) == HandOut(old(Abs()))
    {
      handed := [];
      if freeList == [] { return; }
      var configs := FreeListConfigs();
      var configIndex := 0;
      while configIndex < |configs|
        invariant configIndex <= |configs| && Valid()
        invariant Prefixed(handed, HandOutLoop(Abs(), configs[configIndex..])) == HandOut(old(Abs()))
        decreases |freeList|, |configs| - configIndex
      {
        ghost var s, rest := Abs(), configs[configIndex..];
        HandOutRound(s, handed, rest);
        assert rest[1..] == configs[configIndex + 1..];
        var r := RequestBufferLocked(configs[configIndex], 0, true);
        ListenerRequestSize(s, configs[configIndex]);
        if r.Granted? {
          handed := handed + [r.id];
          HandKeeps(Abs(), r.id, opts.listenerPid);
          bufferQueueCache := bufferQueueCache[r.id := bufferQueueCache[r.id].(listenerPid := opts.listenerPid)];
        } else {
          configIndex := configIndex + 1;
        }
      }
    }

    /** ReleaseBuffer up to the end of its locked region. */
    method ReleaseBuffer(id: SeqNum) returns (out: Outcome)
      requires Valid()
      modifies this
      ensures Valid() && Next(Abs(), out) == Release(old(Abs()), id)
    {
      out := ReleaseBufferLocked(id);
      if out.Failed? { return; }
      var handed := [];
      if opts.handOut {
        handed := RequestBuffersForListenerLocked();
      }
      out := Returned(handed);
    }

    // ---- attaching and detaching ----

    method AttachBufferToQueueLocked(buffer: Buffer, invoker: Invoker) returns (out: Outcome)
      requires Valid() && buffer.id !in pending
      modifies this
      ensures Valid() && Next(Abs(), out) == AttachToQueue(old(Abs()), buffer, invoker)
    {
      AttachToQueueKeeps(Abs(), buffer, invoker);
      if invoker == Consumer && opts.handOut { return Failed(InvalidOperating); }
      if UsedSize() >= bufferQueueSize { return Failed(QueueFull); }
      if buffer.id in bufferQueueCache { return Failed(InCache); }
      var state := Requested;
      if invoker == Consumer {
        state := Acquired;
        if detachReserveSlotNum > 0 { detachReserveSlotNum := detachReserveSlotNum - 1; }
      }
      bufferQueueCache := bufferQueueCache[buffer.id := Element(buffer, state, false, buffer.request, false, 0, 0, false, 0)];
      out := Done;
    }

    method DetachBufferFromQueueLocked(id: SeqNum, invoker: Invoker, isReserveSlot: bool) returns (out: Outcome)
      requires Valid()
      modifies this
      ensures Valid() && Next(Abs(), out) == DetachFromQueue(old(Abs()), id, invoker, isReserveSlot)
    {
      DetachKeeps(Abs(), id, invoker, isReserveSlot);
      if id !in bufferQueueCache { return Failed(NotInCache); }
      if invoker == Producer {
        if bufferQueueCache[id].state != Requested { return Failed(StateInvalid); }
        bufferQueueCache := bufferQueueCache - {id};
      } else {
        if bufferQueueCache[id].state != Acquired { return Failed(StateInvalid); }
        DeleteBufferInCacheNoWait(id);
        if isReserveSlot { detachReserveSlotNum := (detachReserveSlotNum + 1) % U32; }
      }
      out := Done;
    }

    method AttachBuffer(buffer: Buffer) returns (out: Outcome)
      requires Valid() && buffer.id !in pending
      modifies this
      ensures Valid() && Next(Abs(), out) == QueueModel.AttachBuffer(old(Abs()), buffer)
    {
      AttachBufferKeeps(Abs(), buffer);
      if !opts.valid { return Failed(NoConsumer); }
      if !opts.listener { return Failed(NoListener); }
      if buffer.id in bufferQueueCache {
        if bufferQueueCache[buffer.id].state != Released { return Failed(StateInvalid); }
        SetState(buffer.id, Attached);
        DeleteFreeListCacheLocked(buffer.id);
        return Done;
      }
      out := InsertAttached(buffer);
    }

    /** The part of AttachBuffer for a buffer that is new to the queue. */
    method InsertAttached(buffer: Buffer) returns (out: Outcome)
      requires Valid() && opts.valid && opts.listener && buffer.id !in bufferQueueCache
      modifies this
      ensures Next(Abs(), out) == QueueModel.AttachBuffer(old(Abs()), buffer)
    {
      var element := Element(buffer, Attached, false, buffer.shape, false, 0, 0, false, 0);
      if UsedSize() >= bufferQueueSize {
        if |dirtyList| + |freeList| < UsedSize() - bufferQueueSize + 1 { return Failed(OutOfRange); }
        DeleteBuffersLocked(UsedSize() - bufferQueueSize + 1);
      }
      bufferQueueCache := bufferQueueCache[buffer.id := element];
      out := Done;
    }

    method DetachBuffer(id: SeqNum) returns (out: Outcome)
      requires Valid()
      modifies this
      ensures Valid() && Next(Abs(), out) == QueueModel.DetachBuffer(old(Abs()), id)
    {
      DetachKeeps(Abs(), id, Producer, false);
      if id !in bufferQueueCache { return Failed(NoEntry); }
      if bufferQueueCache[id].state != Requested && bufferQueueCache[id].state != Acquired { return Failed(NoEntry); }
      bufferQueueCache := bufferQueueCache - {id};
      out := Done;
    }

    /** AttachAndFlushBuffer: when the flush fails the attach is undone by hand. */
    method AttachAndFlushBuffer(buffer: Buffer, frame: Frame) returns (out: Outcome)
      requires Valid() && buffer.id !in pending
      modifies this
      ensures Valid() && Next(Abs(), out) == AttachAndFlush(old(Abs()), buffer, frame)
    {
      ghost var s := Abs();
      AttachAndFlushKeeps(s, buffer, frame);
      out := AttachBufferToQueueLocked(buffer, Producer);
      if out.Failed? { return; }
      AttachFlushRolledBack(s, buffer, frame);
      out := FlushBuffer(buffer.id, frame, false);
      if out.Failed? {
        dirtyList := Without(dirtyList, buffer.id);
        bufferQueueCache := bufferQueueCache - {buffer.id};
      }
    }

    // ---- resizing, clearing, cleaning ----

    method SetQueueSizeLocked(queueSize: u32) returns (out: Outcome)
      requires Valid()
      modifies this
      ensures Valid() && Next(Abs(), out) == QueueModel.SetQueueSizeLocked(old(Abs()), queueSize)
    {
      SetQueueSizeLockedKeeps(Abs(), queueSize);
      var size := queueSize;
      if maxQueueSize != 0 && size > maxQueueSize { size := maxQueueSize; }
      if size < detachReserveSlotNum { return Failed(InvalidArguments); }
      if bufferQueueSize > size { DeleteBuffersLocked(bufferQueueSize - size); }
      bufferQueueSize := size;
      out := Done;
    }

    method SetQueueSize(queueSize: u32) returns (out: Outcome)
      requires Valid()
      modifies this
      ensures Valid() && Next(Abs(), out) == QueueModel.SetQueueSize(old(Abs()), queueSize)
    {
      if queueSize == 0 || queueSize > MAX_QUEUE_SIZE { return Failed(InvalidArguments); }
      out := SetQueueSizeLocked(queueSize);
    }

    method SetMaxQueueSize(queueSize: u32) returns (out: Outcome)
      requires Valid()
      modifies this
      ensures Valid() && Next(Abs(), out) == QueueModel.SetMaxQueueSize(old(Abs()), queueSize)
    {
      SetMaxQueueSizeKeeps(Abs(), queueSize);
      if queueSize == 0 || queueSize > MAX_QUEUE_SIZE { return Failed(InvalidArguments); }
      maxQueueSize := queueSize;
      if bufferQueueSize > maxQueueSize {
        out := SetQueueSizeLocked(maxQueueSize);
        return;
      }
      out := Done;
    }

    /** ClearLocked once no allocation is announced. */
    method ClearLocked()
      modifies this
      ensures Valid() && Abs() == Clear(old(Abs()))
    {
      bufferQueueCache := map[];
      freeList, dirtyList, deletingList := [], [], [];
    }

    method SetProducerCacheCleanFlag(flag: bool)
      requires Valid()
      modifies this
      ensures Valid() && Abs() == SetCleanFlag(old(Abs()), flag)
    {
      if flag && opts.handOut { ClearLocked(); }
      producerCacheClean := flag;
      producerCacheList := [];
    }

    method CleanReleasedBuffersLocked() returns (cleanedSeqNums: seq<SeqNum>)
      requires Valid()
      modifies this
      ensures Valid() && Next(Abs(), Cleaned(cleanedSeqNums)) == CleanReleased(old(Abs()))
    {
      ghost var s := Abs();
      CleanReleasedKeeps(s);
      CleanUpToEnds(s);
      cleanedSeqNums := [];
      var i := 0;
      ghost var n := 0;
      while i < |freeList|
        invariant n <= |s.free| && i == |KeptFront(s, n)| && cleanedSeqNums == GoneFront(s, n) && Abs() == CleanUpTo(s, n)
        decreases |s.free| - n
      {
        i, cleanedSeqNums := CleanNext(s, n, i, cleanedSeqNums);
        n := n + 1;
      }
    }

    /** One round of that loop. */
    method CleanNext(ghost s: Queue, ghost n: nat, at: nat, gone: seq<SeqNum>) returns (i: nat, cleanedSeqNums: seq<SeqNum>)
      requires n < |s.free| && at == |KeptFront(s, n)| && gone == GoneFront(s, n) && Abs() == CleanUpTo(s, n)
      modifies this
      ensures i == |KeptFront(s, n + 1)| && cleanedSeqNums == GoneFront(s, n + 1) && Abs() == CleanUpTo(s, n + 1)
    {
      CleanUpToNext(s, n);
      i, cleanedSeqNums := at, gone;
      var id := freeList[i];
      if id == lastFlushedSequence || id == acquireLastFlushedBufSequence {
        i := i + 1;
      } else {
        cleanedSeqNums := cleanedSeqNums + [id];
        bufferQueueCache := bufferQueueCache - {id};
        freeList := freeList[..i] + freeList[i + 1..];
      }
    }

    method CleanProducerBySeqNum(seqNums: seq<SeqNum>)
      requires Valid()
      modifies this
      ensures Valid() && Abs() == CleanBySeqNum(old(Abs()), seqNums)
    {
      ghost var s := Abs();
      CleanBySeqNumKeeps(s, seqNums);
      CleanNone(s);
      var i := 0;
      while i < |seqNums|
        invariant i <= |seqNums| && Abs() == CleanBySeqNum(s, seqNums[..i])
      {
        CleanOneMore(s, seqNums, i);
        if seqNums[i] in bufferQueueCache {
          freeList := RemoveAll(freeList, seqNums[i]);
          dirtyList := RemoveAll(dirtyList, seqNums[i]);
          bufferQueueCache := bufferQueueCache - {seqNums[i]};
        }
        i := i + 1;
      }
      assert seqNums[..i] == seqNums;
    }

    /** PreAllocBuffers up to the end of its first region. */
    method PlanPreAlloc(config: Config, allocBufferCount: u32) returns (plan: Plan)
      ensures plan == PreAllocPlan(Abs(), config, allocBufferCount)
    {
      if config.width <= 0 || config.height <= 0 || config.format < 0 || config.format >= 0x7FFF_FFFF || allocBufferCount == 0 {
        return Refused(InvalidArguments);
      }
      var spare: nat := (FreeSlots() - UsedSize()) % U64;
      var count := if allocBufferCount > spare then spare else allocBufferCount;
      if count == 0 { return Refused(QueueFull); }
      return Allocate(count, WithUsage(config, opts.defaultUsage));
    }

    /** PreAllocBuffers once the buffers are allocated; `ready` lists them in the order of their numbers. */
    method InsertPreAllocated(config: Config, ready: seq<Spare>) returns (out: Outcome)
      requires Valid() && FreshAll(Abs(), ready)
      modifies this
      ensures Valid() && Next(Abs(), out) == PreAllocInsert(old(Abs()), config, ready)
    {
      PreAllocKeeps(Abs(), config, ready);
      var i := 0;
      while i < |ready|
        invariant i <= |ready| && PreAllocInsert(Abs(), config, ready[i..]) == PreAllocInsert(old(Abs()), config, ready)
      {
        if UsedSize() >= FreeSlots() { return Failed(QueueFull); }
        assert ready[i..][1..] == ready[i + 1..];
        var buffer := Buffer(ready[i].id, ready[i].token, config, config, false);
        bufferQueueCache := bufferQueueCache[ready[i].id := Element(buffer, Released, false, config, true, 0, 0, false, 0)];
        freeList := freeList + [ready[i].id];
        i := i + 1;
      }
      out := Done;
    }

    // ---- the last flushed buffer ----

    method AcquireLastFlushedBuffer() returns (out: Outcome)
      requires Valid()
      modifies this
      ensures Valid() && Next(Abs(), out) == LockLastFlushed(old(Abs()))
    {
      if acquireLastFlushedBufSequence != INVALID_SEQUENCE { return Failed(StateInvalid); }
      if lastFlushedSequence !in bufferQueueCache { return Failed(Unknown); }
      var element := bufferQueueCache[lastFlushedSequence];
      if element.state == Requested { return Failed(StateInvalid); }
      if element.buffer.shape.usage & USAGE_PROTECTED != 0 { return Failed(NotSupport); }
      acquireLastFlushedBufSequence := lastFlushedSequence;
      out := Took(lastFlushedSequence, 0);
    }

    method ReleaseLastFlushedBuffer(id: SeqNum) returns (out: Outcome)
      requires Valid()
      modifies this
      ensures Valid() && Next(Abs(), out) == UnlockLastFlushed(old(Abs()), id)
    {
      if acquireLastFlushedBufSequence == INVALID_SEQUENCE || acquireLastFlushedBufSequence != id {
        return Failed(StateInvalid);
      }
      acquireLastFlushedBufSequence := INVALID_SEQUENCE;
      out := Done;
    }
  }
}
