/** The partition invariant: every id of the cache is in exactly the list its state says,
    and every transition of every run keeps it so. */
module Partition {
  import opened Lists
  import opened QueueModel

  predicate InState(cache: map<SeqNum, Element>, q: SeqNum, st: BufferState) {
    q in cache && cache[q].state == st
  }

  /** What holds of one cache entry besides its list. */
  predicate Sound(e: Element, q: SeqNum, pending: map<SeqNum, Pending>) {
    e.buffer.id == q && (e.listenerPid != 0 ==> e.state == Requested) && q !in pending
  }

  ghost predicate ListsMatch(cache: map<SeqNum, Element>, free: seq<SeqNum>, dirty: seq<SeqNum>) {
    && NoDup(free) && NoDup(dirty)
    && (forall q :: q in free <==> InState(cache, q, Released))
    && (forall q :: q in dirty <==> InState(cache, q, Flushed))
  }

  ghost predicate Entries(cache: map<SeqNum, Element>, pending: map<SeqNum, Pending>) {
    forall q :: q in cache ==> Sound(cache[q], q, pending)
  }

  ghost predicate Inv(s: Queue) {
    ListsMatch(s.cache, s.free, s.dirty) && Entries(s.cache, s.pending)
  }

  /** The invariant while `x` is off its list, in the hands of the running operation. */
  ghost predicate Apart(s: Queue, x: SeqNum) {
    && x in s.cache
    && ListsMatch(s.cache - {x}, s.free, s.dirty)
    && Entries(s.cache, s.pending)
  }

  /** What PopFreeListLocked takes is an unlocked member, and nothing else leaves the list. */
  lemma PopShape(s: Queue, cfg: Config)
    requires NoDup(s.free)
    ensures var p := PopFree(s, cfg);
            if p.q.Some? then
              && p.q.value in s.free && p.q.value != s.locked
              && NoDup(p.free) && |p.free| == |s.free| - 1
              && forall x :: x in p.free <==> x in s.free && x != p.q.value
            else p.free == s.free
  {
    var p := PopFree(s, cfg);
    var k := FirstFit(s, cfg, 0);
    if k < |s.free| {
      RemoveAt(s.free, k);
    } else if p.q.Some? && s.free[0] == s.locked {
      RotateAndRemove(s.free);
    } else if p.q.Some? {
      RemoveFirst(s.free);
    }
  }

  lemma TakeOff(s: Queue, x: SeqNum, free: seq<SeqNum>, dirty: seq<SeqNum>)
    requires Inv(s) && x in s.cache && NoDup(free) && NoDup(dirty)
    requires forall q :: q in free <==> q in s.free && q != x
    requires forall q :: q in dirty <==> q in s.dirty && q != x
    ensures Apart(s.(free := free, dirty := dirty), x)
  {
    forall q ensures q in free <==> InState(s.cache - {x}, q, Released) {
      assert q != x ==> InState(s.cache - {x}, q, Released) == InState(s.cache, q, Released);
    }
    forall q ensures q in dirty <==> InState(s.cache - {x}, q, Flushed) {
      assert q != x ==> InState(s.cache - {x}, q, Flushed) == InState(s.cache, q, Flushed);
    }
  }

  lemma PopTakes(s: Queue, cfg: Config)
    requires Inv(s)
    ensures var p := PopFree(s, cfg);
            if p.q.Some? then
              Apart(s.(free := p.free), p.q.value) && s.cache[p.q.value].state == Released && p.q.value != s.locked
            else p.free == s.free
  {
    PopShape(s, cfg);
    var p := PopFree(s, cfg);
    if p.q.Some? {
      assert InState(s.cache, p.q.value, Released);
      assert p.q.value !in s.dirty;
      TakeOff(s, p.q.value, p.free, s.dirty);
      assert s.(free := p.free, dirty := s.dirty) == s.(free := p.free);
    }
  }

  /** The first flushed frame comes off its list. */
  lemma DirtyTakes(s: Queue)
    requires Inv(s) && s.dirty != []
    ensures Apart(s.(dirty := s.dirty[1..]), s.dirty[0]) && s.cache[s.dirty[0]].state == Flushed
  {
    var q := s.dirty[0];
    RemoveFirst(s.dirty);
    assert q in s.dirty && InState(s.cache, q, Flushed);
    assert q !in s.free;
    TakeOff(s, q, s.free, s.dirty[1..]);
    assert s.(free := s.free, dirty := s.dirty[1..]) == s.(dirty := s.dirty[1..]);
  }

  /** Entries in the other three states are on no list. */
  lemma OutsideApart(s: Queue, x: SeqNum)
    requires Inv(s) && x in s.cache && s.cache[x].state !in {Released, Flushed}
    ensures Apart(s, x)
  {
    TakeOff(s, x, s.free, s.dirty);
  }

  lemma DeleteKeeps(s: Queue, x: SeqNum)
    requires Apart(s, x)
    ensures Inv(DeleteInCache(s, x))
  {
    WithoutAbsent(s.free, x);
  }

  /** Putting `x` back with a state and the list that goes with it restores the invariant. */
  lemma PutBack(s: Queue, x: SeqNum, e: Element, free: seq<SeqNum>, dirty: seq<SeqNum>)
    requires Apart(s, x) && Sound(e, x, s.pending)
    requires free == if e.state == Released then s.free + [x] else s.free
    requires dirty == if e.state == Flushed then s.dirty + [x] else s.dirty
    ensures ListsMatch(s.cache[x := e], free, dirty) && Entries(s.cache[x := e], s.pending)
  {
    if e.state == Released { NoDupSnoc(s.free, x); }
    if e.state == Flushed { NoDupSnoc(s.dirty, x); }
    forall q ensures q in free <==> InState(s.cache[x := e], q, Released) {
      assert q != x ==> InState(s.cache - {x}, q, Released) == InState(s.cache[x := e], q, Released);
    }
    forall q ensures q in dirty <==> InState(s.cache[x := e], q, Flushed) {
      assert q != x ==> InState(s.cache - {x}, q, Flushed) == InState(s.cache[x := e], q, Flushed);
    }
  }

  /** A grant touches one cache entry and, when it is refused to a listener, the free list. */
  lemma GrantShape(s: Queue, x: SeqNum, realloc: bool, listener: bool)
    requires x in s.cache
    ensures var r := Grant(s, x, realloc, listener).q;
            && x in r.cache && r.cache == s.cache[x := r.cache[x]]
            && r.cache[x].buffer.id == s.cache[x].buffer.id && r.cache[x].listenerPid == s.cache[x].listenerPid
            && r.cache[x].state in {Released, Requested}
            && r.free == (if r.cache[x].state == Released then s.free + [x] else s.free)
            && r.dirty == s.dirty && r.pending == s.pending
  {
  }

  lemma GrantKeeps(s: Queue, x: SeqNum, realloc: bool, listener: bool)
    requires Apart(s, x) && s.cache[x].listenerPid == 0
    ensures Inv(Grant(s, x, realloc, listener).q)
  {
    GrantShape(s, x, realloc, listener);
    var r := Grant(s, x, realloc, listener).q;
    PutBack(s, x, r.cache[x], r.free, r.dirty);
  }

  lemma StartKeeps(s: Queue, n: SeqNum, cfg: Config, realloc: bool)
    requires Inv(s) && n !in s.cache
    ensures Inv(StartAlloc(s, n, cfg, realloc).q)
  {
  }

  lemma ReuseKeeps(s: Queue, x: SeqNum, cfg: Config, n: SeqNum, listener: bool)
    requires Apart(s, x) && s.cache[x].listenerPid == 0
    requires listener ==> s.cache[x].state == Released
    requires !listener ==> n !in s.cache
    ensures Inv(Reuse(s, x, cfg, n, listener).q)
  {
    if SameConfig(cfg, s.cache[x].config) {
      GrantKeeps(s, x, false, listener);
    } else if listener {
      PutBack(s, x, s.cache[x], s.free + [x], s.dirty);
      assert s.cache[x := s.cache[x]] == s.cache;
    } else {
      DeleteKeeps(s, x);
      StartKeeps(DeleteInCache(s, x), n, cfg, true);
    }
  }

  lemma StealKeeps(s: Queue, cfg: Config, n: SeqNum)
    requires Inv(s) && n !in s.cache
    ensures Inv(Steal(s, cfg, n).q)
  {
    if s.dirty != [] {
      DirtyTakes(s);
      ReuseKeeps(s.(dirty := s.dirty[1..]), s.dirty[0], cfg, n, false);
    }
  }

  lemma DequeueKeeps(s: Queue, cfg: Config, n: SeqNum, listener: bool)
    requires Inv(s)
    requires !listener ==> n !in s.cache
    ensures Inv(Dequeue(s, cfg, n, listener).q)
  {
    PopTakes(s, cfg);
    var p := PopFree(s, cfg);
    if p.q.Some? {
      ReuseKeeps(s.(free := p.free), p.q.value, cfg, n, listener);
    } else if !listener {
      StealKeeps(s, cfg, n);
    }
    if !listener { StartKeeps(s, n, cfg, false); }
  }

  lemma RequestKeeps(s: Queue, cfg: Config, n: SeqNum, listener: bool)
    requires Inv(s)
    requires !listener ==> n !in s.cache
    ensures Inv(Request(s, cfg, n, listener).q)
  {
    DequeueKeeps(s, WithDefault(s, cfg), n, listener);
  }

  lemma AfterWaitKeeps(s: Queue, cfg: Config, n: SeqNum)
    requires Inv(s) && n !in s.cache
    ensures Inv(AfterWait(s, cfg, n).q)
  {
    PopTakes(s, cfg);
    var p := PopFree(s, cfg);
    if p.q.Some? { ReuseKeeps(s.(free := p.free), p.q.value, cfg, n, false); }
  }

  /** A new entry in one of the three states without a list. */
  lemma InsertKeeps(s: Queue, n: SeqNum, e: Element)
    requires Inv(s) && n !in s.cache && e.state !in {Released, Flushed} && Sound(e, n, s.pending)
    ensures Inv(s.(cache := s.cache[n := e]))
  {
    forall q ensures InState(s.cache[n := e], q, Released) == InState(s.cache, q, Released)
      && InState(s.cache[n := e], q, Flushed) == InState(s.cache, q, Flushed) {
    }
  }

  lemma FinishKeeps(s: Queue, n: SeqNum, ok: bool, token: nat)
    requires Inv(s) && n in s.pending
    ensures Inv(FinishAlloc(s, n, ok, token).q)
  {
    var p := s.pending[n];
    var s1 := s.(allocating := false, pending := s.pending - {n});
    assert Inv(s1);
    if ok {
      var e := Element(Buffer(n, token, p.config, p.config, false), Requested, false, p.config, false, 0, 0, false, 0);
      var s2 := s1.(cache := s1.cache[n := e]);
      InsertKeeps(s1, n, e);
      OutsideApart(s2, n);
      GrantKeeps(s2, n, true, false);
    }
  }

  lemma CancelKeeps(s: Queue, q: SeqNum)
    requires Inv(s)
    ensures Inv(Cancel(s, q).q)
  {
    if q in s.cache && s.cache[q].state in {Requested, Attached} {
      OutsideApart(s, q);
      PutBack(s, q, s.cache[q].(state := Released, listenerPid := 0), s.free + [q], s.dirty);
    }
  }

  lemma FlushKeeps(s: Queue, q: SeqNum, f: Frame, plain: bool)
    requires Inv(s)
    ensures Inv(Flush(s, q, f, plain).q)
  {
    CancelKeeps(s, q);
    if q in s.cache && s.cache[q].state in {Requested, Attached} {
      OutsideApart(s, q);
      DeleteKeeps(s, q);
      PutBack(s, q, Stamp(s.cache[q].(state := Flushed, listenerPid := 0), f), s.free, s.dirty + [q]);
    }
  }

  lemma DropKeeps(s: Queue, n: nat)
    requires Inv(s) && n <= |s.dirty|
    ensures Inv(DropFront(s, n))
  {
    NoDupCut(s.dirty, n);
    var t := DropFront(s, n);
    forall q ensures InState(t.cache, q, Released) == InState(s.cache, q, Released)
      && InState(t.cache, q, Flushed) == (InState(s.cache, q, Flushed) && q !in s.dirty[..n]) {
    }
  }

  lemma AcquireKeeps(s: Queue)
    requires Inv(s)
    ensures Inv(Acquire(s).q)
  {
    if s.dirty != [] {
      DirtyTakes(s);
      PutBack(s.(dirty := s.dirty[1..]), s.dirty[0], s.cache[s.dirty[0]].(state := Acquired), s.free, s.dirty[1..]);
    }
  }

  lemma TimedSelectKeeps(s: Queue, due: int, useAuto: bool)
    requires Inv(s)
    ensures Inv(TimedSelect(s, due, useAuto).q)
  {
    if s.dirty != [] && s.dirty[0] in s.cache {
      var k := EligibleRun(s, 0, due, useAuto);
      if k != 0 { DropKeeps(s, k - 1); }
    }
  }

  lemma ReleaseLockedKeeps(s: Queue, q: SeqNum)
    requires Inv(s)
    ensures Inv(ReleaseLocked(s, q).q)
  {
    if q in s.cache && s.cache[q].state in {Acquired, Attached} {
      OutsideApart(s, q);
      var s1 := SetState(s, q, Released);
      assert s1.cache - {q} == s.cache - {q};
      DeleteKeeps(s1, q);
      PutBack(s, q, s1.cache[q], s.free + [q], s.dirty);
    }
  }

  lemma {:induction false} HandOutLoopKeeps(s: Queue, configs: seq<Config>)
    requires Inv(s)
    ensures Inv(HandOutLoop(s, configs).q)
    decreases |s.free|, |configs|
  {
    if configs != [] {
      ListenerRequestSize(s, configs[0]);
      RequestKeeps(s, configs[0], 0, true);
      var r := Request(s, configs[0], 0, true);
      if r.out.Granted? && r.out.id in r.q.cache {
        var q := r.out.id;
        GrantedIsRequested(s, configs[0]);
        HandKeeps(r.q, q, s.opts.listenerPid);
        HandOutLoopKeeps(r.q.(cache := r.q.cache[q := r.q.cache[q].(listenerPid := s.opts.listenerPid)]), configs);
      } else {
        HandOutLoopKeeps(r.q, configs[1..]);
      }
    }
  }

  lemma GrantedIsRequested(s: Queue, cfg: Config)
    requires Request(s, cfg, 0, true).out.Granted?
    ensures var r := Request(s, cfg, 0, true); InState(r.q.cache, r.out.id, Requested)
  {
  }

  lemma HandKeeps(s: Queue, q: SeqNum, pid: int)
    requires Inv(s) && InState(s.cache, q, Requested)
    ensures Inv(s.(cache := s.cache[q := s.cache[q].(listenerPid := pid)]))
  {
    RelabelKeeps(s, s.cache[q := s.cache[q].(listenerPid := pid)]);
  }

  lemma ReleaseKeeps(s: Queue, q: SeqNum)
    requires Inv(s)
    ensures Inv(Release(s, q).q)
  {
    ReleaseLockedKeeps(s, q);
    var r := ReleaseLocked(s, q);
    HandOutLoopKeeps(r.q, FreeConfigs(r.q, 0, []));
  }

  lemma AttachToQueueKeeps(s: Queue, b: Buffer, who: Invoker)
    requires Inv(s) && b.id !in s.pending
    ensures Inv(AttachToQueue(s, b, who).q)
  {
    var r := AttachToQueue(s, b, who);
    if r.out.Done? { InsertKeeps(s, b.id, r.q.cache[b.id]); }
  }

  lemma AttachAndFlushKeeps(s: Queue, b: Buffer, f: Frame)
    requires Inv(s) && b.id !in s.pending
    ensures Inv(AttachAndFlush(s, b, f).q)
  {
    AttachToQueueKeeps(s, b, Producer);
    FlushKeeps(AttachToQueue(s, b, Producer).q, b.id, f, false);
  }

  /** Erasing an entry that is on no list. */
  lemma EraseKeeps(s: Queue, q: SeqNum)
    requires Inv(s) && q in s.cache && s.cache[q].state !in {Released, Flushed}
    ensures Inv(Erase(s, q)) && Inv(DeleteInCache(s, q))
  {
    OutsideApart(s, q);
    DeleteKeeps(s, q);
  }

  lemma DetachKeeps(s: Queue, q: SeqNum, who: Invoker, reserve: bool)
    requires Inv(s)
    ensures Inv(DetachFromQueue(s, q, who, reserve).q)
    ensures Inv(DetachBuffer(s, q).q)
  {
    if q in s.cache && s.cache[q].state !in {Released, Flushed} { EraseKeeps(s, q); }
  }

  /** Changing only flags of entries, never their state. */
  lemma RelabelKeeps(s: Queue, cache: map<SeqNum, Element>)
    requires Inv(s) && cache.Keys == s.cache.Keys
    requires forall q :: q in cache ==> cache[q].state == s.cache[q].state && Sound(cache[q], q, s.pending)
    ensures Inv(s.(cache := cache))
  {
    forall q, st ensures InState(cache, q, st) == InState(s.cache, q, st) { }
  }

  lemma ConsumerAttachKeeps(s: Queue, b: Buffer)
    requires Inv(s) && b.id !in s.pending
    ensures Inv(ConsumerAttach(s, b).q)
  {
    AttachToQueueKeeps(s, b.(consumerAttach := true), Consumer);
    RelabelKeeps(s, Raised(s, b).cache);
  }

  lemma LowerFlagKeeps(s: Queue, q: SeqNum)
    requires Inv(s) && q in s.cache
    ensures Inv(LowerFlag(s, q).q)
  {
    RelabelKeeps(s, LowerFlag(s, q).q.cache);
  }

  lemma ConsumerDetachKeeps(s: Queue, q: SeqNum, reserve: bool)
    requires Inv(s)
    ensures Inv(ConsumerDetach(s, q, reserve).q)
  {
    var s1 := if q !in s.cache then s else
                s.(cache := s.cache[q := s.cache[q].(buffer := s.cache[q].buffer.(consumerAttach := false))]);
    RelabelKeeps(s, s1.cache);
    DetachKeeps(s1, q, Consumer, reserve);
  }

  lemma {:induction false} MarkLowestShape(cache: map<SeqNum, Element>, keys: set<SeqNum>, count: int)
    requires keys <= cache.Keys
    ensures var m := MarkLowest(cache, keys, count);
            m.Keys == cache.Keys
            && forall q :: q in cache ==> m[q] == cache[q] || m[q] == cache[q].(isDeleting := true)
    decreases keys
  {
    if count > 0 && keys != {} {
      var k := Least(keys);
      MarkLowestShape(cache[k := cache[k].(isDeleting := true)], keys - {k}, count - 1);
    }
  }

  lemma DeleteHeadKeeps(s: Queue)
    requires Inv(s) && (s.free != [] || s.dirty != [])
    ensures Inv(DeleteHead(s))
  {
    if s.free != [] {
      var q := s.free[0];
      RemoveFirst(s.free);
      assert q in s.free && InState(s.cache, q, Released);
      TakeOff(s, q, s.free[1..], s.dirty);
      DeleteKeeps(s.(free := s.free[1..], dirty := s.dirty), q);
      WithoutAbsent(s.free[1..], q);
    } else {
      DirtyTakes(s);
      DeleteKeeps(s.(dirty := s.dirty[1..]), s.dirty[0]);
    }
  }

  lemma {:induction false} DeleteBuffersKeeps(s: Queue, count: int)
    requires Inv(s)
    ensures var t := DeleteBuffers(s, count);
            Inv(t) && t.pending == s.pending && t.cache.Keys <= s.cache.Keys
    decreases |s.free| + |s.dirty|
  {
    if count <= 0 {
    } else if s.free == [] && s.dirty == [] {
      MarkLowestShape(s.cache, s.cache.Keys, count);
      RelabelKeeps(s, MarkLowest(s.cache, s.cache.Keys, count));
    } else {
      DeleteHeadKeeps(s);
      DeleteBuffersKeeps(DeleteHead(s), count - 1);
    }
  }

  lemma ResizeKeeps(s: Queue, m: u32)
    requires Inv(s)
    ensures Inv(s.(size := m))
  {
  }

  lemma SetQueueSizeLockedKeeps(s: Queue, n: u32)
    requires Inv(s)
    ensures Inv(SetQueueSizeLocked(s, n).q)
  {
    var m := Clamped(s, n);
    if m >= s.reserved {
      DeleteBuffersKeeps(s, s.size - m);
      ResizeKeeps(DeleteBuffers(s, s.size - m), m);
    }
  }

  lemma SetMaxQueueSizeKeeps(s: Queue, n: u32)
    requires Inv(s)
    ensures Inv(SetMaxQueueSize(s, n).q)
  {
    var t := s.(maxSize := n);
    assert Inv(t);
    SetQueueSizeLockedKeeps(t, n);
  }

  lemma AttachKnownKeeps(s: Queue, q: SeqNum)
    requires Inv(s) && q in s.cache && s.cache[q].state == Released
    ensures Inv(SetState(s, q, Attached).(free := Without(s.free, q)))
  {
    var free := Without(s.free, q);
    WithoutMembers(s.free, q);
    assert InState(s.cache, q, Released);
    TakeOff(s, q, free, s.dirty);
    PutBack(s.(free := free, dirty := s.dirty), q, s.cache[q].(state := Attached), free, s.dirty);
  }

  lemma AttachBufferKeeps(s: Queue, b: Buffer)
    requires Inv(s) && b.id !in s.pending
    ensures Inv(AttachBuffer(s, b).q)
  {
    if b.id in s.cache {
      if s.cache[b.id].state == Released { AttachKnownKeeps(s, b.id); }
    } else {
      var over := Used(s) - s.size + 1;
      var s1 := DeleteBuffers(s, over);
      DeleteBuffersKeeps(s, over);
      InsertKeeps(s1, b.id, Element(b, Attached, false, b.shape, false, 0, 0, false, 0));
    }
  }

  /** Filtering the lists by a test and the cache by the same test. */
  lemma PurgeKeeps(s: Queue, gone: set<SeqNum>, free: seq<SeqNum>, dirty: seq<SeqNum>)
    requires Inv(s) && NoDup(free) && NoDup(dirty)
    requires forall q :: q in free <==> q in s.free && q !in gone
    requires forall q :: q in dirty <==> q in s.dirty && q !in gone
    ensures Inv(s.(cache := s.cache - gone, free := free, dirty := dirty))
  {
    forall q, st ensures InState(s.cache - gone, q, st) <==> InState(s.cache, q, st) && q !in gone { }
  }

  lemma CleanReleasedKeeps(s: Queue)
    requires Inv(s)
    ensures Inv(CleanReleased(s).q)
  {
    var gone := Keep(s.free, (q: SeqNum) => !Spared(s, q));
    KeepMembers(s.free, (q: SeqNum) => !Spared(s, q));
    KeepMembers(s.free, (q: SeqNum) => Spared(s, q));
    forall q | q in s.dirty ensures q !in Elems(gone) { assert q !in s.free; }
    PurgeKeeps(s, Elems(gone), Keep(s.free, (q: SeqNum) => Spared(s, q)), s.dirty);
  }

  lemma CleanBySeqNumKeeps(s: Queue, ids: seq<SeqNum>)
    requires Inv(s)
    ensures Inv(CleanBySeqNum(s, ids))
  {
    var p := (q: SeqNum) => q !in ids || q !in s.cache;
    KeepMembers(s.free, p);
    KeepMembers(s.dirty, p);
    PurgeKeeps(s, Elems(ids), Keep(s.free, p), Keep(s.dirty, p));
  }

  lemma {:induction false} PreAllocKeeps(s: Queue, cfg: Config, ready: seq<Spare>)
    requires Inv(s) && FreshAll(s, ready)
    ensures Inv(PreAllocInsert(s, cfg, ready).q)
    decreases |ready|
  {
    if ready != [] && Used(s) < Room(s) {
      var p := ready[0];
      var s1 := s.(cache := s.cache[p.id := PreAllocElement(p, cfg)], free := s.free + [p.id]);
      assert Fresh(s, p.id);
      assert p.id !in s.free by { assert !InState(s.cache, p.id, Released); }
      NoDupSnoc(s.free, p.id);
      forall q ensures InState(s1.cache, q, Released) == (InState(s.cache, q, Released) || q == p.id)
        && InState(s1.cache, q, Flushed) == InState(s.cache, q, Flushed) {
      }
      assert FreshAll(s1, ready[1..]) by {
        forall i | 0 <= i < |ready[1..]| ensures Fresh(s1, ready[1..][i].id) { assert Fresh(s, ready[i + 1].id); }
      }
      PreAllocKeeps(s1, cfg, ready[1..]);
    }
  }

  predicate ByProducer(e: Event) {
    e.EvRequest? || e.EvDequeue? || e.EvAfterWait? || e.EvFinishAlloc? || e.EvCancel? || e.EvFlush? || e.EvAttachAndFlush?
    || e.EvProducerAttach? || e.EvProducerDetach? || e.EvPreAlloc?
  }

  lemma ProducerKeeps(s: Queue, e: Event)
    requires Inv(s) && Enabled(s, e) && ByProducer(e)
    ensures Inv(Step(s, e).q)
  {
    match e
    case EvRequest(c, n) => RequestKeeps(s, c, n, false);
    case EvDequeue(c, n) => DequeueKeeps(s, c, n, false);
    case EvAfterWait(c, n) => AfterWaitKeeps(s, c, n);
    case EvFinishAlloc(n, ok, t) => FinishKeeps(s, n, ok, t);
    case EvCancel(q) => CancelKeeps(s, q);
    case EvFlush(q, f) => FlushKeeps(s, q, f, true);
    case EvAttachAndFlush(b, f) => AttachAndFlushKeeps(s, b, f);
    case EvProducerAttach(b) => AttachToQueueKeeps(s, b, Producer);
    case EvProducerDetach(q) => DetachKeeps(s, q, Producer, false);
    case EvPreAlloc(c, ready) => PreAllocKeeps(s, c, ready);
  }

  lemma OthersKeep(s: Queue, e: Event)
    requires Inv(s) && Enabled(s, e) && !ByProducer(e)
    ensures Inv(Step(s, e).q)
  {
    match e
    case EvAcquire => AcquireKeeps(s);
    case EvDropByLevel => if |s.dirty| > s.opts.dropLevel > 0 { DropKeeps(s, |s.dirty| - s.opts.dropLevel); }
    case EvTimedSelect(x, a) => TimedSelectKeeps(s, x, a);
    case EvRelease(q) => ReleaseKeeps(s, q);
    case EvConsumerAttach(b) => ConsumerAttachKeeps(s, b);
    case EvConsumerDetach(q, r) => ConsumerDetachKeeps(s, q, r);
    case EvAttachBuffer(b) => AttachBufferKeeps(s, b);
    case EvDetachBuffer(q) => DetachKeeps(s, q, Producer, false);
    case EvSetQueueSize(n) => SetQueueSizeLockedKeeps(s, n);
    case EvSetMaxQueueSize(n) => SetMaxQueueSizeKeeps(s, n);
    case EvClear =>
    case EvSetCleanFlag(_) =>
    case EvCleanReleased => CleanReleasedKeeps(s);
    case EvCleanBySeqNum(ids) => CleanBySeqNumKeeps(s, ids);
    case EvLock =>
    case EvUnlock(_) =>
    case EvConfigure(_) =>
    case EvLowerFlag(q) => LowerFlagKeeps(s, q);
    case EvTurnedAway =>
  }

  /** Every transition keeps the partition. */
  lemma StepKeeps(s: Queue, e: Event)
    requires Inv(s) && Enabled(s, e)
    ensures Inv(Step(s, e).q)
  {
    if ByProducer(e) { ProducerKeeps(s, e); } else { OthersKeep(s, e); }
  }

  /** In every reachable state each id is in exactly the list its state says. */
  lemma {:induction false} RunKeeps(s: Queue, es: seq<Event>)
    requires Inv(s) && CanRun(s, es)
    ensures Inv(Run(s, es))
    decreases |es|
  {
    if es != [] {
      StepKeeps(s, es[0]);
      RunKeeps(Step(s, es[0]).q, es[1..]);
    }
  }

  /** A new queue holds nothing, has three slots, no maximum and no reservation, and is not locked. */
  lemma InitialInv(opts: Settings)
    ensures Inv(Initial(opts))
    ensures var s := Initial(opts);
            && |s.cache| == 0 && Room(s) == 3 && Clamped(s, 64) == 64 && s.free + s.dirty == [] && s.deleting == []
            && s.locked == 0xFFFF_FFFF && !s.cacheClean && s.resent == [] && !s.allocating && s.pending == map[] && s.opts == opts
  {
  }

  function Of(cache: map<SeqNum, Element>, st: BufferState): set<SeqNum> {
    set q | q in cache && cache[q].state == st
  }

  lemma DisjointUnion(a: set<SeqNum>, b: set<SeqNum>)
    requires a !! b
    ensures |a + b| == |a| + |b|
  {
  }

  lemma DisjointFive(a: set<SeqNum>, b: set<SeqNum>, c: set<SeqNum>, d: set<SeqNum>, e: set<SeqNum>)
    requires a !! b !! c !! d !! e
    ensures |a + b + c + d + e| == |a| + |b| + |c| + |d| + |e|
  {
    DisjointUnion(a, b);
    DisjointUnion(a + b, c);
    DisjointUnion(a + b + c, d);
    DisjointUnion(a + b + c + d, e);
  }

  lemma StatesCover(cache: map<SeqNum, Element>)
    ensures Of(cache, Released) !! Of(cache, Requested) !! Of(cache, Flushed) !! Of(cache, Acquired) !! Of(cache, Attached)
    ensures cache.Keys == Of(cache, Released) + Of(cache, Requested) + Of(cache, Flushed) + Of(cache, Acquired) + Of(cache, Attached)
  {
    forall x | x in cache ensures x in Of(cache, cache[x].state) { }
  }

  lemma SplitByState(cache: map<SeqNum, Element>)
    ensures |cache| == |Of(cache, Released)| + |Of(cache, Requested)| + |Of(cache, Flushed)|
                       + |Of(cache, Acquired)| + |Of(cache, Attached)|
  {
    StatesCover(cache);
    DisjointFive(Of(cache, Released), Of(cache, Requested), Of(cache, Flushed), Of(cache, Acquired), Of(cache, Attached));
    assert |cache| == |cache.Keys|;
  }

  /** The cache is the disjoint union of the two lists and the three states without a list. */
  lemma CacheSize(s: Queue)
    requires Inv(s)
    ensures Used(s) == |s.free| + |s.dirty| + |Of(s.cache, Requested)| + |Of(s.cache, Acquired)| + |Of(s.cache, Attached)|
  {
    SplitByState(s.cache);
    NoDupCardinality(s.free);
    NoDupCardinality(s.dirty);
    forall q ensures (q in s.free <==> q in Of(s.cache, Released)) && (q in s.dirty <==> q in Of(s.cache, Flushed)) {
      assert q in s.free <==> InState(s.cache, q, Released);
      assert q in s.dirty <==> InState(s.cache, q, Flushed);
    }
    assert Elems(s.free) == Of(s.cache, Released) && Elems(s.dirty) == Of(s.cache, Flushed);
  }
}
