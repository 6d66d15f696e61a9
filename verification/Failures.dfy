/** Inputs that break a promise: short runs from an empty queue, every call of which is accepted or
    refused as the code does it. The exact conditions are in modules Coherence, Ledgers and Deletions. */
module Failures {
  import opened Lists
  import opened QueueModel
  import opened Partition
  import opened HandOuts
  import opened Protocols
  import opened Deletions
  import opened CacheProtocol
  import opened Coherence
  import opened Ledgers

  const CFG := Config(1, 1, 0, 0, 0, 0)
  const FRAME := Frame(1, 0, 0, true, true)

  /** A queue with a consumer that listens, in blocking mode. */
  const PLAIN := Settings(false, false, true, false, true, 0, 0, false, 0)
  /** The same in listener mode. */
  const LISTENING := Settings(false, false, true, false, true, 0, 0, true, 7)

  function Buf(id: SeqNum): Buffer { Buffer(id, id, CFG, CFG, false) }

  function By(producer: bool, e: Event): Move { Move(e, producer, true) }

  /** An entry as an attach makes it, in some state and with some attach flag. */
  function Entry(id: SeqNum, st: BufferState, flag: bool): Element {
    Element(Buf(id).(consumerAttach := flag), st, false, CFG, false, 0, 0, false, 0)
  }

  function Start(opts: Settings): System { System(Initial(opts), map[]) }

  /** `trace` lists the states of the run. */
  ghost predicate Follows(trace: seq<System>, ms: seq<Move>) {
    |trace| == |ms| + 1 && forall k :: 0 <= k < |ms| ==> Goes(trace[k], ms[k], trace[k + 1])
  }

  predicate Goes(y: System, m: Move, z: System) { Enabled(y.s, m.event) && Advance(y, m) == z }

  lemma {:induction false} FollowsAll(trace: seq<System>, ms: seq<Move>)
    requires Follows(trace, ms)
    ensures CanAdvance(trace[0], ms) && AdvanceAll(trace[0], ms) == trace[|ms|]
    decreases |ms|
  {
    if ms != [] {
      assert Goes(trace[0], ms[0], trace[1]);
      assert Follows(trace[1..], ms[1..]) by {
        forall k | 0 <= k < |ms[1..]| ensures Goes(trace[1..][k], ms[1..][k], trace[1..][k + 1]) { assert Goes(trace[k + 1], ms[k + 1], trace[k + 2]); }
      }
      FollowsAll(trace[1..], ms[1..]);
    }
  }

  /** The run ends with the number `q` in the queue, unknown to the producer and not about to be sent. */
  ghost predicate Forgotten(y: System, ms: seq<Move>, q: SeqNum) {
    CanAdvance(y, ms) &&
    var z := AdvanceAll(y, ms);
    q in z.s.cache && q !in z.c && !MustSend(z.s, q) && !Coherent(z.s, z.c)
  }

  lemma TraceForgets(trace: seq<System>, ms: seq<Move>, q: SeqNum)
    requires Follows(trace, ms)
    requires var z := trace[|ms|]; q in z.s.cache && q !in z.c && !MustSend(z.s, q)
    ensures Forgotten(trace[0], ms, q)
  {
    FollowsAll(trace, ms);
    assert !Covered(trace[|ms|].s, trace[|ms|].c, q);
  }

  /** One buffer attached by the producer. */
  lemma AttachFirst(y: System)
    requires y == System(One(1, Requested, false, [], []).s, map[1 := Buf(1)])
    ensures Goes(Start(PLAIN), By(true, EvProducerAttach(Buf(1))), y)
  {
  }

  // ---- a consumer attaches a buffer again before its deletion was delivered ----

  /** The use of a reserved slot: attach, detach with a reserved slot, attach again. */
  const REATTACH: seq<Move> := [By(false, EvConsumerAttach(Buf(5))), By(false, EvConsumerDetach(5, true)),
                                By(false, EvConsumerAttach(Buf(5))), By(false, EvRelease(5)), By(true, EvRequest(CFG, 6))]

  /** The reply to the request carries the buffer and the report of its own deletion; the producer
      caches it and erases it again, and the queue will never send it. */
  lemma ReattachForgets()
    ensures Forgotten(Start(PLAIN), REATTACH, 5)
  {
    var s := Initial(PLAIN);
    var y1, y3 := One(5, Acquired, true, [], []), One(5, Acquired, true, [], [5]);
    var y2 := System(s.(deleting := [5], reserved := 1), map[]);
    var y4, y5 := One(5, Released, true, [5], [5]), One(5, Requested, false, [], []);
    ReattachTwice(y1, y2, y3);
    ReleaseOf(y3, y4, [5]);
    RequestOf(y4, y5);
    TraceForgets([Start(PLAIN), y1, y2, y3, y4, y5], REATTACH, 5);
  }

  /** A queue that holds one buffer, of which the producer knows nothing. */
  function One(id: SeqNum, st: BufferState, flag: bool, free: seq<SeqNum>, deleting: seq<SeqNum>): System {
    System(Initial(PLAIN).(cache := map[id := Entry(id, st, flag)], free := free, deleting := deleting), map[])
  }

  lemma ReattachTwice(y1: System, y2: System, y3: System)
    requires y1 == One(5, Acquired, true, [], []) && y3 == One(5, Acquired, true, [], [5])
    requires y2 == System(Initial(PLAIN).(deleting := [5], reserved := 1), map[])
    ensures Goes(Start(PLAIN), By(false, EvConsumerAttach(Buf(5))), y1) && Goes(y1, By(false, EvConsumerDetach(5, true)), y2) && Goes(y2, By(false, EvConsumerAttach(Buf(5))), y3)
  {
  }

  lemma ReleaseOf(y: System, z: System, deleting: seq<SeqNum>)
    requires y == One(5, Acquired, true, [], deleting) && z == One(5, Released, true, [5], deleting)
    ensures Goes(y, By(false, EvRelease(5)), z)
  {
  }

  lemma RequestOf(y: System, z: System)
    requires y == One(5, Released, true, [5], [5]) && z == One(5, Requested, false, [], [])
    ensures Goes(y, By(true, EvRequest(CFG, 6)), z)
  {
    assert WithDefault(y.s, CFG) == CFG;
    assert Fits(y.s, 5, CFG) && FirstFit(y.s, CFG, 0) == 0;
    assert PopFree(y.s, CFG) == Popped(Some(5), []);
    assert Request(y.s, CFG, 6, false) == Next(z.s, Granted(5, Some(Buf(5)), [5]));
  }

  // ---- AttachBuffer ----

  const FULL_CACHE: seq<Move> := [By(true, EvProducerAttach(Buf(1))), By(true, EvProducerAttach(Buf(2))), By(true, EvProducerAttach(Buf(3))),
                                  By(true, EvFlush(1, FRAME)), By(true, EvAttachBuffer(Buf(4)))]

  /** AttachBuffer evicts one flushed buffer, and empties the producer's cache of the others too. */
  lemma FullCacheForgets()
    ensures Forgotten(Start(PLAIN), FULL_CACHE, 2)
  {
    var s := Initial(PLAIN);
    var e1, e2, e3, e4 := Entry(1, Requested, false), Entry(2, Requested, false), Entry(3, Requested, false), Entry(4, Attached, false);
    var y1 := System(s.(cache := map[1 := e1]), map[1 := Buf(1)]);
    var y2 := System(s.(cache := map[1 := e1, 2 := e2]), map[1 := Buf(1), 2 := Buf(2)]);
    var y3 := System(s.(cache := map[1 := e1, 2 := e2, 3 := e3]), map[1 := Buf(1), 2 := Buf(2), 3 := Buf(3)]);
    var y4 := System(s.(cache := map[1 := e1.(state := Flushed, desired := 1), 2 := e2, 3 := e3], dirty := [1], lastFlushed := 1), y3.c);
    var y5 := System(y4.s.(cache := map[2 := e2, 3 := e3, 4 := e4], dirty := [], deleting := [1]), map[4 := Buf(4)]);
    ThreeAttached(y1, y2, y3);
    FlushOf(y3, y4);
    AttachOf(y4, y5);
    TraceForgets([Start(PLAIN), y1, y2, y3, y4, y5], FULL_CACHE, 2);
  }

  lemma ThreeAttached(y1: System, y2: System, y3: System)
    requires y1 == System(Initial(PLAIN).(cache := map[1 := Entry(1, Requested, false)]), map[1 := Buf(1)])
    requires y2 == System(y1.s.(cache := y1.s.cache[2 := Entry(2, Requested, false)]), y1.c[2 := Buf(2)])
    requires y3 == System(y2.s.(cache := y2.s.cache[3 := Entry(3, Requested, false)]), y2.c[3 := Buf(3)])
    ensures Goes(Start(PLAIN), By(true, EvProducerAttach(Buf(1))), y1) && Goes(y1, By(true, EvProducerAttach(Buf(2))), y2) && Goes(y2, By(true, EvProducerAttach(Buf(3))), y3)
  {
  }

  lemma FlushOf(y: System, z: System)
    requires y.s == Initial(PLAIN).(cache := y.s.cache) && 1 in y.s.cache && y.s.cache[1] == Entry(1, Requested, false)
    requires z == System(y.s.(cache := y.s.cache[1 := Entry(1, Flushed, false).(desired := 1)], dirty := [1], lastFlushed := 1), y.c)
    ensures Goes(y, By(true, EvFlush(1, FRAME)), z)
  {
  }

  lemma AttachOf(y: System, z: System)
    requires y.s == Initial(PLAIN).(cache := map[1 := Entry(1, Flushed, false).(desired := 1), 2 := Entry(2, Requested, false), 3 := Entry(3, Requested, false)],
                                    dirty := [1], lastFlushed := 1)
    requires y.c == map[1 := Buf(1), 2 := Buf(2), 3 := Buf(3)]
    requires z.s == y.s.(cache := map[2 := Entry(2, Requested, false), 3 := Entry(3, Requested, false), 4 := Entry(4, Attached, false)],
                         dirty := [], deleting := [1])
    requires z.c == map[4 := Buf(4)]
    ensures Goes(y, By(true, EvAttachBuffer(Buf(4))), z)
  {
    assert |y.c| == 3;
    EvictAttach(y.s, z.s);
    assert AddAttached(y.c, Buf(4), 3) == z.c;
  }

  lemma EvictAttach(s: Queue, t: Queue)
    requires s == Initial(PLAIN).(cache := map[1 := Entry(1, Flushed, false).(desired := 1), 2 := Entry(2, Requested, false), 3 := Entry(3, Requested, false)],
                                  dirty := [1], lastFlushed := 1)
    requires t == s.(cache := map[2 := Entry(2, Requested, false), 3 := Entry(3, Requested, false), 4 := Entry(4, Attached, false)],
                     dirty := [], deleting := [1])
    ensures AttachBuffer(s, Buf(4)) == Next(t, Done)
  {
    assert |s.cache| == 3;
    EvictOf(s);
  }

  lemma EvictOf(s: Queue)
    requires s == Initial(PLAIN).(cache := map[1 := Entry(1, Flushed, false).(desired := 1), 2 := Entry(2, Requested, false), 3 := Entry(3, Requested, false)],
                                  dirty := [1], lastFlushed := 1)
    ensures DeleteBuffers(s, 1) == s.(cache := map[2 := Entry(2, Requested, false), 3 := Entry(3, Requested, false)], dirty := [], deleting := [1])
  {
    var d := DeleteHead(s);
    assert d == s.(cache := map[2 := Entry(2, Requested, false), 3 := Entry(3, Requested, false)], dirty := [], deleting := [1]);
    assert DeleteBuffers(s, 1) == DeleteBuffers(d, 0) == d;
  }

  const UNSENT: seq<Move> := [By(false, EvAttachBuffer(Buf(4)))]

  /** A buffer attached by the consumer is not marked for sending. */
  lemma ConsumerAttachForgets()
    ensures Forgotten(Start(PLAIN), UNSENT, 4)
  {
    var y1 := One(4, Attached, false, [], []);
    assert Goes(Start(PLAIN), By(false, EvAttachBuffer(Buf(4))), y1);
    TraceForgets([Start(PLAIN), y1], UNSENT, 4);
  }

  // ---- a refused detach, a lowered flag ----

  const REFUSED: seq<Move> := [By(false, EvConsumerAttach(Buf(5))), By(false, EvRelease(5)), By(false, EvConsumerDetach(5, true))]

  /** The queue refuses to detach a released buffer, whose attach flag is gone all the same. */
  lemma RefusedDetachForgets()
    ensures Forgotten(Start(PLAIN), REFUSED, 5)
  {
    var y1, y2, y3 := One(5, Acquired, true, [], []), One(5, Released, true, [5], []), One(5, Released, false, [5], []);
    ConsumerAttachOf(y1);
    ReleaseOf(y1, y2, []);
    DetachRefusedOf(y2, y3);
    TraceForgets([Start(PLAIN), y1, y2, y3], REFUSED, 5);
  }

  lemma ConsumerAttachOf(y: System)
    requires y == One(5, Acquired, true, [], [])
    ensures Goes(Start(PLAIN), By(false, EvConsumerAttach(Buf(5))), y)
  {
  }

  lemma DetachRefusedOf(y: System, z: System)
    requires y == One(5, Released, true, [5], []) && z == One(5, Released, false, [5], [])
    ensures Goes(y, By(false, EvConsumerDetach(5, true)), z)
  {
  }

  const LOWERED: seq<Move> := [By(true, EvProducerAttach(Buf(1))), By(true, EvSetCleanFlag(true)), By(true, EvSetCleanFlag(false))]

  /** A flag that is lowered before everything was sent. In this repository only the consumer's
      GoBackground lowers it by a call, right after a clear, where the condition holds. */
  lemma LoweredFlagForgets()
    ensures Forgotten(Start(PLAIN), LOWERED, 1)
  {
    var y3 := One(1, Requested, false, [], []);
    var y1, y2 := System(y3.s, map[1 := Buf(1)]), System(y3.s.(cacheClean := true), map[]);
    AttachFirst(y1);
    FlagOf(y1, y2, true);
    FlagOf(y2, y3, false);
    TraceForgets([Start(PLAIN), y1, y2, y3], LOWERED, 1);
  }

  lemma FlagOf(y: System, z: System, flag: bool)
    requires !y.s.allocating && z == System(y.s.(cacheClean := flag, resent := []), if flag then map[] else y.c)
    ensures Goes(y, By(true, EvSetCleanFlag(flag)), z)
  {
  }

  // ---- a call that is turned away ----

  const TURNED_AWAY: seq<Move> := [By(true, EvProducerAttach(Buf(1))), By(true, EvTurnedAway)]

  /** Attaching does not connect the producer, so its GoBackground is turned away, but only after it
      has emptied its cache. */
  lemma TurnedAwayForgets()
    ensures Forgotten(Start(PLAIN), TURNED_AWAY, 1)
  {
    var y2 := One(1, Requested, false, [], []);
    var y1 := System(y2.s, map[1 := Buf(1)]);
    AttachFirst(y1);
    TurnedAwayOf(y1, y2);
    TraceForgets([Start(PLAIN), y1, y2], TURNED_AWAY, 1);
  }

  lemma TurnedAwayOf(y: System, z: System)
    requires z == System(y.s, map[])
    ensures Goes(y, By(true, EvTurnedAway), z)
  {
  }

  // ---- a grant that waits to lower the clean flag ----

  const OTHER := CFG.(width := 2)

  /** On a queue of two, a request waits; the producer drops its cache; one buffer it cancels goes to
      a request that reallocates it, the other to the first request when that wakes up. */
  const FILL: seq<Move> := [By(false, EvSetQueueSize(2)), By(true, EvProducerAttach(Buf(1))), By(true, EvProducerAttach(Buf(2))),
                            By(true, EvRequest(CFG, 8))]
  const SWAP: seq<Move> := [By(true, EvSetCleanFlag(true)), By(true, EvCancel(1)), By(true, EvRequest(OTHER, 7)), By(true, EvCancel(2))]
  const WAKE: seq<Move> := [By(true, EvAfterWait(CFG, 8)), By(false, EvAttachBuffer(Buf(4))), By(true, EvFinishAlloc(7, false, 0)),
                            By(true, EvLowerFlag(2))]

  function Late(cache: map<SeqNum, Element>, free: seq<SeqNum>): Queue { Initial(PLAIN).(size := 2, cache := cache, free := free) }

  /** Both buffers with the producer, which has dropped its cache. */
  function Emptied(): Queue { Late(map[1 := Entry(1, Requested, false), 2 := Entry(2, Requested, false)], []).(cacheClean := true) }

  /** The first is given back. */
  function Free1(): Queue {
    Emptied().(cache := map[1 := Entry(1, Released, false), 2 := Entry(2, Requested, false)], free := [1])
  }

  /** It is being reallocated; the second is as `st` says. */
  function Realloc(st: BufferState): Queue {
    Emptied().(cache := map[2 := Entry(2, st, false)], free := if st == Released then [2] else [], deleting := [1],
                allocating := true, pending := map[7 := Pending(OTHER, true)])
  }

  /** The second is granted, and the list of sent ids is complete. */
  function Waiting(): Queue { Realloc(Requested).(deleting := [], resent := [2], lowering := [2]) }

  function Joined(): Queue { Waiting().(cache := map[2 := Entry(2, Requested, false), 4 := Entry(4, Attached, false)]) }

  function Filled(): System { System(Emptied().(cacheClean := false), map[1 := Buf(1), 2 := Buf(2)]) }

  function Swapped(): System { System(Realloc(Released), map[]) }

  function Lowered(): System {
    System(Joined().(allocating := false, pending := map[], cacheClean := false, resent := [], lowering := []), map[2 := Buf(2)])
  }

  /** While it waits for the allocation before it lowers the flag, the consumer attaches a buffer. */
  lemma LateLoweringForgets()
    ensures Forgotten(Start(PLAIN), FILL + (SWAP + WAKE), 4)
  {
    LateFills();
    LateSwaps();
    LateEndsIn();
    InThree(Start(PLAIN), FILL, Filled(), SWAP, Swapped(), WAKE, Lowered(), 4);
  }

  lemma InThree(y: System, a: seq<Move>, z: System, b: seq<Move>, u: System, c: seq<Move>, v: System, q: SeqNum)
    requires CanAdvance(y, a) && AdvanceAll(y, a) == z && CanAdvance(z, b) && AdvanceAll(z, b) == u
    requires CanAdvance(u, c) && AdvanceAll(u, c) == v
    requires q in v.s.cache && q !in v.c && !MustSend(v.s, q)
    ensures Forgotten(y, a + (b + c), q)
  {
    AdvanceConcat(z, b, c);
    AdvanceConcat(y, a, b + c);
    assert !Covered(v.s, v.c, q);
  }

  lemma LateFills()
    ensures CanAdvance(Start(PLAIN), FILL) && AdvanceAll(Start(PLAIN), FILL) == Filled()
  {
    var y1, y2 := System(Late(map[], []), map[]), System(Late(map[1 := Entry(1, Requested, false)], []), map[1 := Buf(1)]);
    LateBegins(y1, y2, Filled());
    LateBlocks(Filled());
    FollowsAll([Start(PLAIN), y1, y2, Filled(), Filled()], FILL);
  }

  lemma LateSwaps()
    ensures CanAdvance(Filled(), SWAP) && AdvanceAll(Filled(), SWAP) == Swapped()
  {
    var y5, y6, y7 := System(Emptied(), map[]), System(Free1(), map[]), System(Realloc(Requested), map[]);
    LateDrops(Filled(), y5, y6);
    LateReallocates(y6, y7);
    LateGivesBack(y7, Swapped());
    FollowsAll([Filled(), y5, y6, y7, Swapped()], SWAP);
  }

  lemma LateEndsIn()
    ensures CanAdvance(Swapped(), WAKE) && AdvanceAll(Swapped(), WAKE) == Lowered()
  {
    var c: Cache := map[2 := Buf(2)];
    var y9, y10, y11 := System(Waiting(), c), System(Joined(), c), System(Joined().(allocating := false, pending := map[]), c);
    LateWakes(Swapped(), y9);
    LateJoins(y9, y10);
    LateFails(y10, y11);
    LateLowers(y11, Lowered());
    FollowsAll([Swapped(), y9, y10, y11, Lowered()], WAKE);
  }

  lemma LateBegins(y1: System, y2: System, y3: System)
    requires y1 == System(Late(map[], []), map[])
    requires y2 == System(Late(map[1 := Entry(1, Requested, false)], []), map[1 := Buf(1)])
    requires y3 == Filled()
    ensures Goes(Start(PLAIN), By(false, EvSetQueueSize(2)), y1) && Goes(y1, By(true, EvProducerAttach(Buf(1))), y2) && Goes(y2, By(true, EvProducerAttach(Buf(2))), y3)
  {
    var s := Initial(PLAIN);
    assert MarkLowest(s.cache, s.cache.Keys, 1) == map[];
    assert DeleteBuffers(s, 1) == s;
    assert SetQueueSize(s, 2) == Next(y1.s, Done);
  }

  lemma LateDrops(y3: System, y5: System, y6: System)
    requires y3 == Filled()
    requires y5 == System(Emptied(), map[]) && y6 == System(Free1(), map[])
    ensures Goes(y3, By(true, EvSetCleanFlag(true)), y5) && Goes(y5, By(true, EvCancel(1)), y6)
  {
    assert Step(y3.s, EvSetCleanFlag(true)) == Next(y5.s, Done);
    assert Cancel(y5.s, 1) == Next(y6.s, Done);
  }

  lemma LateBlocks(y: System)
    requires y == Filled()
    ensures Goes(y, By(true, EvRequest(CFG, 8)), y)
  {
    assert |y.s.cache| == 2;
    assert PopFree(y.s, CFG) == Popped(None, []);
    assert Request(y.s, CFG, 8, false) == Next(y.s, Blocked);
  }

  lemma LateReallocates(y: System, z: System)
    requires y == System(Free1(), map[]) && z == System(Realloc(Requested), map[])
    ensures Goes(y, By(true, EvRequest(OTHER, 7)), z)
  {
    var s := y.s;
    assert |s.cache| == 2 && !Fits(s, 1, OTHER) && FirstFit(s, OTHER, 0) == 1;
    assert PopFree(s, OTHER) == Popped(Some(1), []);
    var s1 := s.(free := []);
    assert DeleteInCache(s1, 1) == s1.(cache := map[2 := Entry(2, Requested, false)], deleting := [1]);
    assert Reuse(s1, 1, OTHER, 7, false) == Next(z.s, Allocating(7));
    assert WithDefault(s, OTHER) == OTHER;
  }

  lemma LateGivesBack(y: System, z: System)
    requires y == System(Realloc(Requested), map[]) && z == System(Realloc(Released), map[])
    ensures Goes(y, By(true, EvCancel(2)), z)
  {
    assert Cancel(y.s, 2) == Next(z.s, Done);
  }

  lemma LateWakes(y: System, z: System)
    requires y == System(Realloc(Released), map[]) && z == System(Waiting(), map[2 := Buf(2)])
    ensures Goes(y, By(true, EvAfterWait(CFG, 8)), z)
  {
    LateGrants(y.s, z.s);
    LateCaches(Some(SyncReply(z.s)));
  }

  lemma LateCaches(sync: Option<Cache>)
    ensures AddCache(map[], 2, Some(Buf(2)), [1], sync).cache == map[2 := Buf(2)]
  {
  }

  lemma LateGrants(s: Queue, t: Queue)
    requires s == Realloc(Released) && t == Waiting()
    ensures AfterWait(s, CFG, 8) == Next(t, Granted(2, Some(Buf(2)), [1]))
  {
    assert Fits(s, 2, CFG) && FirstFit(s, CFG, 0) == 0;
    assert PopFree(s, CFG) == Popped(Some(2), []);
    var m := s.(free := []);
    var e := Entry(2, Requested, false);
    assert m.cache[2 := e] == map[2 := e];
    var n := m.(cache := map[2 := e], deleting := []);
    assert n.resent + [2] == [2] && AllResent(n.(resent := [2]));
    assert RecordResent(n, 2) == t;
    assert Grant(m, 2, false, false) == Next(t, Granted(2, Some(Buf(2)), [1]));
  }

  lemma LateJoins(y: System, z: System)
    requires y == System(Waiting(), map[2 := Buf(2)]) && z == System(Joined(), map[2 := Buf(2)])
    ensures Goes(y, By(false, EvAttachBuffer(Buf(4))), z)
  {
    assert Used(y.s) == 1;
    assert AttachBuffer(y.s, Buf(4)) == Next(z.s, Done);
  }

  lemma LateFails(y: System, z: System)
    requires y == System(Joined(), map[2 := Buf(2)]) && z == System(Joined().(allocating := false, pending := map[]), y.c)
    ensures Goes(y, By(true, EvFinishAlloc(7, false, 0)), z)
  {
    assert y.s.pending - {7} == map[];
    assert FinishAlloc(y.s, 7, false, 0) == Fail(z.s, Unknown);
  }

  lemma LateLowers(y: System, z: System)
    requires y == System(Joined().(allocating := false, pending := map[]), map[2 := Buf(2)]) && z == Lowered()
    ensures Goes(y, By(true, EvLowerFlag(2)), z)
  {
    assert y.s.cache[2 := Entry(2, Requested, false)] == y.s.cache;
    assert LowerFlag(y.s, 2) == Next(z.s, Done);
  }

  /** The grant marks its buffer through an indexing that inserts: if the buffer was taken out of the
      queue during the wait, an entry without a buffer comes in. The partition survives if and only if
      the buffer is still there. */
  lemma LateLoweringPartition(s: Queue, q: SeqNum)
    requires Inv(s)
    ensures Inv(LowerFlag(s, q).q) <==> q in s.cache
  {
    if q in s.cache {
      LowerFlagKeeps(s, q);
    } else {
      var t := LowerFlag(s, q).q;
      assert InState(t.cache, q, Released) && !InState(s.cache, q, Released);
      assert q !in s.free && t.free == s.free;
    }
  }

  // ---- entries the producer is never told of ----

  /** The run ends with the producer holding a number that the queue has given up without a report. */
  ghost predicate Stranded(y: System, ms: seq<Move>, q: SeqNum) {
    CanAdvance(y, ms) &&
    var z := AdvanceAll(y, ms);
    q in z.c && q !in z.s.cache && q !in z.s.deleting && !Ledger(z)
  }

  lemma TraceStrands(trace: seq<System>, ms: seq<Move>, q: SeqNum)
    requires Follows(trace, ms)
    requires var z := trace[|ms|]; q in z.c && q !in z.s.cache && q !in z.s.deleting
    ensures Stranded(trace[0], ms, q)
  {
    FollowsAll(trace, ms);
  }

  const DETACHED: seq<Move> := [By(true, EvProducerAttach(Buf(1))), By(true, EvFlush(1, FRAME)), By(false, EvAcquire), By(false, EvDetachBuffer(1))]

  /** The consumer's DetachBuffer is not reported. */
  lemma DetachBufferStrands()
    ensures Stranded(Start(PLAIN), DETACHED, 1)
  {
    var s, c: Cache := Initial(PLAIN), map[1 := Buf(1)];
    var flushed := Entry(1, Flushed, false).(desired := 1);
    var y1 := System(s.(cache := map[1 := Entry(1, Requested, false)]), c);
    var y2 := System(s.(cache := map[1 := flushed], dirty := [1], lastFlushed := 1), c);
    var y3 := System(s.(cache := map[1 := flushed.(state := Acquired)], lastFlushed := 1), c);
    var y4 := System(s.(lastFlushed := 1), c);
    AttachFirst(y1);
    FlushOf(y1, y2);
    AcquireDetachOf(y2, y3, y4);
    TraceStrands([Start(PLAIN), y1, y2, y3, y4], DETACHED, 1);
  }

  lemma AcquireDetachOf(y2: System, y3: System, y4: System)
    requires var e := Entry(1, Flushed, false).(desired := 1);
             && y2.s == Initial(PLAIN).(cache := map[1 := e], dirty := [1], lastFlushed := 1)
             && y3 == System(Initial(PLAIN).(cache := map[1 := e.(state := Acquired)], lastFlushed := 1), y2.c)
    requires y4 == System(Initial(PLAIN).(lastFlushed := 1), y2.c)
    ensures Goes(y2, By(false, EvAcquire), y3) && Goes(y3, By(false, EvDetachBuffer(1)), y4)
  {
  }

  const CLEARED: seq<Move> := [By(true, EvProducerAttach(Buf(1))), By(false, EvClear)]

  /** Nor is a clear from the consumer's side. */
  lemma ClearStrands()
    ensures Stranded(Start(PLAIN), CLEARED, 1)
  {
    var c: Cache := map[1 := Buf(1)];
    var y1, y2 := System(Initial(PLAIN).(cache := map[1 := Entry(1, Requested, false)]), c), System(Initial(PLAIN), c);
    AttachFirst(y1);
    ClearOf(y1, y2);
    TraceStrands([Start(PLAIN), y1, y2], CLEARED, 1);
  }

  lemma ClearOf(y1: System, y2: System)
    requires y1 == System(Initial(PLAIN).(cache := map[1 := Entry(1, Requested, false)]), map[1 := Buf(1)])
    requires y2 == System(Initial(PLAIN), y1.c)
    ensures Goes(y1, By(false, EvClear), y2)
  {
    assert Clear(y1.s) == y2.s;
  }

  // ---- a hand-out takes the reports ----

  /** In listener mode: a report is pending, and the only acquired buffer is about to be released. */
  function Pending9(clean: bool): Queue {
    Initial(LISTENING).(cache := map[5 := Entry(5, Acquired, false)], deleting := [9], cacheClean := clean)
  }

  /** The report is lost with the hand-out of the buffer, and even when none is handed out because
      the buffer would have to be sent. */
  lemma ReleaseForgetsReports(clean: bool)
    ensures Inv(Pending9(clean)) && Drops(ReleaseLocked(Pending9(clean), 5).q)
    ensures var r := Release(Pending9(clean), 5);
            r.out.Returned? && r.q.deleting == [] && (clean ==> r.out.handed == [])
  {
    var s := Pending9(clean);
    assert Inv(s);
    var m := ReleaseLocked(s, 5).q;
    assert m == s.(cache := map[5 := Entry(5, Released, false)], free := [5]);
    assert WithDefault(m, CFG) == CFG && Fits(m, 5, CFG);
    assert FreeConfigs(m, 1, [CFG]) == [CFG];
    assert FreeConfigs(m, 0, []) == [CFG];
    assert CFG in [CFG] && Answers(m, CFG);
    ListenerReleaseLosesReports(s, 5);
    ReleaseEffect(s, 5);
    var handed := Release(s, 5).out.handed;
    assert handed != [] ==> HandedEntry(m, Release(s, 5).q, handed[0]);
  }

  // ---- the plain FlushBuffer ----

  /** FlushBuffer in its plain form checks the buffer in one locked region and flushes it in a later
      one, which looks at nothing but its presence and its mark. The lists survive that second
      region if and only if the buffer is on no list by then, or is merely deleted from the free list. */
  predicate SecondRegionSafe(s: Queue, q: SeqNum, f: Frame) {
    q in s.cache ==>
      if s.cache[q].isDeleting then s.cache[q].state != Flushed
      else f.cacheFlushOk ==> s.cache[q].state !in {Released, Flushed}
  }

  lemma PlainFlushExact(s: Queue, q: SeqNum, f: Frame)
    requires Inv(s)
    ensures Inv(DoFlush(s, q, f).q) <==> SecondRegionSafe(s, q, f)
  {
    if q in s.cache {
      if SecondRegionSafe(s, q, f) { SecondRegionKeeps(s, q, f); } else { SecondRegionBreaks(s, q, f); }
    }
  }

  lemma SecondRegionKeeps(s: Queue, q: SeqNum, f: Frame)
    requires Inv(s) && q in s.cache && SecondRegionSafe(s, q, f)
    ensures Inv(DoFlush(s, q, f).q)
  {
    if s.cache[q].isDeleting {
      if s.cache[q].state == Released { FreeDeleteKeeps(s, q); } else { EraseKeeps(s, q); }
    } else if f.cacheFlushOk {
      OutsideApart(s, q);
      PutBack(s, q, Stamp(s.cache[q].(state := Flushed, listenerPid := 0), f), s.free, s.dirty + [q]);
    }
  }

  lemma FreeDeleteKeeps(s: Queue, q: SeqNum)
    requires Inv(s) && InState(s.cache, q, Released)
    ensures Inv(DeleteInCache(s, q))
  {
    WithoutMembers(s.free, q);
    assert q !in s.dirty by { assert !InState(s.cache, q, Flushed); }
    PurgeKeeps(s, {q}, Without(s.free, q), s.dirty);
  }

  lemma SecondRegionBreaks(s: Queue, q: SeqNum, f: Frame)
    requires Inv(s) && q in s.cache && !SecondRegionSafe(s, q, f)
    ensures !Inv(DoFlush(s, q, f).q)
  {
    var t := DoFlush(s, q, f).q;
    if s.cache[q].state == Released {
      assert InState(s.cache, q, Released) && q in s.free;
      assert q in t.free && !InState(t.cache, q, Released);
    } else {
      assert InState(s.cache, q, Flushed) && q in s.dirty;
      if s.cache[q].isDeleting {
        assert q in t.dirty && !InState(t.cache, q, Flushed);
      } else {
        assert t.dirty == s.dirty + [q];
        var j :| 0 <= j < |s.dirty| && s.dirty[j] == q;
        if NoDup(t.dirty) { NoDupIndex(t.dirty, j, |s.dirty|); }
      }
    }
  }

  /** The input: a cancel between the two regions. */
  lemma CancelBetweenRegions()
    ensures var s := One(5, Requested, false, [], []).s;
            Inv(s) && Flush(s, 5, FRAME, true).out.Done? && Cancel(s, 5).out.Done? && !Inv(DoFlush(Cancel(s, 5).q, 5, FRAME).q)
  {
    var s := One(5, Requested, false, [], []).s;
    assert Inv(s);
    CancelKeeps(s, 5);
    PlainFlushExact(Cancel(s, 5).q, 5, FRAME);
  }
}
