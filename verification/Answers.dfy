/** What each call answers, told from the state in which it is made: which requests are granted,
    allocate, wait or are refused, and of the other calls when they are accepted and which error
    comes first when they are not. The answers are told from the state and the call alone, not by the
    functions that compute them. */
module Answers {
  import opened Lists
  import opened QueueModel
  import opened Partition
  import opened Requests
  import opened Shrink
  import opened HandOuts
  import opened FrameOrder
  import opened Protocols
  import opened Ownership
  import opened Lifecycle

  // ---- requests ----

  /** The configurations agree in all that a buffer's memory depends on. */
  predicate Alike(a: Config, b: Config) { a == b.(gamut := a.gamut, transform := a.transform) }

  /** The entry can be given as it is, and is not the locked one. */
  predicate Suits(s: Queue, q: SeqNum, c: Config) { q != s.locked && q in s.cache && Alike(s.cache[q].config, c) }

  /** Fewer entries than the slots that are not reserved, in 32-bit arithmetic. */
  predicate HasRoom(s: Queue) { |s.cache| < (s.size - s.reserved) % 0x1_0000_0000 }

  ghost predicate FirstSuiting(s: Queue, q: SeqNum, c: Config) { FirstWith(s.free, q, (x: SeqNum) => Suits(s, x, c)) }

  ghost predicate FirstUnlocked(s: Queue, q: SeqNum) { FirstWith(s.free, q, (x: SeqNum) => x != s.locked) }

  predicate SomeSuits(s: Queue, c: Config) { exists q :: q in s.free && Suits(s, q, c) }

  predicate SomeUnlocked(s: Queue) { exists q :: q in s.free && q != s.locked }

  /** A new buffer is allocated under the number `n` ... */
  predicate Allocates(s: Queue, c: Config, n: SeqNum, r: Next) {
    r.out == Allocating(n) && r.q == s.(allocating := true, pending := s.pending[n := Pending(c, false)])
  }

  /** ... or in place of `q`, which leaves the queue. */
  predicate Replaces(s: Queue, q: SeqNum, c: Config, n: SeqNum, r: Next) {
    && r.out == Allocating(n) && q in s.cache && r.q.cache == s.cache - {q}
    && r.q.allocating && r.q.pending == s.pending[n := Pending(c, true)]
  }

  /** The answer to a request for `c` once no allocation is announced. */
  ghost predicate Served(s: Queue, c: Config, n: SeqNum, r: Next) {
    if s.opts.priorityAlloc && HasRoom(s) then Allocates(s, c, n, r)
    else if SomeSuits(s, c) then r.out.Granted? && FirstSuiting(s, r.out.id, c)
    else if HasRoom(s) then Allocates(s, c, n, r)
    else if SomeUnlocked(s) then exists q :: FirstUnlocked(s, q) && Replaces(s, q, c, n, r)
    else if !s.opts.noBlock then r == Next(s, Blocked)
    else if s.dirty == [] then r == Next(s, Failed(NoBuffer))
    else if s.dirty[0] in s.cache && Alike(s.cache[s.dirty[0]].config, c) then r.out.Granted? && r.out.id == s.dirty[0]
    else Replaces(s, s.dirty[0], c, n, r)
  }

  /** The answer to a request that resumes after its timed wait: it never allocates a further buffer
      and never takes a flushed frame. */
  ghost predicate Resumed(s: Queue, c: Config, n: SeqNum, r: Next) {
    if !s.opts.batch && !s.opts.valid then r == Next(s, Failed(NoConsumer))
    else if SomeSuits(s, c) then r.out.Granted? && FirstSuiting(s, r.out.id, c)
    else if !HasRoom(s) && SomeUnlocked(s) then exists q :: FirstUnlocked(s, q) && Replaces(s, q, c, n, r)
    else r == Next(s, Failed(NoBuffer))
  }

  function Asked(s: Queue, c: Config): Config { c.(usage := c.usage | s.opts.defaultUsage) }

  predicate ColourAndTransformKnown(c: Config) { 0 <= c.gamut <= 11 && 0 <= c.transform < 12 }

  /** The answer to a new request: status, configuration and announced allocations come first. */
  ghost predicate Answered(s: Queue, c: Config, n: SeqNum, r: Next) {
    if !s.opts.batch && !s.opts.valid then r == Next(s, Failed(NoConsumer))
    else if !s.opts.batch && !s.opts.listener then r == Next(s, Failed(NoListener))
    else if !ColourAndTransformKnown(c) then r == Next(s, Failed(Unknown))
    else if s.allocating then r == Next(s, Blocked)
    else Served(s, Asked(s, c), n, r)
  }

  lemma AlikeIsSame(a: Config, b: Config)
    ensures Alike(a, b) <==> SameConfig(a, b)
    ensures Alike(a, b) <==> Alike(b, a)
  {
  }

  lemma RoomIsRoom(s: Queue)
    ensures HasRoom(s) <==> Used(s) < Room(s)
  {
  }

  lemma SameFirst(l: seq<SeqNum>, q: SeqNum, p: SeqNum -> bool, p': SeqNum -> bool)
    requires FirstWith(l, q, p) && forall x :: p(x) <==> p'(x)
    ensures FirstWith(l, q, p')
  {
    var k :| 0 <= k < |l| && l[k] == q && p(q) && forall j :: 0 <= j < k ==> !p(l[j]);
  }

  lemma SuitsIsFits(s: Queue, c: Config)
    ensures forall q :: Suits(s, q, c) <==> Fits(s, q, c)
  {
    forall q ensures Suits(s, q, c) <==> Fits(s, q, c) { if q in s.cache { AlikeIsSame(s.cache[q].config, c); } }
  }

  /** What PopFree takes. */
  lemma PopTakesFirst(s: Queue, c: Config)
    requires Inv(s)
    ensures var p := PopFree(s, c);
            if SomeSuits(s, c) then p.q.Some? && FirstSuiting(s, p.q.value, c)
            else if !HasRoom(s) && SomeUnlocked(s) then p.q.Some? && FirstUnlocked(s, p.q.value)
            else p.q.None?
  {
    PopChoice(s, c);
    SuitsIsFits(s, c);
    RoomIsRoom(s);
    var p := PopFree(s, c);
    if SomeSuits(s, c) {
      assert exists q :: q in s.free && Fits(s, q, c);
      SameFirst(s.free, p.q.value, (q: SeqNum) => Fits(s, q, c), (q: SeqNum) => Suits(s, q, c));
    } else {
      assert !exists q :: q in s.free && Fits(s, q, c);
    }
  }

  /** What becomes of the entry taken off a list. */
  lemma TakenAnswer(s: Queue, s1: Queue, q: SeqNum, c: Config, n: SeqNum)
    requires q in s.cache && s1 == s.(free := s1.free, dirty := s1.dirty)
    ensures var r := Reuse(s1, q, c, n, false);
            if Alike(s.cache[q].config, c) then r.out.Granted? && r.out.id == q else Replaces(s, q, c, n, r)
  {
    AlikeIsSame(s.cache[q].config, c);
    AlikeIsSame(c, s.cache[q].config);
  }

  lemma PoppedAnswer(s: Queue, c: Config, n: SeqNum)
    requires Inv(s) && PopFree(s, c).q.Some?
    ensures var p := PopFree(s, c);
            var r := Reuse(s.(free := p.free), p.q.value, c, n, false);
            if SomeSuits(s, c) then r.out.Granted? && FirstSuiting(s, r.out.id, c)
            else exists q :: FirstUnlocked(s, q) && Replaces(s, q, c, n, r)
  {
    var p := PopFree(s, c);
    var q := p.q.value;
    PopShape(s, c);
    assert InState(s.cache, q, Released);
    PopTakesFirst(s, c);
    TakenAnswer(s, s.(free := p.free), q, c, n);
    if SomeSuits(s, c) {
      assert Suits(s, q, c);
    } else {
      assert q in s.free && !Suits(s, q, c);
      assert FirstUnlocked(s, q);
    }
  }

  lemma DequeueAnswer(s: Queue, c: Config, n: SeqNum)
    requires Inv(s)
    ensures Served(s, c, n, Dequeue(s, c, n, false))
  {
    RoomIsRoom(s);
    PopTakesFirst(s, c);
    var p := PopFree(s, c);
    if !(s.opts.priorityAlloc && HasRoom(s)) {
      if p.q.Some? {
        PoppedAnswer(s, c, n);
      } else if !HasRoom(s) && s.opts.noBlock && s.dirty != [] {
        assert InState(s.cache, s.dirty[0], Flushed);
        TakenAnswer(s, s.(dirty := s.dirty[1..]), s.dirty[0], c, n);
      }
    }
  }

  lemma AfterWaitAnswer(s: Queue, c: Config, n: SeqNum)
    requires Inv(s)
    ensures Resumed(s, c, n, AfterWait(s, c, n))
  {
    PopTakesFirst(s, c);
    if PopFree(s, c).q.Some? { PoppedAnswer(s, c, n); }
  }

  /** Every request of the producer is answered as said, in every state of every run. */
  lemma RequestAnswers(s: Queue, e: Event)
    requires Inv(s) && Enabled(s, e) && Requesting(e)
    ensures match e
            case EvRequest(c, n) => Answered(s, c, n, Step(s, e))
            case EvDequeue(c, n) => Served(s, c, n, Step(s, e))
            case EvAfterWait(c, n) => Resumed(s, c, n, Step(s, e))
  {
    match e {
      case EvRequest(c, n) =>
        DequeueAnswer(s, Asked(s, c), n);
        assert Asked(s, c) == WithDefault(s, c);
      case EvDequeue(c, n) => DequeueAnswer(s, c, n);
      case EvAfterWait(c, n) => AfterWaitAnswer(s, c, n);
    }
  }

  /** The producer knows the buffer already, so its number is enough. */
  predicate Bare(s: Queue, q: SeqNum) {
    q in s.cache && !s.cacheClean && !s.cache[q].buffer.consumerAttach && !s.cache[q].preAlloc
  }

  /** A grant carries every pending deletion report, and the buffer itself if and only if its number
      is not enough. */
  lemma GrantCarries(s: Queue, e: Event)
    requires Inv(s) && Enabled(s, e) && Requesting(e) && Step(s, e).out.Granted?
    ensures var r := Step(s, e);
            && r.out.deleting == s.deleting && r.q.deleting == []
            && r.out.id in s.cache && (r.out.buffer.None? <==> Bare(s, r.out.id))
            && (r.out.buffer.Some? ==> r.out.buffer.value == s.cache[r.out.id].buffer.(consumerAttach := false))
  {
    var q := RequestingEffect(s, e);
  }

  // ---- the other calls ----

  function Need(ok: bool, error: Error): Option<Error> { if ok then None else Some(error) }

  /** The earlier of two checks decides. */
  function Then(first: Option<Error>, second: Option<Error>): Option<Error> { if first.Some? then first else second }

  predicate Is(s: Queue, q: SeqNum, states: set<BufferState>) { q in s.cache && s.cache[q].state in states }

  predicate Marked(s: Queue, q: SeqNum) { q in s.cache && s.cache[q].isDeleting }

  /** The checks a call has to pass, in their order: None when it is accepted, else the error that
      is answered. */
  function Refusal(s: Queue, e: Event): Option<Error> {
    match e
    case EvFinishAlloc(_, ok, _) => Need(ok, Unknown)
    case EvCancel(q) => Then(Need(q in s.cache, NotInCache), Need(Is(s, q, {Requested, Attached}), StateInvalid))
    case EvFlush(q, f) =>
      Then(Need(s.opts.valid, NoConsumer), Then(Need(f.damagesOk, InvalidArguments), Then(Need(q in s.cache, NotInCache),
        Then(Need(Is(s, q, {Requested, Attached}), StateInvalid),
          Then(Need(s.opts.listener, NoListener), Need(Marked(s, q) || f.cacheFlushOk, Unknown))))))
    case EvAttachAndFlush(b, f) =>
      Then(Need(|s.cache| < s.size, QueueFull), Then(Need(b.id !in s.cache, InCache), Then(Need(s.opts.valid, NoConsumer),
        Then(Need(f.damagesOk, InvalidArguments), Then(Need(s.opts.listener, NoListener), Need(f.cacheFlushOk, Unknown))))))
    case EvAcquire => Need(s.dirty != [], NoBuffer)
    case EvTimedSelect(due, _) =>
      Then(Need(s.dirty != [], NoBuffer), Need(!TooEarly(s, due), NotReady))
    case EvRelease(q) => Then(Need(q in s.cache, NotInCache), Need(Is(s, q, {Acquired, Attached}), StateInvalid))
    case EvProducerAttach(b) => Then(Need(|s.cache| < s.size, QueueFull), Need(b.id !in s.cache, InCache))
    case EvConsumerAttach(b) =>
      Then(Need(!s.opts.handOut, InvalidOperating), Then(Need(|s.cache| < s.size, QueueFull), Need(b.id !in s.cache, InCache)))
    case EvProducerDetach(q) => Then(Need(q in s.cache, NotInCache), Need(Is(s, q, {Requested}), StateInvalid))
    case EvConsumerDetach(q, _) => Then(Need(q in s.cache, NotInCache), Need(Is(s, q, {Acquired}), StateInvalid))
    case EvAttachBuffer(b) =>
      Then(Need(s.opts.valid, NoConsumer), Then(Need(s.opts.listener, NoListener),
        Then(Need(b.id in s.cache ==> Is(s, b.id, {Released}), StateInvalid),
             Need(b.id in s.cache || |s.cache| + 1 <= s.size + |s.free| + |s.dirty|, OutOfRange))))
    case EvDetachBuffer(q) => Need(Is(s, q, {Requested, Acquired}), NoEntry)
    case EvSetQueueSize(n) =>
      Then(Need(1 <= n <= 64, InvalidArguments), Need(s.reserved <= n && (s.maxSize == 0 || s.reserved <= s.maxSize), InvalidArguments))
    case EvSetMaxQueueSize(n) => Then(Need(1 <= n <= 64, InvalidArguments), Need(s.size > n ==> s.reserved <= n, InvalidArguments))
    case EvPreAlloc(_, ready) =>
      Need(ready == [] || |s.cache| + |ready| <= (s.size - s.reserved) % 0x1_0000_0000, QueueFull)
    case EvLock =>
      Then(Need(s.locked == 0xFFFF_FFFF, StateInvalid), Then(Need(s.lastFlushed in s.cache, Unknown),
        Then(Need(!Is(s, s.lastFlushed, {Requested}), StateInvalid), Need(!Protected(s, s.lastFlushed), NotSupport))))
    case EvUnlock(q) => Need(s.locked == q && q != 0xFFFF_FFFF, StateInvalid)
    case EvTurnedAway => Some(NotConnected)
    case _ => None
  }

  /** The front frame has a time of its own that lies in the next second. */
  predicate TooEarly(s: Queue, due: int) {
    s.dirty != [] && s.dirty[0] in s.cache && !s.cache[s.dirty[0]].auto && due < s.cache[s.dirty[0]].desired <= due + 1_000_000_000
  }

  predicate Protected(s: Queue, q: SeqNum) { q in s.cache && s.cache[q].buffer.shape.usage & 0x800 != 0 }

  /** What an accepted call hands back. */
  ghost predicate Hands(s: Queue, e: Event, out: Outcome) {
    match e
    case EvFinishAlloc(n, _, _) => out.Granted? && out.id == n
    case EvAcquire => s.dirty != [] && s.dirty[0] in s.cache && out == Took(s.dirty[0], s.cache[s.dirty[0]].timestamp)
    case EvDropByLevel => out.Dropped?
    case EvTimedSelect(_, _) => out.Dropped?
    case EvRelease(_) => out.Returned?
    case EvCleanReleased => out.Cleaned?
    case EvLock => out == Took(s.lastFlushed, 0)
    case _ => out.Done?
  }

  ghost predicate Agrees(s: Queue, e: Event, out: Outcome) {
    match Refusal(s, e)
    case None => Hands(s, e, out)
    case Some(error) => out == Failed(error)
  }

  predicate ByConsumer(e: Event) { e.EvAcquire? || e.EvDropByLevel? || e.EvTimedSelect? || e.EvRelease? }

  predicate Attaches(e: Event) { e.EvAttachAndFlush? || e.EvProducerAttach? || e.EvConsumerAttach? || e.EvAttachBuffer? }

  predicate Resizes(e: Event) { e.EvSetQueueSize? || e.EvSetMaxQueueSize? || e.EvPreAlloc? || e.EvFinishAlloc? }

  lemma ConsumerAgrees(s: Queue, e: Event)
    requires Inv(s) && Enabled(s, e) && ByConsumer(e)
    ensures Agrees(s, e, Step(s, e).out)
  {
    if s.dirty != [] { assert InState(s.cache, s.dirty[0], Flushed); }
    if e.EvRelease? { ReleaseEffect(s, e.id); ReleaseAgrees(s, e.id); }
  }

  lemma ReleaseAgrees(s: Queue, q: SeqNum)
    ensures Release(s, q).out.Failed? ==> Agrees(s, EvRelease(q), Release(s, q).out)
    ensures Is(s, q, {Acquired, Attached}) ==> Release(s, q).out.Returned?
  {
  }

  lemma AttachAgrees(s: Queue, e: Event)
    requires Enabled(s, e) && Attaches(e)
    ensures Agrees(s, e, Step(s, e).out)
  {
  }

  lemma {:induction false} PreAllocAgrees(s: Queue, cfg: Config, ready: seq<Spare>)
    requires FreshAll(s, ready)
    ensures Agrees(s, EvPreAlloc(cfg, ready), PreAllocInsert(s, cfg, ready).out)
    decreases |ready|
  {
    RoomIsRoom(s);
    if ready != [] && HasRoom(s) {
      var p := ready[0];
      var s1 := s.(cache := s.cache[p.id := PreAllocElement(p, cfg)], free := s.free + [p.id]);
      assert Fresh(s, ready[0].id);
      InsertSize(s, p.id, PreAllocElement(p, cfg));
      assert FreshAll(s1, ready[1..]) by {
        forall i | 0 <= i < |ready[1..]| ensures Fresh(s1, ready[1..][i].id) { assert Fresh(s, ready[i + 1].id); }
      }
      PreAllocAgrees(s1, cfg, ready[1..]);
      SameRefusal(s, s1, cfg, ready);
      assert PreAllocInsert(s, cfg, ready) == PreAllocInsert(s1, cfg, ready[1..]);
    }
  }

  lemma SameRefusal(s: Queue, s1: Queue, cfg: Config, ready: seq<Spare>)
    requires ready != [] && HasRoom(s) && |s1.cache| == |s.cache| + 1 && s1.size == s.size && s1.reserved == s.reserved
    ensures Refusal(s, EvPreAlloc(cfg, ready)) == Refusal(s1, EvPreAlloc(cfg, ready[1..]))
  {
  }

  lemma ResizeAgrees(s: Queue, e: Event)
    requires Enabled(s, e) && Resizes(e)
    ensures Agrees(s, e, Step(s, e).out)
  {
    match e {
      case EvPreAlloc(cfg, ready) => PreAllocAgrees(s, cfg, ready);
      case EvFinishAlloc(n, ok, t) => FinishEffect(s, n, ok, t);
      case _ =>
    }
  }

  lemma FlushAgrees(s: Queue, q: SeqNum, f: Frame)
    ensures Agrees(s, EvFlush(q, f), Flush(s, q, f, true).out)
  {
  }

  predicate Other(e: Event) { !Requesting(e) && !ByConsumer(e) && !Attaches(e) && !Resizes(e) && !e.EvFlush? }

  lemma OtherAgrees(s: Queue, e: Event)
    requires Enabled(s, e) && Other(e)
    ensures Agrees(s, e, Step(s, e).out)
  {
  }

  /** Every call but a request is accepted if and only if it passes its checks, and else answers the
      error of the first check it fails. */
  lemma StepAnswers(s: Queue, e: Event)
    requires Inv(s) && Enabled(s, e) && !Requesting(e)
    ensures Agrees(s, e, Step(s, e).out)
  {
    if ByConsumer(e) {
      ConsumerAgrees(s, e);
    } else if Attaches(e) {
      AttachAgrees(s, e);
    } else if Resizes(e) {
      ResizeAgrees(s, e);
    } else if e.EvFlush? {
      FlushAgrees(s, e.id, e.frame);
    } else {
      OtherAgrees(s, e);
    }
  }

  /** A plain flush that finds no listener gives the buffer back instead. */
  lemma UnheardFlush(s: Queue, q: SeqNum, f: Frame)
    requires Refusal(s, EvFlush(q, f)) == Some(NoListener)
    ensures Flush(s, q, f, true).q ==
            s.(cache := s.cache[q := s.cache[q].(state := Released, listenerPid := 0)], free := s.free + [q])
    ensures Flush(s, q, f, false).q == s
  {
  }

  /** The calls that wait for an announced allocation. */
  predicate WaitsForAllocation(s: Queue, e: Event) {
    match e
    case EvDequeue(_, _) => true
    case EvFlush(q, _) => Marked(s, q)
    case EvRelease(q) => Marked(s, q) || s.opts.handOut
    case EvAttachBuffer(b) => b.id !in s.cache && |s.cache| >= s.size
    case EvConsumerDetach(q, _) => Is(s, q, {Acquired})
    case EvSetQueueSize(n) => n < s.size || 0 < s.maxSize < s.size
    case EvSetMaxQueueSize(n) => n < s.size
    case EvClear => true
    case EvSetCleanFlag(_) => true
    case EvCleanReleased => true
    case EvLowerFlag(_) => true
    case _ => false
  }

  /** A new buffer needs a number of its own, and a suspended call has to exist. */
  predicate Possible(s: Queue, e: Event) {
    match e
    case EvRequest(_, n) => n !in s.cache && n !in s.pending
    case EvDequeue(_, n) => n !in s.cache && n !in s.pending
    case EvAfterWait(_, n) => n !in s.cache && n !in s.pending
    case EvFinishAlloc(n, _, _) => n in s.pending
    case EvAttachAndFlush(b, _) => b.id !in s.pending
    case EvProducerAttach(b) => b.id !in s.pending
    case EvConsumerAttach(b) => b.id !in s.pending
    case EvAttachBuffer(b) => b.id !in s.pending
    case EvPreAlloc(_, ready) => FreshAll(s, ready)
    case EvLowerFlag(q) => q in s.lowering && q in s.cache
    case _ => true
  }

  /** Nothing else keeps an event from happening, so the runs are all the interleavings there are. */
  lemma EnabledExact(s: Queue, e: Event)
    ensures Enabled(s, e) <==> Possible(s, e) && (s.allocating ==> !WaitsForAllocation(s, e))
  {
  }

  // ---- the lock on the last flushed buffer ----

  /** The lock is given if and only if nobody has it, the frame flushed last is still in the queue,
      the producer is not drawing into it, and it is not protected; it then is that frame, and
      nothing else changes. */
  lemma LockExact(s: Queue)
    ensures var r := Step(s, EvLock);
            && (r.out.Took? <==> s.locked == 0xFFFF_FFFF && s.lastFlushed in s.cache
                                 && s.cache[s.lastFlushed].state != Requested && !Protected(s, s.lastFlushed))
            && (r.out.Took? ==> r.out.id == s.lastFlushed && r.q == s.(locked := s.lastFlushed))
            && (!r.out.Took? ==> r.q == s)
  {
  }

  /** The caller of the lock also keeps the locked buffer from being attached again by the producer. */
  predicate KeepsApart(e: Event, q: SeqNum) { RespectsLock(e, q) && (e.EvProducerAttach? ==> e.buffer.id != q) }

  lemma StepApart(s: Queue, e: Event, q: SeqNum)
    requires Inv(s) && Enabled(s, e) && LockHeld(s, q) && KeepsApart(e, q) && !Held(s, q)
    ensures !Held(Step(s, e).q, q)
  {
    StepLock(s, e, q);
    if Requesting(e) {
      var x := RequestingEffect(s, e);
    } else if e.EvRelease? {
      ReleaseApart(s, e.id, q);
    } else {
      StepMoves(s, e, q);
    }
  }

  lemma ReleaseApart(s: Queue, x: SeqNum, q: SeqNum)
    requires Inv(s) && !Held(s, q) && q !in GivenIn(Release(s, x).out)
    ensures !Held(Release(s, x).q, q)
  {
    LockedThenHanded(s, x);
    if Release(s, x).out.Returned? {
      LockedPartApart(s, x, q);
      HandedApart(ReleaseLocked(s, x).q, Handed(Release(s, x).q, Release(s, x).out.handed), q);
    }
  }

  lemma LockedThenHanded(s: Queue, x: SeqNum)
    requires Inv(s)
    ensures var r := Release(s, x);
            if r.out.Failed? then r.q == s else r.out.Returned? && HandedOut(ReleaseLocked(s, x).q, Handed(r.q, r.out.handed))
  {
    ReleaseEffect(s, x);
  }

  lemma LockedPartApart(s: Queue, x: SeqNum, q: SeqNum)
    requires !Held(s, q)
    ensures !Held(ReleaseLocked(s, x).q, q)
  {
  }

  lemma HandedApart(m: Queue, h: Handed, q: SeqNum)
    requires HandedOut(m, h) && !Held(m, q) && q !in h.ids
    ensures !Held(h.q, q)
  {
  }

  /** From the moment the lock is given until it is given back, in blocking mode, the producer never
      holds the locked buffer. */
  lemma {:induction false} LockedNeverDrawn(s: Queue, es: seq<Event>, q: SeqNum)
    requires Inv(s) && CanRun(s, es) && LockHeld(s, q) && !Held(s, q) && forall e :: e in es ==> KeepsApart(e, q)
    ensures !Held(Run(s, es), q)
    decreases |es|
  {
    if es != [] {
      assert es[0] in es;
      StepApart(s, es[0], q);
      StepLock(s, es[0], q);
      StepKeeps(s, es[0]);
      LockedNeverDrawn(Step(s, es[0]).q, es[1..], q);
    }
  }

  lemma LockTakenApart(s: Queue)
    requires LockLastFlushed(s).out.Took?
    ensures !Held(LockLastFlushed(s).q, s.lastFlushed)
  {
  }
}
