/** The dirty list is a queue: over whole runs frames leave it in the order they were flushed. */
module FrameOrder {
  import opened Lists
  import opened QueueModel
  import opened Partition
  import opened Requests
  import opened Shrink
  import opened HandOuts

  /** The frame the event queues, if it does. */
  function FlushedBy(s: Queue, e: Event): seq<SeqNum>
    requires Enabled(s, e)
  {
    match e
    case EvFlush(q, _) => if Step(s, e).out.Done? && q in s.cache && !s.cache[q].isDeleting then [q] else []
    case EvAttachAndFlush(b, _) => if Step(s, e).out.Done? then [b.id] else []
    case _ => []
  }

  /** The frames of `s` that are no longer flushed in `t`, in list order. */
  function Gone(s: Queue, t: Queue): seq<SeqNum> {
    Keep(s.dirty, (q: SeqNum) => !InState(t.cache, q, Flushed))
  }

  function LeftBy(s: Queue, e: Event): seq<SeqNum>
    requires Enabled(s, e)
  {
    Gone(s, Step(s, e).q)
  }

  /** The frame handed to the consumer, if any. */
  function ConsumedBy(s: Queue, e: Event): seq<SeqNum>
    requires Enabled(s, e)
  {
    if e.EvAcquire? && Step(s, e).out.Took? then [Step(s, e).out.id] else []
  }

  /** Events that may take frames out of the middle of the list. */
  predicate Purges(e: Event) { e.EvClear? || e.EvCleanBySeqNum? }

  function Over(s: Queue, count: int): nat {
    if count > |s.free| then (if count - |s.free| <= |s.dirty| then count - |s.free| else |s.dirty|) else 0
  }

  lemma ShrinkDirty(s: Queue, count: int)
    requires Inv(s)
    ensures DeleteBuffers(s, count).dirty == s.dirty[Over(s, count)..]
  {
    if count > 0 { ShrinkLists(s, count); }
  }

  lemma {:induction false} PreAllocFrames(s: Queue, cfg: Config, ready: seq<Spare>)
    ensures PreAllocInsert(s, cfg, ready).q.dirty == s.dirty
    decreases |ready|
  {
    if ready != [] && Used(s) < Room(s) {
      var p := ready[0];
      PreAllocFrames(s.(cache := s.cache[p.id := PreAllocElement(p, cfg)], free := s.free + [p.id]), cfg, ready[1..]);
    }
  }

  predicate Requesting(e: Event) { e.EvRequest? || e.EvDequeue? || e.EvAfterWait? }

  lemma RequestingEffect(s: Queue, e: Event) returns (q: Option<SeqNum>)
    requires Inv(s) && Enabled(s, e) && Requesting(e)
    ensures Effect(s, if e.EvRequest? then WithDefault(s, e.config) else e.config, e.num, q, Step(s, e))
  {
    match e {
      case EvRequest(c, n) => q := RequestEffect(s, c, n);
      case EvDequeue(c, n) => q := DequeueEffect(s, c, n);
      case EvAfterWait(c, n) => q := AfterWaitEffect(s, c, n);
    }
  }

  lemma RequestingFrames(s: Queue, e: Event) returns (n: nat)
    requires Inv(s) && Enabled(s, e) && Requesting(e)
    ensures n <= |s.dirty| && Step(s, e).q.dirty == s.dirty[n..]
  {
    var q := RequestingEffect(s, e);
    n := if Step(s, e).q.dirty == s.dirty then 0 else 1;
  }

  lemma ResizeFrames(s: Queue, m: u32) returns (n: nat)
    requires Inv(s)
    ensures n <= |s.dirty| && SetQueueSize(s, m).q.dirty == s.dirty[n..]
  {
    ShrinkDirty(s, s.size - Clamped(s, m));
    n := if SetQueueSize(s, m).out.Failed? then 0 else Over(s, s.size - Clamped(s, m));
  }

  lemma MaxResizeFrames(s: Queue, m: u32) returns (n: nat)
    requires Inv(s)
    ensures n <= |s.dirty| && SetMaxQueueSize(s, m).q.dirty == s.dirty[n..]
  {
    n := 0;
    if SetMaxQueueSize(s, m).q.dirty != s.dirty {
      var s1 := s.(maxSize := m);
      ShrinkDirty(s1, s1.size - Clamped(s1, m));
      n := Over(s1, s1.size - Clamped(s1, m));
    }
  }

  lemma AttachBufferDirty(s: Queue, b: Buffer)
    ensures AttachBuffer(s, b).q.dirty in {s.dirty, DeleteBuffers(s, Used(s) - s.size + 1).dirty}
  {
  }

  lemma AttachBufferFrames(s: Queue, b: Buffer) returns (n: nat)
    requires Inv(s)
    ensures n <= |s.dirty| && AttachBuffer(s, b).q.dirty == s.dirty[n..]
  {
    AttachBufferDirty(s, b);
    ShrinkDirty(s, Used(s) - s.size + 1);
    n := if AttachBuffer(s, b).q.dirty == s.dirty then 0 else Over(s, Used(s) - s.size + 1);
  }

  lemma FlushFrames(s: Queue, q: SeqNum, f: Frame, plain: bool)
    ensures var r := Flush(s, q, f, plain);
            r.q.dirty == s.dirty + if r.out.Done? && !(q in s.cache && s.cache[q].isDeleting) then [q] else []
  {
  }

  lemma AttachAndFlushFrames(s: Queue, b: Buffer, f: Frame)
    ensures var r := AttachAndFlush(s, b, f); r.q.dirty == s.dirty + if r.out.Done? then [b.id] else []
  {
    FlushFrames(AttachToQueue(s, b, Producer).q, b.id, f, false);
  }

  lemma SelectFrames(s: Queue, due: int, useAuto: bool) returns (n: nat)
    ensures n <= |s.dirty| && TimedSelect(s, due, useAuto).q.dirty == s.dirty[n..]
  {
    var r := TimedSelect(s, due, useAuto);
    n := if r.out.Dropped? then |r.out.frames| else 0;
  }

  /** Events other than requests never touch the dirty list, except through the lemmas above. */
  predicate LeavesFrames(e: Event) {
    e.EvCancel? || e.EvProducerAttach? || e.EvConsumerAttach? || e.EvProducerDetach? || e.EvConsumerDetach?
    || e.EvDetachBuffer? || e.EvCleanReleased? || e.EvSetCleanFlag? || e.EvLock? || e.EvUnlock? || e.EvConfigure?
    || e.EvLowerFlag? || e.EvTurnedAway?
  }

  lemma LeavesFramesEffect(s: Queue, e: Event)
    requires Enabled(s, e) && LeavesFrames(e)
    ensures Step(s, e).q.dirty == s.dirty
  {
  }

  lemma AcquireFrames(s: Queue) returns (n: nat)
    requires Inv(s)
    ensures n <= |s.dirty| && Acquire(s).q.dirty == s.dirty[n..]
    ensures s.dirty[..n] == if Acquire(s).out.Took? then [Acquire(s).out.id] else []
  {
    n := 0;
    if s.dirty != [] { DirtyTakes(s); n := 1; }
  }

  lemma LevelFrames(s: Queue) returns (n: nat)
    ensures n <= |s.dirty| && DropByLevel(s).q.dirty == s.dirty[n..]
  {
    n := if |s.dirty| > s.opts.dropLevel > 0 then |s.dirty| - s.opts.dropLevel else 0;
  }

  /** Frames leave only from the front and enter only at the back. */
  lemma DirtyEffect(s: Queue, e: Event) returns (n: nat)
    requires Inv(s) && Enabled(s, e) && !Purges(e)
    ensures n <= |s.dirty| && Step(s, e).q.dirty == s.dirty[n..] + FlushedBy(s, e)
    ensures n > 0 ==> FlushedBy(s, e) == []
    ensures e.EvAcquire? ==> ConsumedBy(s, e) == s.dirty[..n]
  {
    n := 0;
    assert s.dirty[0..] == s.dirty;
    match e {
      case EvRequest(_, _) => n := RequestingFrames(s, e);
      case EvDequeue(_, _) => n := RequestingFrames(s, e);
      case EvAfterWait(_, _) => n := RequestingFrames(s, e);
      case EvFinishAlloc(m, ok, t) => FinishEffect(s, m, ok, t);
      case EvFlush(q, f) => FlushFrames(s, q, f, true);
      case EvAttachAndFlush(b, f) => AttachAndFlushFrames(s, b, f);
      case EvAcquire => n := AcquireFrames(s);
      case EvDropByLevel => n := LevelFrames(s);
      case EvTimedSelect(d, a) => n := SelectFrames(s, d, a);
      case EvRelease(q) => ReleaseEffect(s, q);
      case EvAttachBuffer(b) => n := AttachBufferFrames(s, b);
      case EvSetQueueSize(m) => n := ResizeFrames(s, m);
      case EvSetMaxQueueSize(m) => n := MaxResizeFrames(s, m);
      case EvPreAlloc(c, ready) => PreAllocFrames(s, c, ready);
      case _ => LeavesFramesEffect(s, e);
    }
  }

  lemma WhoLeft(dirty: seq<SeqNum>, t: Queue, n: nat, flushed: seq<SeqNum>)
    requires NoDup(dirty) && Inv(t) && n <= |dirty| && t.dirty == dirty[n..] + flushed && (n > 0 ==> flushed == [])
    ensures forall q :: q in dirty[..n] ==> !InState(t.cache, q, Flushed)
    ensures forall q :: q in dirty[n..] ==> InState(t.cache, q, Flushed)
  {
    NoDupCut(dirty, n);
    forall q | q in dirty[..n] ensures !InState(t.cache, q, Flushed) { assert q !in t.dirty; }
    forall q | q in dirty[n..] ensures InState(t.cache, q, Flushed) { assert q in t.dirty; }
  }

  lemma OrderCore(s: Queue, t: Queue, n: nat, flushed: seq<SeqNum>)
    requires Inv(s) && Inv(t) && n <= |s.dirty| && t.dirty == s.dirty[n..] + flushed
    requires n > 0 ==> flushed == []
    ensures Gone(s, t) == s.dirty[..n]
    ensures s.dirty + flushed == Gone(s, t) + t.dirty
  {
    assert Gone(s, t) == s.dirty[..n] by { GoneFront(s.dirty, t, n, flushed); }
    assert s.dirty == s.dirty[..n] + s.dirty[n..];
    Regroup(s.dirty[..n], s.dirty[n..], flushed);
  }

  lemma GoneFront(dirty: seq<SeqNum>, t: Queue, n: nat, flushed: seq<SeqNum>)
    requires NoDup(dirty) && Inv(t) && n <= |dirty| && t.dirty == dirty[n..] + flushed && (n > 0 ==> flushed == [])
    ensures Keep(dirty, (q: SeqNum) => !InState(t.cache, q, Flushed)) == dirty[..n]
  {
    var left := (q: SeqNum) => !InState(t.cache, q, Flushed);
    WhoLeft(dirty, t, n, flushed);
    KeepAll(dirty[..n], left);
    KeepNone(dirty[n..], left);
    KeepConcat(dirty[..n], dirty[n..], left);
    assert dirty == dirty[..n] + dirty[n..];
  }

  /** Per step: the list followed by what is flushed is what leaves followed by the new list. */
  lemma StepOrder(s: Queue, e: Event)
    requires Inv(s) && Enabled(s, e) && !Purges(e)
    ensures s.dirty + FlushedBy(s, e) == LeftBy(s, e) + Step(s, e).q.dirty
    ensures e.EvAcquire? ==> LeftBy(s, e) == ConsumedBy(s, e)
  {
    var n := DirtyEffect(s, e);
    StepKeeps(s, e);
    OrderCore(s, Step(s, e).q, n, FlushedBy(s, e));
  }

  // ---- whole runs ----

  function Flushes(s: Queue, es: seq<Event>): seq<SeqNum>
    requires CanRun(s, es)
    decreases |es|
  {
    if es == [] then [] else FlushedBy(s, es[0]) + Flushes(Step(s, es[0]).q, es[1..])
  }

  function Departures(s: Queue, es: seq<Event>): seq<SeqNum>
    requires CanRun(s, es)
    decreases |es|
  {
    if es == [] then [] else LeftBy(s, es[0]) + Departures(Step(s, es[0]).q, es[1..])
  }

  function Consumed(s: Queue, es: seq<Event>): seq<SeqNum>
    requires CanRun(s, es)
    decreases |es|
  {
    if es == [] then [] else ConsumedBy(s, es[0]) + Consumed(Step(s, es[0]).q, es[1..])
  }

  /** Over any run without a clear or a purge by number, the frames that left the dirty list
      (acquired, dropped, taken back by a request, deleted by a shrink), followed by those still
      in it, are exactly the flush history. */
  lemma {:induction false} RunOrder(s: Queue, es: seq<Event>)
    requires Inv(s) && CanRun(s, es) && forall e :: e in es ==> !Purges(e)
    ensures s.dirty + Flushes(s, es) == Departures(s, es) + Run(s, es).dirty
    decreases |es|
  {
    if es != [] {
      var t := Step(s, es[0]).q;
      StepOrder(s, es[0]);
      StepKeeps(s, es[0]);
      RunOrder(t, es[1..]);
      OrderChain(s.dirty, FlushedBy(s, es[0]), LeftBy(s, es[0]), t.dirty,
                 Flushes(t, es[1..]), Departures(t, es[1..]), Run(s, es).dirty);
    }
  }

  lemma OrderChain(a: seq<SeqNum>, f: seq<SeqNum>, l: seq<SeqNum>, b: seq<SeqNum>, f': seq<SeqNum>, l': seq<SeqNum>, c: seq<SeqNum>)
    requires a + f == l + b && b + f' == l' + c
    ensures a + (f + f') == (l + l') + c
  {
    assert a + (f + f') == (a + f) + f' == l + (b + f');
    assert l + (l' + c) == (l + l') + c;
  }

  lemma PurgeSubsequence(s: Queue, e: Event)
    requires Enabled(s, e) && Purges(e)
    ensures Subsequence(Step(s, e).q.dirty, s.dirty)
  {
    SubsequenceRefl(s.dirty);
    match e {
      case EvCleanBySeqNum(ids) => KeepSubsequence(s.dirty, (q: SeqNum) => q !in ids || q !in s.cache);
      case _ =>
    }
  }

  lemma SuffixSubsequence(a: seq<SeqNum>, b: seq<SeqNum>)
    ensures Subsequence(b, a + b)
  {
    SubsequenceRefl(b);
    SubsequenceConcat([], a, b, b);
    assert [] + b == b;
  }

  lemma StepSubsequence(s: Queue, e: Event)
    requires Inv(s) && Enabled(s, e)
    ensures Subsequence(ConsumedBy(s, e) + Step(s, e).q.dirty, s.dirty + FlushedBy(s, e))
  {
    var t := Step(s, e).q;
    if Purges(e) {
      PurgeSubsequence(s, e);
      assert ConsumedBy(s, e) + t.dirty == t.dirty && s.dirty + FlushedBy(s, e) == s.dirty;
    } else {
      StepOrder(s, e);
      if e.EvAcquire? {
        SubsequenceRefl(LeftBy(s, e) + t.dirty);
      } else {
        SuffixSubsequence(LeftBy(s, e), t.dirty);
        assert ConsumedBy(s, e) + t.dirty == t.dirty;
      }
    }
  }

  /** Two stretches of a run, one after the other. */
  lemma ConsumerChain(a: seq<SeqNum>, b: seq<SeqNum>, c: seq<SeqNum>, took: seq<SeqNum>, took1: seq<SeqNum>,
                      came: seq<SeqNum>, came1: seq<SeqNum>)
    requires Subsequence(took + b, a + came) && Subsequence(took1 + c, b + came1)
    ensures Subsequence((took + took1) + c, a + (came + came1))
  {
    SubsequenceChain(took, b, a + came, took1 + c, came1);
    Regroup(took, took1, c);
    Regroup(a, came, came1);
  }

  /** In every run whatsoever, the frames the consumer got followed by those it may still get
      form a subsequence of the flush history: frames can be lost but never overtake. */
  lemma {:induction false} ConsumerOrder(s: Queue, es: seq<Event>)
    requires Inv(s) && CanRun(s, es)
    ensures Subsequence(Consumed(s, es) + Run(s, es).dirty, s.dirty + Flushes(s, es))
    decreases |es|
  {
    if es == [] {
      SubsequenceRefl(s.dirty);
      assert Consumed(s, es) + s.dirty == s.dirty == s.dirty + Flushes(s, es);
    } else {
      var t := Step(s, es[0]).q;
      StepSubsequence(s, es[0]);
      StepKeeps(s, es[0]);
      ConsumerOrder(t, es[1..]);
      ConsumerChain(s.dirty, t.dirty, Run(s, es).dirty, ConsumedBy(s, es[0]), Consumed(t, es[1..]),
                    FlushedBy(s, es[0]), Flushes(t, es[1..]));
    }
  }

  lemma SubsequenceUnder(c: seq<SeqNum>, u: seq<SeqNum>, v: seq<SeqNum>)
    requires Subsequence(u, v)
    ensures Subsequence(c + u, c + v)
  {
    SubsequenceRefl(c);
    SubsequenceConcat(c, c, u, v);
  }

  lemma SubsequenceBefore(a: seq<SeqNum>, b: seq<SeqNum>, f: seq<SeqNum>)
    requires Subsequence(a, b)
    ensures Subsequence(a + f, b + f)
  {
    SubsequenceRefl(f);
    SubsequenceConcat(a, b, f, f);
  }

  lemma Regroup(a: seq<SeqNum>, b: seq<SeqNum>, c: seq<SeqNum>)
    ensures (a + b) + c == a + (b + c)
  {
  }

  lemma SubsequenceChain(c: seq<SeqNum>, b: seq<SeqNum>, a: seq<SeqNum>, u: seq<SeqNum>, f: seq<SeqNum>)
    requires Subsequence(c + b, a) && Subsequence(u, b + f)
    ensures Subsequence(c + u, a + f)
  {
    SubsequenceUnder(c, u, b + f);
    SubsequenceBefore(c + b, a, f);
    Regroup(c, b, f);
    SubsequenceTrans(c + u, c + (b + f), a + f);
  }
}
