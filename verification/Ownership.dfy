/** Who holds a buffer: once given to the producer it is nobody else's until it is given up. */
module Ownership {
  import opened Lists
  import opened QueueModel
  import opened Partition
  import opened Requests
  import opened Shrink
  import opened HandOuts
  import opened FrameOrder
  import opened Protocols
  import opened Entries

  /** The calls by which the producer's buffer `q` may leave its hands. */
  predicate MayGiveUp(e: Event, q: SeqNum) {
    match e
    case EvCancel(x) => x == q
    case EvFlush(x, _) => x == q
    case EvProducerDetach(x) => x == q
    case EvDetachBuffer(x) => x == q
    case EvCleanBySeqNum(ids) => q in ids
    case EvClear => true
    case _ => false
  }

  /** The call is not refused. A plain flush that finds no listener gives the buffer back. */
  predicate GivesUp(s: Queue, e: Event, q: SeqNum)
    requires Enabled(s, e)
  {
    MayGiveUp(e, q) && match e
                       case EvFlush(_, _) => Step(s, e).out in {Done, Failed(NoListener)}
                       case _ => Step(s, e).out == Done
  }

  predicate Held(s: Queue, q: SeqNum) { InState(s.cache, q, Requested) }

  /** The producer still holds `q`, configured as before. */
  predicate KeptFor(s: Queue, t: Queue, q: SeqNum)
    requires q in s.cache
  {
    Held(t, q) && t.cache[q].config == s.cache[q].config
  }

  lemma ShrinkHolds(s: Queue, count: int, q: SeqNum)
    requires Inv(s) && Held(s, q)
    ensures KeptFor(s, DeleteBuffers(s, count), q)
  {
    if count > 0 {
      ShrinkKeys(s, count);
      InvExcludes(s, q);
      CutMembers(Both(s), Found(s, count), q);
      assert q !in Both(s);
      ShrinkMarks(s, count, q);
    }
  }

  lemma ResizeHolds(s: Queue, n: u32, q: SeqNum)
    requires Inv(s) && Held(s, q)
    ensures KeptFor(s, SetQueueSize(s, n).q, q) && KeptFor(s, SetMaxQueueSize(s, n).q, q)
  {
    ShrinkHolds(s, s.size - Clamped(s, n), q);
    ShrinkHolds(s.(maxSize := n), s.size - n, q);
  }

  lemma AttachBufferHolds(s: Queue, b: Buffer, q: SeqNum)
    requires Inv(s) && Held(s, q)
    ensures KeptFor(s, AttachBuffer(s, b).q, q)
  {
    ShrinkHolds(s, Used(s) - s.size + 1, q);
  }

  lemma ReleaseHolds(s: Queue, x: SeqNum, q: SeqNum)
    requires Inv(s) && Held(s, q)
    ensures KeptFor(s, Release(s, x).q, q) && q !in GivenIn(Release(s, x).out)
  {
    ReleaseEffect(s, x);
    var m, r := ReleaseLocked(s, x).q, Release(s, x);
    if r.out.Returned? {
      LockedPartHolds(s, x, q);
      assert q in r.out.handed ==> HandedEntry(m, r.q, q);
    }
  }

  lemma LockedPartHolds(s: Queue, x: SeqNum, q: SeqNum)
    requires Inv(s) && Held(s, q)
    ensures var m := ReleaseLocked(s, x).q; KeptFor(s, m, q) && q !in m.free
  {
    ReleaseLockedKeeps(s, x);
    assert Held(ReleaseLocked(s, x).q, q);
    InvExcludes(ReleaseLocked(s, x).q, q);
  }

  lemma {:induction false} PreAllocHolds(s: Queue, cfg: Config, ready: seq<Spare>, q: SeqNum)
    requires FreshAll(s, ready) && Held(s, q)
    ensures KeptFor(s, PreAllocInsert(s, cfg, ready).q, q)
    decreases |ready|
  {
    if ready != [] && Used(s) < Room(s) {
      var p := ready[0];
      var s1 := s.(cache := s.cache[p.id := PreAllocElement(p, cfg)], free := s.free + [p.id]);
      assert FreshAll(s1, ready[1..]) by {
        forall i | 0 <= i < |ready[1..]| ensures Fresh(s1, ready[1..][i].id) { assert Fresh(s, ready[i + 1].id); }
      }
      assert Fresh(s, ready[0].id);
      PreAllocHolds(s1, cfg, ready[1..], q);
    }
  }

  lemma RequestingHolds(s: Queue, e: Event, q: SeqNum)
    requires Inv(s) && Enabled(s, e) && Requesting(e) && Held(s, q)
    ensures KeptFor(s, Step(s, e).q, q) && q !in GivenBy(s, e)
  {
    InvExcludes(s, q);
    var x := RequestingEffect(s, e);
  }

  predicate Direct(e: Event) {
    Simple(e) || e.EvSetCleanFlag? || e.EvFlush? || e.EvAttachAndFlush? || e.EvLock? || e.EvUnlock? || e.EvConfigure?
    || e.EvLowerFlag?
  }

  lemma ConsumerHolds(s: Queue, due: int, useAuto: bool, q: SeqNum)
    requires Inv(s) && Held(s, q)
    ensures KeptFor(s, Acquire(s).q, q) && KeptFor(s, DropByLevel(s).q, q) && KeptFor(s, TimedSelect(s, due, useAuto).q, q)
  {
    InvExcludes(s, q);
    assert forall n :: 0 <= n <= |s.dirty| ==> q !in s.dirty[..n];
  }

  lemma CleanReleasedHolds(s: Queue, q: SeqNum)
    requires Inv(s) && Held(s, q)
    ensures KeptFor(s, CleanReleased(s).q, q)
  {
    InvExcludes(s, q);
    KeepMembers(s.free, (x: SeqNum) => !Spared(s, x));
  }

  lemma DirectHolds(s: Queue, e: Event, q: SeqNum)
    requires Inv(s) && Enabled(s, e) && Direct(e) && Held(s, q) && !MayGiveUp(e, q)
    ensures KeptFor(s, Step(s, e).q, q)
  {
    match e {
      case EvAcquire => ConsumerHolds(s, 0, false, q);
      case EvDropByLevel => ConsumerHolds(s, 0, false, q);
      case EvTimedSelect(due, useAuto) => ConsumerHolds(s, due, useAuto, q);
      case EvCleanReleased => CleanReleasedHolds(s, q);
      case EvFlush(x, f) => FlushHolds(s, x, f, q);
      case EvAttachAndFlush(b, f) => AttachAndFlushHolds(s, b, f, q);
      case _ => if Moving(e) { MovingHolds(s, e, q); } else { MinorHolds(s, e, q); }
    }
  }

  lemma FlushHolds(s: Queue, x: SeqNum, f: Frame, q: SeqNum)
    requires Held(s, q) && x != q
    ensures KeptFor(s, Flush(s, x, f, true).q, q)
  {
  }

  lemma AttachAndFlushHolds(s: Queue, b: Buffer, f: Frame, q: SeqNum)
    requires Held(s, q)
    ensures KeptFor(s, AttachAndFlush(s, b, f).q, q)
  {
  }

  predicate Moving(e: Event) {
    e.EvCancel? || e.EvProducerAttach? || e.EvConsumerAttach? || e.EvProducerDetach? || e.EvConsumerDetach? || e.EvDetachBuffer?
  }

  lemma MovingHolds(s: Queue, e: Event, q: SeqNum)
    requires Enabled(s, e) && Moving(e) && Held(s, q) && !MayGiveUp(e, q)
    ensures KeptFor(s, Step(s, e).q, q)
  {
  }

  lemma MinorHolds(s: Queue, e: Event, q: SeqNum)
    requires Enabled(s, e) && Held(s, q) && !MayGiveUp(e, q)
    requires e.EvSetCleanFlag? || e.EvCleanBySeqNum? || e.EvLock? || e.EvUnlock? || e.EvConfigure?
             || e.EvLowerFlag? || e.EvTurnedAway?
    ensures KeptFor(s, Step(s, e).q, q)
  {
  }

  lemma GivesNothing(s: Queue, e: Event)
    requires Enabled(s, e) && !Requesting(e) && !e.EvFinishAlloc? && !e.EvRelease?
    ensures GivenBy(s, e) == []
  {
    if Bystander(e) { BystanderGivesNothing(s, e); }
  }

  lemma RefusedHolds(s: Queue, e: Event, q: SeqNum)
    requires Enabled(s, e) && Held(s, q) && MayGiveUp(e, q) && !GivesUp(s, e, q)
    ensures KeptFor(s, Step(s, e).q, q) && GivenBy(s, e) == []
  {
  }

  lemma StepHolds(s: Queue, e: Event, q: SeqNum)
    requires Inv(s) && Enabled(s, e) && Held(s, q) && !GivesUp(s, e, q)
    ensures KeptFor(s, Step(s, e).q, q) && q !in GivenBy(s, e)
  {
    if MayGiveUp(e, q) {
      RefusedHolds(s, e, q);
    } else if Requesting(e) {
      RequestingHolds(s, e, q);
    } else if e.EvRelease? {
      ReleaseHolds(s, e.id, q);
    } else if e.EvFinishAlloc? {
      FinishEffect(s, e.num, e.ok, e.token);
    } else {
      GivesNothing(s, e);
      match e {
        case EvAttachBuffer(b) => AttachBufferHolds(s, b, q);
        case EvSetQueueSize(n) => ResizeHolds(s, n, q);
        case EvSetMaxQueueSize(n) => ResizeHolds(s, n, q);
        case EvPreAlloc(c, ready) => PreAllocHolds(s, c, ready, q);
        case _ => DirectHolds(s, e, q);
      }
    }
  }

  predicate NeverGivenUp(s: Queue, es: seq<Event>, q: SeqNum)
    requires CanRun(s, es)
    decreases |es|
  {
    es == [] || (!GivesUp(s, es[0], q) && NeverGivenUp(Step(s, es[0]).q, es[1..], q))
  }

  /** Exclusive use: from the moment a buffer is in the producer's hands until a call gives it up,
      it stays there, and no request and no hand-out of any run gives it out a second time. */
  lemma {:induction false} HeldUntilGivenUp(s: Queue, es: seq<Event>, q: SeqNum)
    requires Inv(s) && CanRun(s, es) && Held(s, q) && NeverGivenUp(s, es, q)
    ensures KeptFor(s, Run(s, es), q) && q !in Given(s, es)
    decreases |es|
  {
    if es != [] {
      StepHolds(s, es[0], q);
      StepKeeps(s, es[0]);
      HeldUntilGivenUp(Step(s, es[0]).q, es[1..], q);
    }
  }

  lemma HandedAreHeld(s: Queue, x: SeqNum)
    requires Inv(s)
    ensures var r := Release(s, x); NoDup(GivenIn(r.out)) && forall q :: q in GivenIn(r.out) ==> Held(r.q, q)
  {
    ReleaseEffect(s, x);
    var m, r := ReleaseLocked(s, x).q, Release(s, x);
    if r.out.Returned? {
      forall q | q in r.out.handed ensures Held(r.q, q) { assert HandedEntry(m, r.q, q); }
    }
  }

  /** What a step gives is then held. */
  lemma GivenIsHeld(s: Queue, e: Event)
    requires Inv(s) && Enabled(s, e)
    ensures forall q :: q in GivenBy(s, e) ==> Held(Step(s, e).q, q)
    ensures NoDup(GivenBy(s, e))
  {
    if Requesting(e) {
      var x := RequestingEffect(s, e);
    } else if e.EvRelease? {
      HandedAreHeld(s, e.id);
    } else if e.EvFinishAlloc? {
      FinishEffect(s, e.num, e.ok, e.token);
    } else {
      GivesNothing(s, e);
    }
  }

  // ---- what a producer collects while other threads run ----

  /** Which steps of a run are the batch's own. */
  predicate Tags(own: seq<bool>, es: seq<Event>) { |own| == |es| }

  /** What the batch's own steps give. */
  function Collects(s: Queue, es: seq<Event>, own: seq<bool>): seq<SeqNum>
    requires CanRun(s, es) && Tags(own, es)
    decreases |es|
  {
    if es == [] then [] else (if own[0] then GivenBy(s, es[0]) else []) + Collects(Step(s, es[0]).q, es[1..], own[1..])
  }

  /** What the batch was given is not given up in the rest of the run; of the other threads' buffers,
      and of the other buffers of the producer, nothing is said. */
  predicate EachKept(s: Queue, es: seq<Event>, own: seq<bool>)
    requires CanRun(s, es) && Tags(own, es)
    decreases |es|
  {
    es == [] ||
    (&& (own[0] ==> forall q :: q in GivenBy(s, es[0]) ==> NeverGivenUp(Step(s, es[0]).q, es[1..], q))
     && EachKept(Step(s, es[0]).q, es[1..], own[1..]))
  }

  /** The configuration a step was asked for, if it is one of a request. */
  function AskedBy(s: Queue, e: Event): Option<Config> {
    match e
    case EvRequest(c, _) => Some(WithDefault(s, c))
    case EvDequeue(c, _) => Some(c)
    case EvAfterWait(c, _) => Some(c)
    case EvFinishAlloc(n, _, _) => if n in s.pending then Some(s.pending[n].config) else None
    case _ => None
  }

  /** In `t` each buffer granted to the batch is configured as its request asked. */
  predicate AsAsked(s: Queue, es: seq<Event>, own: seq<bool>, t: Queue)
    requires CanRun(s, es) && Tags(own, es)
    decreases |es|
  {
    es == [] ||
    (&& (own[0] && Step(s, es[0]).out.Granted? ==>
           var id := Step(s, es[0]).out.id;
           AskedBy(s, es[0]).Some? && id in t.cache && SameConfig(t.cache[id].config, AskedBy(s, es[0]).value))
     && AsAsked(Step(s, es[0]).q, es[1..], own[1..], t))
  }

  lemma GrantedAsAsked(s: Queue, e: Event)
    requires Inv(s) && Enabled(s, e) && Step(s, e).out.Granted?
    ensures var r := Step(s, e);
            AskedBy(s, e).Some? && Held(r.q, r.out.id) && SameConfig(r.q.cache[r.out.id].config, AskedBy(s, e).value)
  {
    if Requesting(e) {
      RequestContract(s, e);
    } else if e.EvFinishAlloc? {
      FinishEffect(s, e.num, e.ok, e.token);
    } else if !e.EvRelease? {
      GivesNothing(s, e);
    }
  }

  lemma {:induction false} CollectsGiven(s: Queue, es: seq<Event>, own: seq<bool>)
    requires CanRun(s, es) && Tags(own, es)
    ensures forall q :: q in Collects(s, es, own) ==> q in Given(s, es)
    decreases |es|
  {
    if es != [] { CollectsGiven(Step(s, es[0]).q, es[1..], own[1..]); }
  }

  /** What an own step gives stays held and as asked to the end, and nobody else gets it. */
  lemma OwnStep(s: Queue, es: seq<Event>)
    requires Inv(s) && es != [] && CanRun(s, es)
    requires forall q :: q in GivenBy(s, es[0]) ==> NeverGivenUp(Step(s, es[0]).q, es[1..], q)
    ensures var t, u := Step(s, es[0]).q, Run(s, es);
            && NoDup(GivenBy(s, es[0]))
            && (forall q :: q in GivenBy(s, es[0]) ==> q !in Given(t, es[1..]) && Held(u, q))
            && (Step(s, es[0]).out.Granted? ==>
                  var id := Step(s, es[0]).out.id;
                  AskedBy(s, es[0]).Some? && id in u.cache && SameConfig(u.cache[id].config, AskedBy(s, es[0]).value))
  {
    var t := Step(s, es[0]).q;
    StepKeeps(s, es[0]);
    GivenIsHeld(s, es[0]);
    forall q | q in GivenBy(s, es[0]) ensures q !in Given(t, es[1..]) && KeptFor(t, Run(t, es[1..]), q) {
      HeldUntilGivenUp(t, es[1..], q);
    }
    if Step(s, es[0]).out.Granted? {
      GrantedAsAsked(s, es[0]);
      assert Step(s, es[0]).out.id in GivenBy(s, es[0]);
    }
  }

  /** However the steps of a batch of requests interleave with those of the other threads, which may
      request, flush, cancel and detach buffers of their own: as long as no id given to the batch is
      given up, its ids are pairwise distinct, all of them are held at the end, and each is
      configured as its request asked. */
  lemma {:induction false} BatchDistinct(s: Queue, es: seq<Event>, own: seq<bool>)
    requires Inv(s) && CanRun(s, es) && Tags(own, es) && EachKept(s, es, own)
    ensures NoDup(Collects(s, es, own)) && forall q :: q in Collects(s, es, own) ==> Held(Run(s, es), q)
    ensures AsAsked(s, es, own, Run(s, es))
    decreases |es|
  {
    if es != [] {
      var t := Step(s, es[0]).q;
      StepKeeps(s, es[0]);
      BatchDistinct(t, es[1..], own[1..]);
      if own[0] {
        OwnStep(s, es);
        CollectsGiven(t, es[1..], own[1..]);
        NoDupConcat(GivenBy(s, es[0]), Collects(t, es[1..], own[1..]));
      } else {
        assert [] + Collects(t, es[1..], own[1..]) == Collects(t, es[1..], own[1..]);
      }
    }
  }
}
