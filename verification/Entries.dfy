/** Which cache entries a step creates, changes or leaves alone, and how the deletion list keeps
    apart from the cache. */
module Entries {
  import opened Lists
  import opened QueueModel
  import opened Partition
  import opened Requests
  import opened Shrink
  import opened HandOuts
  import opened FrameOrder
  import opened Protocols
  import opened Deletions

  // ---- which entries a step may touch ----

  /** The entry stays, with the same buffer, flags and pre-allocation mark. */
  predicate Kept(s: Queue, t: Queue, q: SeqNum) {
    q in s.cache && q in t.cache && t.cache[q].buffer == s.cache[q].buffer && t.cache[q].preAlloc == s.cache[q].preAlloc
  }

  function Ids(ready: seq<Spare>): seq<SeqNum> {
    if ready == [] then [] else [ready[0].id] + Ids(ready[1..])
  }

  /** The ids whose entries a step may create or whose buffer flags it may change. */
  function Special(s: Queue, e: Event): seq<SeqNum>
    requires Enabled(s, e)
  {
    if Requesting(e) then SentBy(s, e) else Newcomers(e)
  }

  function Newcomers(e: Event): seq<SeqNum> {
    match e
    case EvFinishAlloc(n, _, _) => [n]
    case EvAttachAndFlush(b, _) => [b.id]
    case EvProducerAttach(b) => [b.id]
    case EvConsumerAttach(b) => [b.id]
    case EvAttachBuffer(b) => [b.id]
    case EvConsumerDetach(q, _) => [q]
    case EvLowerFlag(q) => [q]
    case EvPreAlloc(_, ready) => Ids(ready)
    case _ => []
  }

  /** All other entries are kept or gone. */
  ghost predicate Local(s: Queue, t: Queue, special: seq<SeqNum>) {
    forall q :: q in t.cache && q !in special ==> Kept(s, t, q)
  }

  lemma ReleaseLocal(s: Queue, q: SeqNum)
    requires Inv(s)
    ensures Local(s, Release(s, q).q, [])
  {
    ReleaseEffect(s, q);
    var m, r := ReleaseLocked(s, q).q, Release(s, q);
    if r.out.Returned? {
      forall x | x in r.q.cache ensures Kept(s, r.q, x) {
        assert Kept(s, m, x);
        if x in r.out.handed { assert HandedEntry(m, r.q, x); }
      }
    }
  }

  lemma DeleteLocal(s: Queue, count: int)
    requires Inv(s)
    ensures Local(s, DeleteBuffers(s, count), [])
  {
    if count > 0 {
      forall q | q in DeleteBuffers(s, count).cache { ShrinkMarks(s, count, q); }
    }
  }

  lemma ResizeLocal(s: Queue, n: u32)
    requires Inv(s)
    ensures Local(s, SetQueueSize(s, n).q, []) && Local(s, SetMaxQueueSize(s, n).q, [])
  {
    DeleteLocal(s, s.size - Clamped(s, n));
    DeleteLocal(s.(maxSize := n), s.size - n);
  }

  lemma AttachBufferLocal(s: Queue, b: Buffer)
    requires Inv(s)
    ensures Local(s, AttachBuffer(s, b).q, [b.id])
  {
    DeleteLocal(s, Used(s) - s.size + 1);
    var t, r := DeleteBuffers(s, Used(s) - s.size + 1), AttachBuffer(s, b);
    forall q | q in r.q.cache && q != b.id ensures Kept(s, r.q, q) {
      if r.out.Done? && b.id !in s.cache { assert Kept(s, t, q); }
    }
  }

  lemma {:induction false} PreAllocLocal(s: Queue, cfg: Config, ready: seq<Spare>)
    requires FreshAll(s, ready)
    ensures Local(s, PreAllocInsert(s, cfg, ready).q, Ids(ready))
    decreases |ready|
  {
    if ready != [] && Used(s) < Room(s) {
      var p := ready[0];
      var s1 := s.(cache := s.cache[p.id := PreAllocElement(p, cfg)], free := s.free + [p.id]);
      assert FreshAll(s1, ready[1..]) by {
        forall i | 0 <= i < |ready[1..]| ensures Fresh(s1, ready[1..][i].id) { assert Fresh(s, ready[i + 1].id); }
      }
      PreAllocLocal(s1, cfg, ready[1..]);
      var t := PreAllocInsert(s, cfg, ready).q;
      forall q | q in t.cache && q !in Ids(ready) ensures Kept(s, t, q) { assert Kept(s1, t, q); }
    }
  }

  lemma RequestingLocal(s: Queue, e: Event)
    requires Inv(s) && Enabled(s, e) && Requesting(e)
    ensures Local(s, Step(s, e).q, Special(s, e))
    ensures forall n :: n in Step(s, e).q.pending ==> n in s.pending || n == e.num
  {
    var q := RequestingEffect(s, e);
  }

  predicate Plain(e: Event) {
    e.EvCancel? || e.EvAcquire? || e.EvDropByLevel? || e.EvTimedSelect? || e.EvLock? || e.EvUnlock? || e.EvConfigure?
    || e.EvTurnedAway? || Drains(e)
  }

  predicate Drains(e: Event) {
    e.EvProducerDetach? || e.EvDetachBuffer? || e.EvClear? || e.EvSetCleanFlag? || e.EvCleanReleased? || e.EvCleanBySeqNum?
  }

  lemma PlainLocal(s: Queue, e: Event)
    requires Enabled(s, e) && Plain(e)
    ensures Local(s, Step(s, e).q, []) && Special(s, e) == []
  {
    if Drains(e) { DrainsLocal(s, e); } else { StaysLocal(s, e); }
  }

  lemma DrainsLocal(s: Queue, e: Event)
    requires Enabled(s, e) && Drains(e)
    ensures Local(s, Step(s, e).q, []) && Special(s, e) == []
  {
  }

  lemma StaysLocal(s: Queue, e: Event)
    requires Enabled(s, e) && Plain(e) && !Drains(e)
    ensures Local(s, Step(s, e).q, []) && Special(s, e) == []
  {
  }

  lemma FlushLocal(s: Queue, q: SeqNum, f: Frame)
    ensures Local(s, Flush(s, q, f, true).q, [])
  {
  }

  lemma ConsumerDetachLocal(s: Queue, q: SeqNum, reserve: bool)
    ensures Local(s, ConsumerDetach(s, q, reserve).q, [q])
  {
  }

  lemma LowerFlagLocal(s: Queue, q: SeqNum)
    ensures Local(s, LowerFlag(s, q).q, [q])
  {
  }

  lemma AttachLocal(s: Queue, b: Buffer, f: Frame)
    ensures Local(s, AttachToQueue(s, b, Producer).q, [b.id]) && Local(s, ConsumerAttach(s, b).q, [b.id])
    ensures Local(s, AttachAndFlush(s, b, f).q, [b.id])
  {
  }

  lemma StepLocal(s: Queue, e: Event)
    requires Inv(s) && Enabled(s, e)
    ensures Local(s, Step(s, e).q, Special(s, e))
  {
    match e {
      case EvRequest(_, _) => RequestingLocal(s, e);
      case EvDequeue(_, _) => RequestingLocal(s, e);
      case EvAfterWait(_, _) => RequestingLocal(s, e);
      case EvFinishAlloc(n, ok, t) => FinishEffect(s, n, ok, t);
      case EvFlush(q, f) => FlushLocal(s, q, f);
      case EvAttachAndFlush(b, f) => AttachLocal(s, b, f);
      case EvRelease(q) => ReleaseLocal(s, q);
      case EvProducerAttach(b) => AttachLocal(s, b, Frame(0, 0, 0, true, true));
      case EvConsumerAttach(b) => AttachLocal(s, b, Frame(0, 0, 0, true, true));
      case EvConsumerDetach(q, r) => ConsumerDetachLocal(s, q, r);
      case EvLowerFlag(q) => LowerFlagLocal(s, q);
      case EvAttachBuffer(b) => AttachBufferLocal(s, b);
      case EvSetQueueSize(n) => ResizeLocal(s, n);
      case EvSetMaxQueueSize(n) => ResizeLocal(s, n);
      case EvPreAlloc(c, ready) => PreAllocLocal(s, c, ready);
      case _ => PlainLocal(s, e);
    }
  }

  // ---- pending allocations ----

  lemma StepPending(s: Queue, e: Event)
    requires Inv(s) && Enabled(s, e)
    ensures forall n :: n in Step(s, e).q.pending ==> n in s.pending || (Requesting(e) && n == e.num)
  {
    if Requesting(e) {
      RequestingLocal(s, e);
    } else if Bystander(e) {
      BystanderQuiet(s, e);
    } else {
      match e {
        case EvFinishAlloc(n, ok, t) => FinishEffect(s, n, ok, t);
        case _ =>
      }
    }
  }

  // ---- the deletion list and the cache are disjoint ----

  /** Every reported id is gone, and none is reported twice. */
  ghost predicate Tidy(s: Queue) {
    NoDup(s.deleting) && forall q :: q in s.deleting ==> q !in s.cache && q !in s.pending
  }

  /** No buffer enters the queue under a number whose deletion is still to be delivered. */
  predicate Settled(s: Queue, e: Event) {
    match e
    case EvRequest(_, n) => n !in s.deleting
    case EvDequeue(_, n) => n !in s.deleting
    case EvAfterWait(_, n) => n !in s.deleting
    case EvProducerAttach(b) => b.id !in s.deleting
    case EvAttachAndFlush(b, _) => b.id !in s.deleting
    case EvConsumerAttach(b) => b.id !in s.deleting
    case EvAttachBuffer(b) => b.id !in s.deleting
    case EvPreAlloc(_, ready) => forall i :: 0 <= i < |ready| ==> ready[i].id !in s.deleting
    case _ => true
  }

  lemma {:induction false} ReportsMembers(cache: map<SeqNum, Element>, l: seq<SeqNum>)
    ensures forall q :: q in Reports(cache, l) <==> q in l && q in cache && !cache[q].preAlloc
    ensures NoDup(l) ==> NoDup(Reports(cache, l))
  {
    if l != [] {
      ReportsMembers(cache, l[1..]);
      assert l == [l[0]] + l[1..];
      var h := if l[0] in cache && !cache[l[0]].preAlloc then [l[0]] else [];
      if NoDup(l) { NoDupConcat(h, Reports(cache, l[1..])); }
    }
  }

  /** What the new deletion list may contain. */
  ghost predicate Listed(s: Queue, t: Queue) {
    && (forall q :: q in t.deleting ==> q in s.deleting || (q in s.cache && q !in t.cache))
    && (Tidy(s) ==> NoDup(t.deleting))
  }

  lemma BalancedListed(s: Queue, e: Event, r: Next)
    requires Inv(s) && Balanced(s, e, r) && !Silent(e) && NoDup(Both(s) + Subject(e))
    ensures Listed(s, r.q)
  {
    var l := Both(s) + Subject(e);
    var v := Vanished(s, r.q, l);
    KeepMembers(l, (q: SeqNum) => q in s.cache && q !in r.q.cache);
    ReportsMembers(s.cache, v);
    var d, all := DeliveredBy(r.out), s.deleting + Reports(s.cache, v);
    assert r.q.deleting == all[|d|..];
    assert forall q :: q in r.q.deleting ==> q in all;
    if Tidy(s) {
      NoDupConcat(s.deleting, Reports(s.cache, v));
      NoDupDrop(all, |d|);
    }
  }

  lemma ListedSame(s: Queue, t: Queue)
    requires t.deleting == s.deleting || t.deleting == []
    ensures Listed(s, t)
  {
  }

  lemma ReleaseListed(s: Queue, q: SeqNum)
    requires Inv(s)
    ensures Listed(s, Release(s, q).q)
  {
    ReleaseEffect(s, q);
    var m, r := ReleaseLocked(s, q).q, Release(s, q);
    if m.deleting != s.deleting && r.q.deleting != [] {
      assert r.q.deleting == s.deleting + [q] && q in s.cache && q !in r.q.cache;
      if Tidy(s) { NoDupSnoc(s.deleting, q); }
    }
  }

  lemma SubjectListed(s: Queue, q: SeqNum, f: Frame, reserve: bool)
    requires Inv(s)
    ensures Listed(s, Flush(s, q, f, true).q) && Listed(s, ConsumerDetach(s, q, reserve).q)
  {
    if Tidy(s) && q in s.cache { NoDupSnoc(s.deleting, q); }
  }

  lemma UnlistedSame(s: Queue, e: Event)
    requires Enabled(s, e) && Plain(e)
    ensures Step(s, e).q.deleting == s.deleting || Step(s, e).q.deleting == []
  {
    if Drains(e) { DrainedSame(s, e); }
  }

  lemma DrainedSame(s: Queue, e: Event)
    requires Enabled(s, e) && Drains(e)
    ensures Step(s, e).q.deleting == s.deleting || Step(s, e).q.deleting == []
  {
  }

  lemma StepListed(s: Queue, e: Event)
    requires Inv(s) && Enabled(s, e)
    ensures Listed(s, Step(s, e).q)
  {
    if Plain(e) {
      UnlistedSame(s, e);
      ListedSame(s, Step(s, e).q);
    } else if e.EvRelease? {
      ReleaseListed(s, e.id);
    } else if e.EvFlush? {
      SubjectListed(s, e.id, e.frame, true);
    } else if e.EvConsumerDetach? {
      SubjectListed(s, e.id, Frame(0, 0, 0, true, true), e.reserve);
    } else {
      StepBalanced(s, e);
      BothNoDup(s);
      assert Both(s) + Subject(e) == Both(s);
      BalancedListed(s, e, Step(s, e));
    }
  }

  lemma {:induction false} IdsMembers(ready: seq<Spare>, q: SeqNum)
    ensures q in Ids(ready) <==> exists i :: 0 <= i < |ready| && ready[i].id == q
  {
    if ready != [] {
      IdsMembers(ready[1..], q);
      if q in Ids(ready[1..]) { var i :| 0 <= i < |ready[1..]| && ready[1..][i].id == q; assert ready[i + 1].id == q; }
      if exists i :: 0 <= i < |ready| && ready[i].id == q {
        var i :| 0 <= i < |ready| && ready[i].id == q;
        if i > 0 { assert ready[1..][i - 1].id == q; }
      }
    }
  }

  lemma SpecialSettled(s: Queue, e: Event)
    requires Inv(s) && Enabled(s, e) && Tidy(s) && Settled(s, e)
    ensures forall q :: q in Special(s, e) && q in Step(s, e).q.cache ==> q !in s.deleting
  {
    if Requesting(e) {
      var x := RequestingEffect(s, e);
    } else {
      match e {
        case EvPreAlloc(_, ready) => forall q | q in Ids(ready) ensures q !in s.deleting { IdsMembers(ready, q); }
        case EvConsumerDetach(q, r) => assert q in ConsumerDetach(s, q, r).q.cache ==> q in s.cache;
        case _ =>
      }
    }
  }

  /** The list of deleted ids stays free of duplicates and apart from the live ids, unless a
      number is brought back before its deletion was delivered. */
  lemma StepTidy(s: Queue, e: Event)
    requires Inv(s) && Enabled(s, e) && Tidy(s) && Settled(s, e)
    ensures Tidy(Step(s, e).q)
  {
    StepListed(s, e);
    StepLocal(s, e);
    StepPending(s, e);
    var t := Step(s, e).q;
    SpecialSettled(s, e);
    TidyCore(s, t, Special(s, e), if Requesting(e) then [e.num] else []);
  }

  lemma TidyCore(s: Queue, t: Queue, special: seq<SeqNum>, fresh_: seq<SeqNum>)
    requires Inv(s) && Tidy(s) && Listed(s, t) && Local(s, t, special)
    requires forall n :: n in t.pending ==> n in s.pending || n in fresh_
    requires forall q :: q in special && q in t.cache ==> q !in s.deleting
    requires forall n :: n in fresh_ ==> n !in s.deleting && n !in s.cache
    ensures Tidy(t)
  {
    forall q | q in t.deleting ensures q !in t.cache && q !in t.pending {
      assert q in t.cache && q !in special ==> Kept(s, t, q);
    }
  }
}
