/** What a buffer request does: which id it takes, what it returns, what it leaves alone. */
module Requests {
  import opened Lists
  import opened QueueModel
  import opened Partition
  import opened Shrink

  // ---- the choice of a free buffer ----

  /** `q` is the first entry of the free list that satisfies `p`. */
  ghost predicate FirstWith(l: seq<SeqNum>, q: SeqNum, p: SeqNum -> bool) {
    exists k :: 0 <= k < |l| && l[k] == q && p(q) && forall j :: 0 <= j < k ==> !p(l[j])
  }

  lemma UnlockedMember(l: seq<SeqNum>, locked: SeqNum)
    requires NoDup(l)
    ensures (exists q :: q in l && q != locked) <==> l != [] && l != [locked]
  {
    if l != [] && l != [locked] {
      assert l[0] in l;
      if l[0] == locked {
        assert |l| > 1 by { assert |l| == 1 ==> l == [locked]; }
        NoDupIndex(l, 0, 1);
        assert l[1] in l;
      }
    }
  }

  /** PopFreeListLocked takes the first unlocked match; failing that, and only with the queue
      full, the first unlocked id. */
  lemma PopChoice(s: Queue, cfg: Config)
    requires Inv(s)
    ensures var p := PopFree(s, cfg);
            if exists q :: q in s.free && Fits(s, q, cfg) then
              p.q.Some? && FirstWith(s.free, p.q.value, (q: SeqNum) => Fits(s, q, cfg))
            else if Used(s) >= Room(s) && exists q :: q in s.free && q != s.locked then
              p.q.Some? && FirstWith(s.free, p.q.value, (q: SeqNum) => q != s.locked)
            else p.q.None?
  {
    var p := PopFree(s, cfg);
    var k := FirstFit(s, cfg, 0);
    if k < |s.free| {
      assert s.free[k] in s.free && Fits(s, s.free[k], cfg);
    } else {
      forall q | q in s.free ensures !Fits(s, q, cfg) {
        var j :| 0 <= j < |s.free| && s.free[j] == q;
      }
      UnlockedMember(s.free, s.locked);
      if s.free != [] && s.free != [s.locked] && s.free[0] == s.locked { NoDupIndex(s.free, 0, 1); }
    }
  }

  /** The entries that stay behind keep their order, except that a locked head passed over in
      the second case goes to the back. */
  lemma PopRest(s: Queue, cfg: Config)
    requires Inv(s) && PopFree(s, cfg).q.Some?
    ensures var p := PopFree(s, cfg);
            if (exists q :: q in s.free && Fits(s, q, cfg)) || s.free[0] != s.locked then p.free == Without(s.free, p.q.value)
            else p.free == Without(s.free[1..], p.q.value) + [s.locked]
  {
    var k := FirstFit(s, cfg, 0);
    if k < |s.free| {
      assert s.free[k] in s.free;
      WithoutAt(s.free, k);
    } else {
      forall q | q in s.free ensures !Fits(s, q, cfg) { var j :| 0 <= j < |s.free| && s.free[j] == q; }
    }
  }

  lemma {:induction false} WithoutAt(l: seq<SeqNum>, k: nat)
    requires k < |l| && NoDup(l)
    ensures Without(l, l[k]) == l[..k] + l[k + 1..]
  {
    if k > 0 {
      NoDupIndex(l, 0, k);
      WithoutAt(l[1..], k - 1);
      assert l[..k] == [l[0]] + l[1..][..k - 1];
    }
  }

  /** With the queue full and the status valid, a waiting request finds a buffer exactly when
      the condition it waits for holds. */
  lemma PopAgreesWithWait(s: Queue, cfg: Config)
    requires Inv(s) && Used(s) >= Room(s) && s.opts.valid
    ensures PopFree(s, cfg).q.Some? <==> WaitCondition(s)
  {
    PopChoice(s, cfg);
    UnlockedMember(s.free, s.locked);
  }

  // ---- the effect of a request ----

  predicate SameFrame(s: Queue, t: Queue) {
    && t.size == s.size && t.maxSize == s.maxSize && t.reserved == s.reserved
    && t.locked == s.locked && t.lastFlushed == s.lastFlushed && t.opts == s.opts
  }

  /** `q` was taken off the free list or, in non-blocking mode with the queue full, off the
      front of the dirty list. */
  ghost predicate TakenOff(s: Queue, t: Queue, q: SeqNum) {
    || (&& q in s.free && q != s.locked && t.dirty == s.dirty
        && (forall x :: x in t.free <==> x in s.free && x != q))
    || (&& s.opts.noBlock && Used(s) >= Room(s)
        && s.dirty != [] && q == s.dirty[0] && t.dirty == s.dirty[1..] && t.free == s.free)
  }

  /** Bookkeeping of the re-send protocol when `q` is granted. */
  ghost predicate ResendStep(s: Queue, t: Queue, q: SeqNum, sent: bool) {
    if sent && s.cacheClean then
      var all := forall x :: x in t.cache ==> x in s.resent + [q];
      if all && !s.allocating then !t.cacheClean && t.resent == [] && t.lowering == s.lowering
      else t.cacheClean && t.resent == s.resent + [q] && t.lowering == if all then s.lowering + [q] else s.lowering
    else t.cacheClean == s.cacheClean && t.resent == s.resent && t.lowering == s.lowering
  }

  /** The entry `q` of `s` becomes Requested and is answered with `b`. */
  ghost predicate DidGrant(s: Queue, t: Queue, q: SeqNum, b: Option<Buffer>, gone: seq<SeqNum>) {
    && q in s.cache && q in t.cache && t.cache == s.cache[q := t.cache[q]]
    && t.cache[q] == s.cache[q].(state := Requested, buffer := t.cache[q].buffer, preAlloc := t.cache[q].preAlloc)
    && gone == s.deleting && t.deleting == []
    && ResendStep(s, t, q, b.Some?)
    && (b.None? ==> t.cache[q].buffer == s.cache[q].buffer && t.cache[q].preAlloc == s.cache[q].preAlloc)
    && (b.Some? ==> b.value == t.cache[q].buffer == s.cache[q].buffer.(consumerAttach := false) && !t.cache[q].preAlloc)
  }

  /** `q` is the list entry the request used, if any. */
  ghost predicate Effect(s: Queue, cfg: Config, n: SeqNum, q: Option<SeqNum>, r: Next) {
    && SameFrame(s, r.q)
    && match r.out
       case Failed(_) => r.q == s
       case Blocked => r.q == s
       case Granted(id, b, gone) =>
         && q == Some(id) && TakenOff(s, r.q, id) && DidGrant(s, r.q, id, b, gone)
         && (b.None? <==> !NeedsResend(s, id))
         && SameConfig(cfg, s.cache[id].config)
         && r.q.pending == s.pending && r.q.allocating == s.allocating
       case Allocating(m) =>
         && m == n && r.q.allocating && r.q.pending == s.pending[n := Pending(cfg, q.Some?)]
         && r.q.cacheClean == s.cacheClean && r.q.resent == s.resent && r.q.lowering == s.lowering
         && (if q.Some? then
               && TakenOff(s, r.q, q.value) && q.value in s.cache && r.q.cache == s.cache - {q.value}
               && r.q.deleting == s.deleting + Reports(s.cache, [q.value])
             else
               && r.q.cache == s.cache && r.q.free == s.free && r.q.dirty == s.dirty && r.q.deleting == s.deleting
               && Used(s) < Room(s))
       case _ => false
  }

  lemma GrantEffect(s: Queue, q: SeqNum, realloc: bool)
    requires q in s.cache
    ensures var r := Grant(s, q, realloc, false);
            && r.out.Granted? && r.out.id == q && DidGrant(s, r.q, q, r.out.buffer, r.out.deleting)
            && (r.out.buffer.None? <==> !realloc && !NeedsResend(s, q))
            && r.q.free == s.free && r.q.dirty == s.dirty && r.q.pending == s.pending && r.q.allocating == s.allocating
            && SameFrame(s, r.q)
  {
  }

  /** ReuseBuffer for the id `q` that `s1` has already taken off a list of `s`. */
  lemma ReuseEffect(s: Queue, s1: Queue, q: SeqNum, cfg: Config, n: SeqNum)
    requires s1 == s.(free := s1.free, dirty := s1.dirty)
    requires q in s.cache && TakenOff(s, s1, q) && q !in s1.free
    ensures Effect(s, cfg, n, Some(q), Reuse(s1, q, cfg, n, false))
    ensures Reuse(s1, q, cfg, n, false).out.Granted? || Reuse(s1, q, cfg, n, false).out.Allocating?
  {
    if SameConfig(cfg, s.cache[q].config) {
      GrantEffect(s1, q, false);
    } else {
      WithoutAbsent(s1.free, q);
    }
  }

  lemma PopReuseEffect(s: Queue, cfg: Config, n: SeqNum)
    requires Inv(s) && PopFree(s, cfg).q.Some?
    ensures var p := PopFree(s, cfg);
            Effect(s, cfg, n, p.q, Reuse(s.(free := p.free), p.q.value, cfg, n, false))
  {
    PopShape(s, cfg);
    var p := PopFree(s, cfg);
    assert InState(s.cache, p.q.value, Released);
    ReuseEffect(s, s.(free := p.free), p.q.value, cfg, n);
  }

  lemma StealEffect(s: Queue, cfg: Config, n: SeqNum) returns (q: Option<SeqNum>)
    requires Inv(s) && s.opts.noBlock && Used(s) >= Room(s)
    ensures Effect(s, cfg, n, q, Steal(s, cfg, n))
    ensures Steal(s, cfg, n).out.Allocating? ==> q.Some?
  {
    q := None;
    if s.dirty != [] {
      q := Some(s.dirty[0]);
      DirtyTakes(s);
      assert s.dirty[0] !in s.free by { assert !InState(s.cache, s.dirty[0], Released); }
      ReuseEffect(s, s.(dirty := s.dirty[1..]), s.dirty[0], cfg, n);
    }
  }

  lemma DequeueEffect(s: Queue, cfg: Config, n: SeqNum) returns (q: Option<SeqNum>)
    requires Inv(s)
    ensures Effect(s, cfg, n, q, Dequeue(s, cfg, n, false))
  {
    q := None;
    if !(s.opts.priorityAlloc && Used(s) < Room(s)) {
      var p := PopFree(s, cfg);
      if p.q.Some? {
        q := p.q;
        PopReuseEffect(s, cfg, n);
      } else if Used(s) >= Room(s) && s.opts.noBlock {
        q := StealEffect(s, cfg, n);
      }
    }
  }

  lemma AfterWaitEffect(s: Queue, cfg: Config, n: SeqNum) returns (q: Option<SeqNum>)
    requires Inv(s)
    ensures Effect(s, cfg, n, q, AfterWait(s, cfg, n))
    ensures AfterWait(s, cfg, n).out.Allocating? ==> q.Some?
  {
    q := None;
    if s.opts.valid || s.opts.batch {
      q := PopFree(s, cfg).q;
      if q.Some? { PopReuseEffect(s, cfg, n); }
    }
  }

  lemma RequestEffect(s: Queue, cfg: Config, n: SeqNum) returns (q: Option<SeqNum>)
    requires Inv(s)
    ensures Effect(s, WithDefault(s, cfg), n, q, Request(s, cfg, n, false))
  {
    q := DequeueEffect(s, WithDefault(s, cfg), n);
  }

  // ---- the end of an allocation ----

  ghost predicate FinishedAlloc(s: Queue, n: SeqNum, ok: bool, token: nat, r: Next)
    requires n in s.pending
  {
    var p := s.pending[n];
    && SameFrame(s, r.q) && r.q.pending == s.pending - {n} && !r.q.allocating
    && r.q.free == s.free && r.q.dirty == s.dirty
    && if !ok then
         r.out == Failed(Unknown) && r.q.cache == s.cache && r.q.deleting == s.deleting
         && r.q.cacheClean == s.cacheClean && r.q.resent == s.resent && r.q.lowering == s.lowering
       else
         var b := Buffer(n, token, p.config, p.config, false);
         && r.out == Granted(n, Some(b), s.deleting) && r.q.deleting == []
         && r.q.cache == s.cache[n := Element(b, Requested, false, p.config, false, 0, 0, false, 0)]
         && ResendStep(s.(allocating := false), r.q, n, p.realloc)
  }

  lemma FinishEffect(s: Queue, n: SeqNum, ok: bool, token: nat)
    requires n in s.pending
    ensures FinishedAlloc(s, n, ok, token, FinishAlloc(s, n, ok, token))
  {
    if ok {
      var p := s.pending[n];
      var e := Element(Buffer(n, token, p.config, p.config, false), Requested, false, p.config, false, 0, 0, false, 0);
      var s2 := s.(allocating := false, pending := s.pending - {n}, cache := s.cache[n := e]);
      GrantEffect(s2, n, true);
      assert Grant(s2, n, true, false).q.cache[n] == e;
    }
  }

  // ---- the contract of a request ----

  /** The producer got `id`: it is Requested, on no list, and configured as asked. */
  ghost predicate Delivered(t: Queue, id: SeqNum, b: Option<Buffer>, cfg: Config) {
    && InState(t.cache, id, Requested) && id !in t.free && id !in t.dirty
    && SameConfig(t.cache[id].config, cfg)
    && (b.Some? ==> t.cache[id].buffer == b.value && b.value.id == id)
  }

  lemma InvExcludes(t: Queue, id: SeqNum)
    requires Inv(t) && InState(t.cache, id, Requested)
    ensures id !in t.free && id !in t.dirty
  {
    assert !InState(t.cache, id, Released) && !InState(t.cache, id, Flushed);
  }

  lemma DeliveredByEffect(s: Queue, cfg: Config, n: SeqNum, q: Option<SeqNum>, r: Next)
    requires Inv(s) && Inv(r.q) && Effect(s, cfg, n, q, r) && r.out.Granted?
    ensures Delivered(r.q, r.out.id, r.out.buffer, cfg)
  {
    InvExcludes(r.q, r.out.id);
  }

  /** A request that is granted at once, in whatever way, meets its contract; one that fails
      or has to wait has changed nothing. */
  lemma RequestContract(s: Queue, e: Event)
    requires Inv(s) && Enabled(s, e) && (e.EvRequest? || e.EvDequeue? || e.EvAfterWait?)
    ensures var r := Step(s, e);
            match r.out
            case Granted(id, b, _) =>
              && Delivered(r.q, id, b, if e.EvRequest? then WithDefault(s, e.config) else e.config)
              && (b.None? ==> id in s.cache && r.q.cache[id].buffer == s.cache[id].buffer)
            case Allocating(n) =>
              && n == e.num && n in r.q.pending
              && SameConfig(r.q.pending[n].config, if e.EvRequest? then WithDefault(s, e.config) else e.config)
            case _ => r.q == s
  {
    StepKeeps(s, e);
    var r := Step(s, e);
    var q;
    var cfg := if e.EvRequest? then WithDefault(s, e.config) else e.config;
    match e {
      case EvRequest(c, n) => q := RequestEffect(s, c, n);
      case EvDequeue(c, n) => q := DequeueEffect(s, c, n);
      case EvAfterWait(c, n) => q := AfterWaitEffect(s, c, n);
    }
    if r.out.Granted? { DeliveredByEffect(s, cfg, e.num, q, r); }
  }

  /** The same contract for a request that ends with an allocation. */
  lemma AllocationContract(s: Queue, n: SeqNum, token: nat)
    requires Inv(s) && n in s.pending
    ensures var r := FinishAlloc(s, n, true, token);
            r.out.Granted? && r.out.id == n && r.out.buffer.Some? && Delivered(r.q, n, r.out.buffer, s.pending[n].config)
    ensures var f := FinishAlloc(s, n, false, token);
            f.out.Failed? && f.q.cache == s.cache && f.q.deleting == s.deleting
  {
    FinishKeeps(s, n, true, token);
    FinishEffect(s, n, true, token);
    FinishEffect(s, n, false, token);
    InvExcludes(FinishAlloc(s, n, true, token).q, n);
  }
}
