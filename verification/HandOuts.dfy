/** The listener hand-out: after a release, buffers are requested on the producer's behalf. */
module HandOuts {
  import opened Lists
  import opened QueueModel
  import opened Partition
  import opened Requests

  ghost predicate SameMembers(a: seq<SeqNum>, b: seq<SeqNum>) { forall x :: x in a <==> x in b }

  predicate Untouched(s: Queue, t: Queue) {
    && SameFrame(s, t) && t.dirty == s.dirty && t.pending == s.pending && t.allocating == s.allocating
    && t.cacheClean == s.cacheClean && t.resent == s.resent && t.lowering == s.lowering
  }

  /** A listener request for `c` passes its checks and finds a free buffer that fits. It then takes
      the deletion list, before it finds out whether it can be granted. */
  ghost predicate Answers(s: Queue, c: Config) {
    && (s.opts.batch || (s.opts.valid && s.opts.listener)) && ConfigOk(WithDefault(s, c)) && !s.allocating
    && exists q :: q in s.free && Fits(s, q, WithDefault(s, c))
  }

  ghost predicate AnswersAny(s: Queue, configs: seq<Config>) { exists c :: c in configs && Answers(s, c) }

  /** A hand-out from this state takes the deletion list, which no reply will carry. */
  ghost predicate Drops(s: Queue) { AnswersAny(s, FreeConfigs(s, 0, [])) }

  /** A listener request takes one unlocked id that needs no re-send, or takes nothing. It empties
      the deletion list exactly when it answers, granted or not. */
  ghost predicate Listened(s: Queue, c: Config, r: Next) {
    && Untouched(s, r.q)
    && r.q.deleting == (if Answers(s, c) then [] else s.deleting) && (r.out.Granted? ==> Answers(s, c))
    && if r.out.Granted? then
         var id := r.out.id;
         && id in s.free && id in s.cache && id != s.locked && !NeedsResend(s, id)
         && r.q.cache == s.cache[id := s.cache[id].(state := Requested)]
         && (forall x :: x in r.q.free <==> x in s.free && x != id)
       else r.q.cache == s.cache && SameMembers(r.q.free, s.free)
  }

  lemma ListenReuse(s: Queue, free: seq<SeqNum>, q: SeqNum, cfg: Config)
    requires InState(s.cache, q, Released) && q in s.free && q != s.locked
    requires forall x :: x in free <==> x in s.free && x != q
    ensures var r := Reuse(s.(free := free), q, cfg, 0, true);
            && Untouched(s, r.q)
            && r.q.deleting == (if Fits(s, q, cfg) then [] else s.deleting) && (r.out.Granted? ==> Fits(s, q, cfg))
            && if r.out.Granted? then
                 && r.out.id == q && !NeedsResend(s, q) && r.q.cache == s.cache[q := s.cache[q].(state := Requested)]
                 && (forall x :: x in r.q.free <==> x in s.free && x != q)
               else r.q.cache == s.cache && SameMembers(r.q.free, s.free)
  {
    assert s.cache[q := s.cache[q].(state := Released)] == s.cache;
  }

  /** The pop finds a buffer that fits if there is one. */
  lemma PopFits(s: Queue, cfg: Config)
    ensures (exists q :: q in s.free && Fits(s, q, cfg)) <==> PopFree(s, cfg).q.Some? && Fits(s, PopFree(s, cfg).q.value, cfg)
  {
    var k := FirstFit(s, cfg, 0);
    if k == |s.free| {
      forall q | q in s.free ensures !Fits(s, q, cfg) { var j :| 0 <= j < |s.free| && s.free[j] == q; }
    }
  }

  lemma ListenEffect(s: Queue, cfg: Config)
    requires Inv(s)
    ensures Listened(s, cfg, Request(s, cfg, 0, true))
  {
    var c := WithDefault(s, cfg);
    PopShape(s, c);
    PopFits(s, c);
    var p := PopFree(s, c);
    if p.q.Some? {
      assert InState(s.cache, p.q.value, Released);
      ListenReuse(s, p.free, p.q.value, c);
    }
  }

  ghost predicate AllDifferent(configs: seq<Config>) {
    forall i, j :: 0 <= i < j < |configs| ==> !SameConfig(configs[i], configs[j])
  }

  ghost predicate Covers(configs: seq<Config>, c: Config) { exists d :: d in configs && SameConfig(d, c) }

  /** The configurations the loop works through: pairwise different, one for every free buffer, none
      without a free buffer. */
  lemma {:induction false} FreeConfigsExact(s: Queue, i: nat, found: seq<Config>)
    requires i <= |s.free| && AllDifferent(found)
    ensures var r := FreeConfigs(s, i, found);
            && found <= r && AllDifferent(r)
            && (forall j :: i <= j < |s.free| && s.free[j] in s.cache ==> Covers(r, s.cache[s.free[j]].buffer.request))
            && (forall d :: d in r && d !in found ==>
                  exists j :: i <= j < |s.free| && s.free[j] in s.cache && s.cache[s.free[j]].buffer.request == d)
    decreases |s.free| - i
  {
    if i < |s.free| {
      if s.free[i] !in s.cache {
        FreeConfigsExact(s, i + 1, found);
      } else {
        var c := s.cache[s.free[i]].buffer.request;
        var next := if Covers(found, c) then found else found + [c];
        assert AllDifferent(next);
        assert Covers(next, c) by { assert c in found + [c] && SameConfig(c, c); }
        FreeConfigsExact(s, i + 1, next);
        var d :| d in next && SameConfig(d, c);
        assert d in FreeConfigs(s, i + 1, next);
      }
    }
  }

  /** What the loop has handed out, relative to the state `s` it started from. */
  ghost predicate HandedOut(s: Queue, h: Handed) {
    && Untouched(s, h.q)
    && h.q.cache.Keys == s.cache.Keys
    && (forall x :: x in s.free <==> x in h.q.free || x in h.ids)
    && (forall x :: x in h.ids ==> HandedEntry(s, h.q, x))
    && (forall x :: x in s.cache && x !in h.ids ==> h.q.cache[x] == s.cache[x])
  }

  ghost predicate HandedEntry(s: Queue, t: Queue, x: SeqNum) {
    && x in s.free && x in s.cache && x in t.cache && x != s.locked && !NeedsResend(s, x)
    && t.cache[x] == s.cache[x].(state := Requested, listenerPid := s.opts.listenerPid)
  }

  /** The state after the id granted by `r` is marked as held for the listener. */
  function Tagged(r: Next, pid: int): Queue
    requires r.out.Granted? && r.out.id in r.q.cache
  {
    r.q.(cache := r.q.cache[r.out.id := r.q.cache[r.out.id].(listenerPid := pid)])
  }

  lemma HandOutOne(s: Queue, c: Config, r: Next, h: Handed)
    requires Listened(s, c, r) && r.out.Granted? && r.out.id in r.q.cache
    requires HandedOut(Tagged(r, s.opts.listenerPid), h) && NoDup(h.ids)
    ensures HandedOut(s, Handed(h.q, [r.out.id] + h.ids)) && NoDup([r.out.id] + h.ids)
  {
    var q, s1 := r.out.id, Tagged(r, s.opts.listenerPid);
    assert q !in h.ids;
    assert ([q] + h.ids)[1..] == h.ids;
    forall x | x in h.ids ensures HandedEntry(s, h.q, x) { assert HandedEntry(s1, h.q, x); }
    assert HandedEntry(s, h.q, q);
  }

  lemma HandOutNone(s: Queue, c: Config, r: Next, h: Handed)
    requires Listened(s, c, r) && !r.out.Granted? && HandedOut(r.q, h)
    ensures HandedOut(s, h)
  {
    forall x | x in h.ids ensures HandedEntry(s, h.q, x) { assert HandedEntry(r.q, h.q, x); }
  }

  /** The ids handed out are pairwise distinct, Requested, were free, unlocked, and need no
      re-send; the ids it refused are still free; nothing else in the cache changed. */
  lemma {:induction false} HandOutLoopEffect(s: Queue, configs: seq<Config>)
    requires Inv(s)
    ensures HandedOut(s, HandOutLoop(s, configs)) && NoDup(HandOutLoop(s, configs).ids)
    decreases |s.free|, |configs|
  {
    if configs != [] {
      ListenerRequestSize(s, configs[0]);
      ListenEffect(s, configs[0]);
      RequestKeeps(s, configs[0], 0, true);
      var r := Request(s, configs[0], 0, true);
      if r.out.Granted? {
        var s1 := Tagged(r, s.opts.listenerPid);
        HandKeeps(r.q, r.out.id, s.opts.listenerPid);
        HandOutLoopEffect(s1, configs);
        HandOutOne(s, configs[0], r, HandOutLoop(s1, configs));
      } else {
        HandOutLoopEffect(r.q, configs[1..]);
        HandOutNone(s, configs[0], r, HandOutLoop(r.q, configs[1..]));
      }
    }
  }

  lemma AnswersKept(s: Queue, t: Queue, c: Config)
    requires Untouched(s, t) && t.cache == s.cache && SameMembers(t.free, s.free)
    ensures Answers(t, c) <==> Answers(s, c)
  {
    assert forall q :: Fits(t, q, WithDefault(t, c)) <==> Fits(s, q, WithDefault(s, c));
  }

  /** The hand-out empties the deletion list exactly when some configuration it works through is
      answered; otherwise it leaves the list alone. */
  lemma {:induction false} HandOutReports(s: Queue, configs: seq<Config>)
    requires Inv(s)
    ensures HandOutLoop(s, configs).q.deleting == if AnswersAny(s, configs) then [] else s.deleting
    decreases |s.free|, |configs|
  {
    if configs != [] {
      ListenerRequestSize(s, configs[0]);
      ListenEffect(s, configs[0]);
      RequestKeeps(s, configs[0], 0, true);
      var r := Request(s, configs[0], 0, true);
      if r.out.Granted? {
        HandKeeps(r.q, r.out.id, s.opts.listenerPid);
        HandOutReports(Tagged(r, s.opts.listenerPid), configs);
        assert configs[0] in configs;
      } else {
        HandOutReports(r.q, configs[1..]);
        forall c { AnswersKept(s, r.q, c); }
        assert configs == [configs[0]] + configs[1..];
      }
    }
  }

  /** ReleaseBuffer of an id: a refused release changes nothing; otherwise the buffer is free
      again, or deleted if it was marked, or already handed out to the listener. */
  lemma ReleaseEffect(s: Queue, q: SeqNum)
    requires Inv(s)
    ensures var r := Release(s, q);
            if r.out.Failed? then r.q == s
            else
              && q in s.cache && s.cache[q].state in {Acquired, Attached}
              && r.out.Returned? && HandedOut(ReleaseLocked(s, q).q, Handed(r.q, r.out.handed)) && NoDup(r.out.handed)
              && (!s.opts.handOut ==> r.q == ReleaseLocked(s, q).q && r.out.handed == [])
              && r.q.deleting == (if s.opts.handOut && Drops(ReleaseLocked(s, q).q) then [] else ReleaseLocked(s, q).q.deleting)
              && (if s.cache[q].isDeleting then q !in r.q.cache
                  else q in r.q.free || q in r.out.handed)
  {
    ReleaseLockedKeeps(s, q);
    var t := ReleaseLocked(s, q).q;
    HandOutLoopEffect(t, FreeConfigs(t, 0, []));
    HandOutReports(t, FreeConfigs(t, 0, []));
    if q in s.cache && s.cache[q].state in {Acquired, Attached} && !s.cache[q].isDeleting {
      assert q in t.free;
    }
  }
}
