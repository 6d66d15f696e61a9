/** What the hand-out after a release offers: not only what may be handed to the listener, but that
    every free buffer that can be is. */
module Offers {
  import opened Lists
  import opened QueueModel
  import opened Partition
  import opened Requests
  import opened HandOuts
  import opened Answers

  /** A listener request for `c` gets as far as the free list. */
  predicate Passes(s: Queue, c: Config) {
    (s.opts.batch || (s.opts.valid && s.opts.listener)) && ColourAndTransformKnown(c) && !s.allocating
  }

  lemma FirstIsOne(l: seq<SeqNum>, q: SeqNum, q': SeqNum, p: SeqNum -> bool)
    requires FirstWith(l, q, p) && FirstWith(l, q', p)
    ensures q == q'
  {
    var j :| 0 <= j < |l| && l[j] == q && p(q) && forall i :: 0 <= i < j ==> !p(l[i]);
    var k :| 0 <= k < |l| && l[k] == q' && p(q') && forall i :: 0 <= i < k ==> !p(l[i]);
    assert j == k;
  }

  lemma FirstIsThere(s: Queue, q: SeqNum, c: Config)
    requires FirstSuiting(s, q, c)
    ensures q in s.free && Suits(s, q, c) && SomeSuits(s, c)
  {
  }

  /** The part of a listener request that follows its checks. */
  lemma OfferOne(s: Queue, c: Config)
    requires Inv(s) && SomeSuits(s, c)
    ensures var p := PopFree(s, c);
            var r := Dequeue(s, c, 0, true);
            && p.q.Some? && FirstSuiting(s, p.q.value, c)
            && (r.out.Granted? <==> Bare(s, p.q.value)) && (r.out.Granted? ==> r.out.id == p.q.value)
  {
    PopTakesFirst(s, c);
    FirstIsThere(s, PopFree(s, c).q.value, c);
    AlikeIsSame(s.cache[PopFree(s, c).q.value].config, c);
    AlikeIsSame(c, s.cache[PopFree(s, c).q.value].config);
  }

  lemma OfferNone(s: Queue, c: Config)
    requires Inv(s) && !SomeSuits(s, c)
    ensures !Dequeue(s, c, 0, true).out.Granted?
  {
    PopTakesFirst(s, c);
    var p := PopFree(s, c);
    if p.q.Some? {
      var q := p.q.value;
      PopShape(s, c);
      assert InState(s.cache, q, Released) && !Suits(s, q, c);
      AlikeIsSame(s.cache[q].config, c);
      AlikeIsSame(c, s.cache[q].config);
    }
  }

  /** One listener request is granted if and only if it passes its checks and the first unlocked free
      buffer that suits it needs not be sent; it is granted that one. */
  lemma ListenAnswers(s: Queue, c: Config)
    requires Inv(s)
    ensures var r := Request(s, c, 0, true);
            && (r.out.Granted? <==> Passes(s, c) && exists q :: FirstSuiting(s, q, Asked(s, c)) && Bare(s, q))
            && (r.out.Granted? ==> FirstSuiting(s, r.out.id, Asked(s, c)))
  {
    var r, d := Request(s, c, 0, true), Asked(s, c);
    assert d == WithDefault(s, c);
    if Passes(s, c) {
      assert r == Dequeue(s, d, 0, true);
      if SomeSuits(s, d) {
        OfferOne(s, d);
        forall q | FirstSuiting(s, q, d) ensures q == PopFree(s, d).q.value {
          FirstIsOne(s.free, q, PopFree(s, d).q.value, (x: SeqNum) => Suits(s, x, d));
        }
      } else {
        OfferNone(s, d);
        forall q ensures !FirstSuiting(s, q, d) { if FirstSuiting(s, q, d) { FirstIsThere(s, q, d); } }
      }
    }
  }

  ghost predicate AllBare(s: Queue) { forall q :: q in s.free ==> Bare(s, q) }

  /** One round of the loop leaves what it did not take as it was. */
  lemma RoundKeeps(s: Queue, c: Config, d: Config, q: SeqNum)
    requires Inv(s) && AllBare(s) && Passes(s, d) && q in s.free && Suits(s, q, Asked(s, d))
    ensures var r := Request(s, c, 0, true);
            var t := if r.out.Granted? && r.out.id in r.q.cache then Tagged(r, s.opts.listenerPid) else r.q;
            && Inv(t) && AllBare(t) && Passes(t, d)
            && (r.out.Granted? ==> r.out.id in r.q.cache)
            && ((r.out.Granted? && r.out.id == q) || (q in t.free && Suits(t, q, Asked(t, d))))
  {
    ListenEffect(s, c);
    RequestKeeps(s, c, 0, true);
    var r := Request(s, c, 0, true);
    if r.out.Granted? {
      HandKeeps(r.q, r.out.id, s.opts.listenerPid);
      assert r.out.id !in r.q.free;
      GrantLeaves(s, c, r, d, q);
    } else {
      RefusalLeaves(s, c, r, d, q);
    }
  }

  lemma GrantLeaves(s: Queue, c: Config, r: Next, d: Config, q: SeqNum)
    requires AllBare(s) && Passes(s, d) && q in s.free && Suits(s, q, Asked(s, d))
    requires Listened(s, c, r) && r.out.Granted? && r.out.id in r.q.cache
    requires r.out.id !in r.q.free
    ensures var t := Tagged(r, s.opts.listenerPid);
            AllBare(t) && Passes(t, d) && (r.out.id == q || (q in t.free && Suits(t, q, Asked(t, d))))
  {
    var t := Tagged(r, s.opts.listenerPid);
    forall x | x in t.free ensures Bare(t, x) { StillBare(s, c, r, x); }
    LeftAsItWas(s, c, r, d, q);
  }

  lemma StillBare(s: Queue, c: Config, r: Next, x: SeqNum)
    requires AllBare(s) && Listened(s, c, r) && r.out.Granted? && r.out.id in r.q.cache && x in r.q.free && r.out.id !in r.q.free
    ensures Bare(Tagged(r, s.opts.listenerPid), x)
  {
    EntryLeft(s, c, r, x);
    assert Bare(s, x);
  }

  lemma EntryLeft(s: Queue, c: Config, r: Next, x: SeqNum)
    requires Listened(s, c, r) && r.out.Granted? && r.out.id in r.q.cache && x != r.out.id
    ensures var t := Tagged(r, s.opts.listenerPid);
            (x in t.free <==> x in s.free) && (x in t.cache <==> x in s.cache) && (x in s.cache ==> t.cache[x] == s.cache[x])
            && t.cacheClean == s.cacheClean && t.opts == s.opts && t.locked == s.locked && t.allocating == s.allocating
  {
  }

  lemma LeftAsItWas(s: Queue, c: Config, r: Next, d: Config, q: SeqNum)
    requires Listened(s, c, r) && r.out.Granted? && r.out.id in r.q.cache && Passes(s, d) && q in s.free && Suits(s, q, Asked(s, d))
    ensures var t := Tagged(r, s.opts.listenerPid);
            Passes(t, d) && (r.out.id == q || (q in t.free && Suits(t, q, Asked(t, d))))
  {
    var t := Tagged(r, s.opts.listenerPid);
    assert t.opts == s.opts;
    AskedSame(s, t, d);
    if r.out.id != q { StillSuits(s, c, r, q, Asked(s, d)); }
  }

  lemma AskedSame(s: Queue, t: Queue, d: Config)
    requires t.opts == s.opts
    ensures Asked(t, d) == Asked(s, d)
  {
  }

  lemma StillSuits(s: Queue, c: Config, r: Next, q: SeqNum, a: Config)
    requires Listened(s, c, r) && r.out.Granted? && r.out.id in r.q.cache && q != r.out.id && q in s.free && Suits(s, q, a)
    ensures var t := Tagged(r, s.opts.listenerPid); q in t.free && Suits(t, q, a)
  {
    EntryLeft(s, c, r, q);
  }

  lemma RefusalLeaves(s: Queue, c: Config, r: Next, d: Config, q: SeqNum)
    requires AllBare(s) && Passes(s, d) && q in s.free && Suits(s, q, Asked(s, d))
    requires Listened(s, c, r) && !r.out.Granted?
    ensures AllBare(r.q) && Passes(r.q, d) && q in r.q.free && Suits(r.q, q, Asked(r.q, d))
  {
    forall x | x in r.q.free ensures Bare(r.q, x) { assert x in s.free && Bare(s, x); }
  }

  /** If no free buffer has to be sent, the loop hands out every unlocked free buffer that suits one
      of its configurations. */
  lemma {:induction false} LoopOffers(s: Queue, configs: seq<Config>, d: Config, q: SeqNum)
    requires Inv(s) && AllBare(s) && d in configs && Passes(s, d) && q in s.free && Suits(s, q, Asked(s, d))
    ensures q in HandOutLoop(s, configs).ids
    decreases |s.free|, |configs|
  {
    ListenerRequestSize(s, configs[0]);
    RoundKeeps(s, configs[0], d, q);
    var r := Request(s, configs[0], 0, true);
    if r.out.Granted? {
      if r.out.id != q { LoopOffers(Tagged(r, s.opts.listenerPid), configs, d, q); }
    } else {
      if configs[0] == d { SuitedIsGranted(s, d, q); }
      LoopOffers(r.q, configs[1..], d, q);
    }
  }

  lemma SuitedIsGranted(s: Queue, d: Config, q: SeqNum)
    requires Inv(s) && AllBare(s) && Passes(s, d) && q in s.free && Suits(s, q, Asked(s, d))
    ensures Request(s, d, 0, true).out.Granted?
  {
    ListenAnswers(s, d);
    PopTakesFirst(s, Asked(s, d));
    assert SomeSuits(s, Asked(s, d));
    FirstIsThere(s, PopFree(s, Asked(s, d)).q.value, Asked(s, d));
  }

  /** The buffers that are free once `x` has been released. */
  predicate FreeAfter(s: Queue, x: SeqNum, q: SeqNum) { q in s.free || (q == x && x in s.cache && !s.cache[x].isDeleting) }

  lemma AfterRelease(s: Queue, x: SeqNum)
    requires Inv(s) && Is(s, x, {Acquired, Attached})
    ensures var m := ReleaseLocked(s, x).q;
            && ReleaseLocked(s, x).out.Done? && Inv(m)
            && (forall q :: q in m.free <==> FreeAfter(s, x, q))
            && (forall q :: q in m.free ==> q in s.cache && q in m.cache && m.cache[q] == s.cache[q].(state := Released))
            && m.cacheClean == s.cacheClean && m.opts == s.opts && m.allocating == s.allocating && m.locked == s.locked
  {
    ReleaseLockedKeeps(s, x);
    var m := ReleaseLocked(s, x).q;
    WithoutMembers(s.free, x);
    assert x !in s.free by { assert !InState(s.cache, x, Released); }
    forall q | q in m.free ensures q in s.cache && q in m.cache && m.cache[q] == s.cache[q].(state := Released) {
      assert q != x ==> InState(s.cache, q, Released);
    }
  }

  /** In listener mode a release hands out the buffer it frees, and every other free buffer with it,
      as long as none of them is locked or has to be sent and each still has the configuration it
      was requested with. */
  lemma ReleaseOffers(s: Queue, x: SeqNum, q: SeqNum)
    requires Inv(s) && s.opts.handOut && Is(s, x, {Acquired, Attached})
    requires (s.opts.batch || (s.opts.valid && s.opts.listener)) && !s.allocating
    requires forall y :: FreeAfter(s, x, y) && y in s.cache ==> Bare(s, y) && ColourAndTransformKnown(s.cache[y].buffer.request)
    requires FreeAfter(s, x, q) && q in s.cache && Suits(s, q, Asked(s, s.cache[q].buffer.request))
    ensures Release(s, x).out.Returned? && q in Release(s, x).out.handed
  {
    AfterRelease(s, x);
    var m := ReleaseLocked(s, x).q;
    forall y | y in m.free ensures Bare(m, y) { assert FreeAfter(s, x, y) && Bare(s, y); }
    var d, y := OwnConfiguration(m, q);
    assert FreeAfter(s, x, y) && ColourAndTransformKnown(s.cache[y].buffer.request);
    LoopOffers(m, FreeConfigs(m, 0, []), d, q);
  }

  /** One of the configurations the loop works through is as good as the buffer's own. */
  lemma OwnConfiguration(m: Queue, q: SeqNum) returns (d: Config, y: SeqNum)
    requires q in m.free && q in m.cache && Suits(m, q, Asked(m, m.cache[q].buffer.request))
    ensures d in FreeConfigs(m, 0, []) && y in m.free && y in m.cache && m.cache[y].buffer.request == d && Suits(m, q, Asked(m, d))
  {
    var configs, c := FreeConfigs(m, 0, []), m.cache[q].buffer.request;
    var none: seq<Config> := [];
    FreeConfigsExact(m, 0, none);
    var k :| 0 <= k < |m.free| && m.free[k] == q;
    assert m.free[k] in m.cache && Covers(configs, m.cache[m.free[k]].buffer.request);
    d :| d in configs && SameConfig(d, c);
    assert d !in none;
    var j :| 0 <= j < |m.free| && m.free[j] in m.cache && m.cache[m.free[j]].buffer.request == d;
    y := m.free[j];
    AskedAlike(m, m.cache[q].config, c, d);
  }

  lemma AskedAlike(s: Queue, a: Config, c: Config, d: Config)
    requires Alike(a, Asked(s, c)) && SameConfig(d, c)
    ensures Alike(a, Asked(s, d))
  {
    assert d == Config(c.width, c.height, c.format, c.usage, d.gamut, d.transform);
    AskedTogether(s, c, d.gamut, d.transform);
    AlikeMoves(a, Asked(s, c), Asked(s, d));
  }

  lemma AlikeMoves(a: Config, b: Config, c: Config)
    requires Alike(a, b) && SameConfig(b, c)
    ensures Alike(a, c)
  {
  }

  lemma AskedTogether(s: Queue, c: Config, gamut: int, transform: int)
    ensures SameConfig(Asked(s, c), Asked(s, Config(c.width, c.height, c.format, c.usage, gamut, transform)))
  {
  }

  /** While the producer's cache is being refilled nothing is handed out. */
  lemma RefillOffersNothing(s: Queue, x: SeqNum)
    requires Inv(s) && s.cacheClean && Release(s, x).out.Returned?
    ensures Release(s, x).out.handed == []
  {
    ReleaseEffect(s, x);
    var m, r := ReleaseLocked(s, x).q, Release(s, x);
    assert r.out.handed != [] ==> HandedEntry(m, r.q, r.out.handed[0]);
  }
}
