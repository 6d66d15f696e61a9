/** What shrinking removes and marks, and what that means for the two operations that shrink. */
module Shrink {
  import opened Lists
  import opened QueueModel
  import opened Partition

  /** How many keys are below `q`: the position of `q` in the iteration order of the map. */
  function Rank(keys: set<SeqNum>, q: SeqNum): nat { |set k | k in keys && k < q| }

  lemma RankWithoutLeast(keys: set<SeqNum>, q: SeqNum)
    requires q in keys && q != Least(keys)
    ensures Rank(keys, q) == Rank(keys - {Least(keys)}, q) + 1
  {
    var k := Least(keys);
    var below := set j | j in keys && j < q;
    var below' := set j | j in keys - {k} && j < q;
    assert below == below' + {k} && k !in below';
  }

  lemma RankOfLeast(keys: set<SeqNum>)
    requires keys != {}
    ensures Rank(keys, Least(keys)) == 0
  {
    assert (set k | k in keys && k < Least(keys)) == {};
  }

  /** Marking `count` entries one by one marks those whose position is below `count`. */
  lemma {:induction false} MarksByRank(cache: map<SeqNum, Element>, keys: set<SeqNum>, count: int, q: SeqNum)
    requires keys <= cache.Keys && q in cache
    ensures q in MarkLowest(cache, keys, count)
    ensures MarkLowest(cache, keys, count)[q] ==
            if q in keys && Rank(keys, q) < count then cache[q].(isDeleting := true) else cache[q]
    decreases keys
  {
    if count > 0 && keys != {} {
      var k := Least(keys);
      RankOfLeast(keys);
      if q in keys && q != k { RankWithoutLeast(keys, q); }
      MarksByRank(cache[k := cache[k].(isDeleting := true)], keys - {k}, count - 1, q);
    }
  }

  function Both(s: Queue): seq<SeqNum> { s.free + s.dirty }

  /** How many ids `count` deletions find. */
  function Found(s: Queue, count: nat): nat { if count <= |Both(s)| then count else |Both(s)| }

  /** The ids of `l` whose removal from `cache` is reported to the producer. */
  function Reports(cache: map<SeqNum, Element>, l: seq<SeqNum>): seq<SeqNum> {
    if l == [] then []
    else (if l[0] in cache && !cache[l[0]].preAlloc then [l[0]] else []) + Reports(cache, l[1..])
  }

  lemma HeadMember(s: Queue)
    requires Inv(s) && Both(s) != []
    ensures Both(s)[0] in s.cache
  {
    assert s.free != [] ==> s.free[0] in s.free && InState(s.cache, s.free[0], Released);
    assert s.free == [] ==> s.dirty[0] in s.dirty && InState(s.cache, s.dirty[0], Flushed);
  }

  lemma BothNoDup(s: Queue)
    requires Inv(s)
    ensures NoDup(Both(s))
  {
    forall x | x in s.free ensures x !in s.dirty { assert InState(s.cache, x, Released); }
    NoDupConcat(s.free, s.dirty);
  }

  /** One deletion takes the head of free ++ dirty and reports it unless it was pre-allocated. */
  lemma HeadShape(s: Queue)
    requires Inv(s) && Both(s) != []
    ensures var q, t := Both(s)[0], DeleteHead(s);
            && q in s.cache && Inv(t) && Both(t) == Both(s)[1..] && t.cache == s.cache - {q}
            && t.deleting == s.deleting + Reports(s.cache, [q])
            && (if s.free != [] then t.free == s.free[1..] && t.dirty == s.dirty else t.free == [] && t.dirty == s.dirty[1..])
            && q !in Both(t)
  {
    HeadMember(s);
    DeleteHeadKeeps(s);
    BothNoDup(s);
  }

  lemma PrefixStep(a: seq<SeqNum>, n: nat)
    requires 0 < n <= |a|
    ensures a[..n] == [a[0]] + a[1..][..n - 1] && a[..n][0] == a[0] && a[..n][1..] == a[1..][..n - 1]
    ensures Elems(a[..n]) == Elems(a[1..][..n - 1]) + {a[0]}
    ensures a[n..] == a[1..][n - 1..]
  {
    assert a[..n] == [a[0]] + a[1..][..n - 1];
  }

  /** DeleteBuffersLocked takes exactly the first ids of free ++ dirty off the lists ... */
  lemma {:induction false} ShrinkLists(s: Queue, count: nat)
    requires Inv(s)
    ensures var n, t := Found(s, count), DeleteBuffers(s, count);
            && t.free == (if n <= |s.free| then s.free[n..] else [])
            && t.dirty == (if n <= |s.free| then s.dirty else s.dirty[n - |s.free|..])
    decreases |Both(s)|
  {
    if count > 0 && Both(s) != [] {
      HeadShape(s);
      ShrinkLists(DeleteHead(s), count - 1);
    }
  }

  lemma KeysStep(keys: set<SeqNum>, l: seq<SeqNum>, n: nat)
    requires 0 < n <= |l|
    ensures (keys - {l[0]}) - Elems(l[1..][..n - 1]) == keys - Elems(l[..n])
  {
    PrefixStep(l, n);
  }

  /** `h` is `s` after one deletion. */
  ghost predicate HeadGone(s: Queue, h: Queue) {
    && Both(s) != [] && Both(h) == Both(s)[1..] && Both(s)[0] in s.cache && Both(s)[0] !in Both(h)
    && h.cache == s.cache - {Both(s)[0]} && h.deleting == s.deleting + Reports(s.cache, [Both(s)[0]])
  }

  lemma HeadGoes(s: Queue)
    requires Inv(s) && Both(s) != []
    ensures Inv(DeleteHead(s)) && HeadGone(s, DeleteHead(s))
  {
    HeadShape(s);
  }

  lemma KeysAfterHead(s: Queue, h: Queue, t: Queue, count: nat)
    requires count > 0 && HeadGone(s, h) && t.cache.Keys == h.cache.Keys - Elems(Both(h)[..Found(h, count - 1)])
    ensures t.cache.Keys == s.cache.Keys - Elems(Both(s)[..Found(s, count)])
  {
    KeysStep(s.cache.Keys, Both(s), Found(s, count));
  }

  /** ... and out of the cache ... */
  lemma {:induction false} ShrinkKeys(s: Queue, count: nat)
    requires Inv(s)
    ensures DeleteBuffers(s, count).cache.Keys == s.cache.Keys - Elems(Both(s)[..Found(s, count)])
    decreases |Both(s)|
  {
    if count > 0 && Both(s) == [] {
      MarkLowestShape(s.cache, s.cache.Keys, count);
    } else if count > 0 {
      HeadGoes(s);
      ShrinkKeys(DeleteHead(s), count - 1);
      KeysAfterHead(s, DeleteHead(s), DeleteBuffers(s, count), count);
    }
  }

  /** ... touches nothing but the three lists and the cache ... */
  lemma {:induction false} ShrinkFrame(s: Queue, count: nat)
    ensures var t := DeleteBuffers(s, count);
            t == s.(cache := t.cache, free := t.free, dirty := t.dirty, deleting := t.deleting)
    decreases |Both(s)|
  {
    if count > 0 && Both(s) != [] { ShrinkFrame(DeleteHead(s), count - 1); }
  }

  lemma {:induction false} ReportsCong(cache: map<SeqNum, Element>, q: SeqNum, l: seq<SeqNum>)
    requires q !in l
    ensures Reports(cache, l) == Reports(cache - {q}, l)
  {
    if l != [] { ReportsCong(cache, q, l[1..]); }
  }

  lemma ReportsStep(before: seq<SeqNum>, cache: map<SeqNum, Element>, l: seq<SeqNum>, n: nat)
    requires 0 < n <= |l| && l[0] !in l[1..]
    ensures (before + Reports(cache, [l[0]])) + Reports(cache - {l[0]}, l[1..][..n - 1]) == before + Reports(cache, l[..n])
  {
    PrefixStep(l, n);
    CutMembers(l[1..], n - 1, l[0]);
    ReportsCong(cache, l[0], l[1..][..n - 1]);
  }

  lemma ReportsAfterHead(s: Queue, h: Queue, t: Queue, count: nat)
    requires count > 0 && HeadGone(s, h) && t.deleting == h.deleting + Reports(h.cache, Both(h)[..Found(h, count - 1)])
    ensures t.deleting == s.deleting + Reports(s.cache, Both(s)[..Found(s, count)])
  {
    ReportsStep(s.deleting, s.cache, Both(s), Found(s, count));
  }

  /** ... reports them in that order, leaving out the pre-allocated ones ... */
  lemma {:induction false} ShrinkReports(s: Queue, count: nat)
    requires Inv(s)
    ensures DeleteBuffers(s, count).deleting == s.deleting + Reports(s.cache, Both(s)[..Found(s, count)])
    decreases |Both(s)|
  {
    if count > 0 && Both(s) != [] {
      HeadGoes(s);
      ShrinkReports(DeleteHead(s), count - 1);
      ReportsAfterHead(s, DeleteHead(s), DeleteBuffers(s, count), count);
    }
  }

  /** ... and marks, when the lists run out, the entries at the first positions of the map. */
  lemma {:induction false} ShrinkMarks(s: Queue, count: nat, q: SeqNum)
    requires Inv(s) && q in DeleteBuffers(s, count).cache
    ensures var t := DeleteBuffers(s, count);
            q in s.cache &&
            t.cache[q] == if Rank(t.cache.Keys, q) < count - Found(s, count) then s.cache[q].(isDeleting := true)
                          else s.cache[q]
    decreases |Both(s)|
  {
    if count > 0 && Both(s) == [] {
      MarkLowestShape(s.cache, s.cache.Keys, count);
      MarksByRank(s.cache, s.cache.Keys, count, q);
    } else if count > 0 {
      HeadShape(s);
      ShrinkMarks(DeleteHead(s), count - 1, q);
    }
  }

  /** The ids removed by a shrink are pairwise distinct, so the cache gets that much smaller. */
  lemma ShrinkSize(s: Queue, count: nat)
    requires Inv(s)
    ensures Used(DeleteBuffers(s, count)) == Used(s) - Found(s, count)
  {
    ShrinkKeys(s, count);
    var n, t := Found(s, count), DeleteBuffers(s, count);
    BothNoDup(s);
    NoDupCut(Both(s), n);
    NoDupCardinality(Both(s)[..n]);
    assert Elems(Both(s)[..n]) <= s.cache.Keys by {
      forall x | x in Both(s)[..n] ensures x in s.cache {
        assert x in Both(s);
        if x in s.free { assert InState(s.cache, x, Released); } else { assert InState(s.cache, x, Flushed); }
      }
    }
    assert |t.cache.Keys| == |s.cache.Keys| - |Elems(Both(s)[..n])|;
  }

  /** AttachBuffer of a new buffer either is refused and changes nothing or leaves the cache
      within the queue size. */
  lemma AttachBufferFits(s: Queue, b: Buffer)
    requires Inv(s) && b.id !in s.cache
    ensures var r := AttachBuffer(s, b);
            if r.out.Failed? then r.q == s
            else Used(r.q) <= r.q.size == s.size && InState(r.q.cache, b.id, Attached)
  {
    var over := Used(s) - s.size + 1;
    NewAttached(s, b, over);
    if over <= |s.free| + |s.dirty| {
      RoomMade(s, b.id, over);
      InsertSize(DeleteBuffers(s, over), b.id, Element(b, Attached, false, b.shape, false, 0, 0, false, 0));
    }
  }

  lemma NewAttached(s: Queue, b: Buffer, over: int)
    requires b.id !in s.cache && over == Used(s) - s.size + 1
    ensures var r, t := AttachBuffer(s, b), DeleteBuffers(s, over);
            if r.out.Failed? then r.q == s
            else over <= |s.free| + |s.dirty| && r.q == t.(cache := t.cache[b.id := Element(b, Attached, false, b.shape, false, 0, 0, false, 0)])
  {
  }

  lemma RoomMade(s: Queue, q: SeqNum, over: int)
    requires Inv(s) && q !in s.cache && over == Used(s) - s.size + 1 && over <= |s.free| + |s.dirty|
    ensures var t := DeleteBuffers(s, over);
            Used(t) < s.size && t.size == s.size && q !in t.cache
  {
    DeleteBuffersKeeps(s, over);
    if over > 0 {
      ShrinkFrame(s, over);
      ShrinkSize(s, over);
    }
  }

  lemma InsertSize(t: Queue, q: SeqNum, e: Element)
    requires q !in t.cache
    ensures Used(t.(cache := t.cache[q := e])) == Used(t) + 1
  {
    assert t.cache[q := e].Keys == t.cache.Keys + {q};
    assert |t.cache[q := e].Keys| == |t.cache.Keys| + 1;
  }

  function Unmarked(cache: map<SeqNum, Element>, keys: set<SeqNum>): set<SeqNum> {
    set q | q in keys && q in cache && !cache[q].isDeleting
  }

  /** Marking `count` unmarked entries leaves that many fewer unmarked, if there are so many. */
  lemma {:induction false} MarkedCount(cache: map<SeqNum, Element>, keys: set<SeqNum>, count: nat)
    requires keys <= cache.Keys && Unmarked(cache, keys) == keys
    ensures |Unmarked(MarkLowest(cache, keys, count), keys)| == if count <= |keys| then |keys| - count else 0
    decreases keys
  {
    if count == 0 || keys == {} {
    } else {
      var k := Least(keys);
      var cache1, keys1 := cache[k := cache[k].(isDeleting := true)], keys - {k};
      assert Unmarked(cache1, keys1) == keys1;
      MarkedCount(cache1, keys1, count - 1);
      MarksByRank(cache1, keys1, count - 1, k);
      assert Unmarked(MarkLowest(cache, keys, count), keys) == Unmarked(MarkLowest(cache1, keys1, count - 1), keys1);
    }
  }

  /** A shrink of a queue with nothing marked takes `count` entries out of the unmarked ones. */
  lemma {:induction false} ShrinkUnmarked(s: Queue, count: nat)
    requires Inv(s) && Unmarked(s.cache, s.cache.Keys) == s.cache.Keys
    ensures var t := DeleteBuffers(s, count);
            |Unmarked(t.cache, t.cache.Keys)| == if count <= Used(s) then Used(s) - count else 0
    decreases |Both(s)|
  {
    if count > 0 && Both(s) == [] {
      MarkLowestShape(s.cache, s.cache.Keys, count);
      MarkedCount(s.cache, s.cache.Keys, count);
    } else if count > 0 {
      HeadShape(s);
      var q, s1 := Both(s)[0], DeleteHead(s);
      assert s1.cache.Keys == s.cache.Keys - {q};
      assert |s1.cache.Keys| == |s.cache.Keys| - 1;
      forall x | x in s1.cache.Keys ensures x in Unmarked(s1.cache, s1.cache.Keys) {
        assert x in Unmarked(s.cache, s.cache.Keys);
      }
      assert Unmarked(s1.cache, s1.cache.Keys) == s1.cache.Keys;
      ShrinkUnmarked(s1, count - 1);
    }
  }

  /** SetQueueSize(n) of a queue that is within its size and has nothing marked leaves at most
      n entries that are not on their way out. */
  lemma SetQueueSizeBounds(s: Queue, n: u32)
    requires Inv(s) && Used(s) <= s.size && Unmarked(s.cache, s.cache.Keys) == s.cache.Keys
    ensures var r := SetQueueSize(s, n);
            if r.out.Failed? then r.q == s
            else r.q.size <= n && |Unmarked(r.q.cache, r.q.cache.Keys)| <= r.q.size
  {
    if s.size > Clamped(s, n) { ShrinkUnmarked(s, s.size - Clamped(s, n)); }
  }
}
