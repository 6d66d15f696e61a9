/** AcquireBuffer with an expected timestamp: which frame it takes and what becomes of the others. */
module TimedAcquires {
  import opened Lists
  import opened QueueModel
  import opened Partition
  import opened Requests
  import opened HandOuts
  import opened Shrink
  import opened FrameOrder

  /** ReleaseDropBuffers. */
  function ReleaseAll(s: Queue, ids: seq<SeqNum>): Queue
    decreases |ids|
  {
    if ids == [] then s else ReleaseAll(Release(s, ids[0]).q, ids[1..])
  }

  /** The timed AcquireBuffer when nothing runs between its locked regions. */
  function TimedAcquire(s: Queue, due: int, useAuto: bool): Next {
    if due <= 0 then Acquire(s)
    else if s.dirty == [] then Fail(s, NoBuffer)
    else
      SelectTail(AfterLevelDrop(s), due, useAuto)
  }

  /** After the first region and the release of what it dropped. */
  function AfterLevelDrop(s: Queue): Queue {
    var d := DropByLevel(s);
    ReleaseAll(d.q, d.out.frames)
  }

  /** From the second region to the end of the call. */
  function SelectTail(s: Queue, due: int, useAuto: bool): Next {
    var r := TimedSelect(s, due, useAuto);
    if !r.out.Dropped? then r else Acquire(ReleaseAll(r.q, r.out.frames))
  }

  // ---- the declarative choice ----

  /** How many of the oldest frames the drop level gives up. */
  function LevelDrop(s: Queue): nat {
    if s.opts.dropLevel <= 0 || |s.dirty| <= s.opts.dropLevel then 0 else |s.dirty| - s.opts.dropLevel
  }

  /** `k` is the length of the longest prefix of `frames` all of whose frames may be shown. */
  ghost predicate LongestEligible(cache: map<SeqNum, Element>, frames: seq<SeqNum>, k: nat, due: int, useAuto: bool) {
    && k <= |frames|
    && (forall j :: 0 <= j < |frames| ==> frames[j] in cache)
    && (forall j :: 0 <= j < k ==> MayShow(cache[frames[j]], due, useAuto))
    && (k < |frames| ==> !MayShow(cache[frames[k]], due, useAuto))
  }

  /** The time of the frame has come, and if it was stamped automatically such times count. */
  predicate MayShow(e: Element, due: int, useAuto: bool) { e.desired <= due && (useAuto || !e.auto) }

  /** What the call must choose among the frames kept by the drop level: how many frames it
      drops by timestamp, or None when the front frame is due within the next second. */
  ghost function Choice(cache: map<SeqNum, Element>, front: SeqNum, k: nat, due: int): Option<nat>
    requires front in cache
  {
    if k > 0 then Some(k - 1)
    else if !cache[front].auto && due < cache[front].desired <= due + 1_000_000_000 then None
    else Some(0)
  }

  /** With that choice among `frames` the call hands out the chosen frame, Acquired now, and keeps those
      behind it; without one it is not ready and keeps them all. */
  ghost predicate Shown(cache: map<SeqNum, Element>, frames: seq<SeqNum>, c: Option<nat>, r: Next) {
    if c.None? then r.out == Failed(NotReady) && r.q.dirty == frames
    else
      && c.value < |frames| && frames[c.value] in cache
      && r.out == Took(frames[c.value], cache[frames[c.value]].timestamp)
      && r.q.dirty == frames[c.value + 1..] && InState(r.q.cache, frames[c.value], Acquired)
  }

  // ---- frames that stay, frames that leave ----

  /** Every flushed frame of `t` was one of `s` and still has the same entry. */
  ghost predicate FramesSame(s: Queue, t: Queue) {
    && t.dirty == s.dirty
    && forall q :: q in s.dirty ==> q in s.cache && q in t.cache && t.cache[q] == s.cache[q]
  }

  lemma ReleaseFrames(s: Queue, q: SeqNum)
    requires Inv(s)
    ensures Inv(Release(s, q).q) && FramesSame(s, Release(s, q).q) && SameFrame(s, Release(s, q).q)
  {
    ReleaseKeeps(s, q);
    ReleaseEffect(s, q);
    var t, r := ReleaseLocked(s, q).q, Release(s, q);
    ReleaseLockedKeeps(s, q);
    forall x | x in s.dirty ensures x in s.cache && x in r.q.cache && r.q.cache[x] == s.cache[x] {
      assert InState(s.cache, x, Flushed) && x !in s.free;
      assert x in t.cache && t.cache[x] == s.cache[x] && !InState(t.cache, x, Released);
    }
  }

  lemma {:induction false} ReleaseAllFrames(s: Queue, ids: seq<SeqNum>)
    requires Inv(s)
    ensures Inv(ReleaseAll(s, ids)) && FramesSame(s, ReleaseAll(s, ids)) && SameFrame(s, ReleaseAll(s, ids))
    decreases |ids|
  {
    if ids != [] {
      ReleaseFrames(s, ids[0]);
      ReleaseAllFrames(Release(s, ids[0]).q, ids[1..]);
    } else {
      forall q | q in s.dirty ensures q in s.cache { assert InState(s.cache, q, Flushed); }
    }
  }

  lemma DropFrontFrames(s: Queue, n: nat)
    requires Inv(s) && n <= |s.dirty|
    ensures var t := DropFront(s, n);
            && t.dirty == s.dirty[n..] && Inv(t) && t.cache.Keys == s.cache.Keys
            && (forall q :: q in t.dirty ==> q in s.cache && t.cache[q] == s.cache[q])
            && (forall q :: q in s.dirty[..n] ==> q in s.cache && t.cache[q] == s.cache[q].(state := Acquired))
  {
    DropKeeps(s, n);
    NoDupCut(s.dirty, n);
    forall q | q in s.dirty ensures q in s.cache { assert InState(s.cache, q, Flushed); }
  }

  /** DropBuffersByLevel keeps exactly the latest frames. */
  lemma DropByLevelChoice(s: Queue)
    requires Inv(s)
    ensures var r, n := DropByLevel(s), LevelDrop(s);
            && r.out == Dropped(s.dirty[..n]) && r.q == DropFront(s, n)
            && |r.q.dirty| == (if 0 < s.opts.dropLevel < |s.dirty| then s.opts.dropLevel else |s.dirty|)
            && s.dirty == s.dirty[..n] + r.q.dirty
  {
    assert LevelDrop(s) == 0 ==> DropFront(s, 0) == s && s.dirty[..0] == [] by {
      assert s.dirty[0..] == s.dirty;
      assert DropFront(s, 0).cache == s.cache;
    }
  }

  /** The second region drops k - 1 frames and leaves the chosen one in front. */
  lemma SelectChoice(s: Queue, due: int, useAuto: bool, k: nat)
    requires Inv(s) && s.dirty != []
    requires LongestEligible(s.cache, s.dirty, k, due, useAuto)
    ensures var c, r := Choice(s.cache, s.dirty[0], k, due), TimedSelect(s, due, useAuto);
            if c.None? then r == Fail(s, NotReady)
            else c.value < |s.dirty| && r == Next(DropFront(s, c.value), Dropped(s.dirty[..c.value]))
  {
    var m := EligibleRun(s, 0, due, useAuto);
    assert m == k;
    assert s.dirty[..0] == [] && s.dirty[0..] == s.dirty;
    assert DropFront(s, 0) == s by { assert DropFront(s, 0).cache == s.cache; }
  }

  /** Whatever the frames, there is a longest prefix of them that may be shown. */
  lemma LongestExists(s: Queue, due: int, useAuto: bool) returns (k: nat)
    requires Inv(s)
    ensures LongestEligible(s.cache, s.dirty, k, due, useAuto)
    ensures forall j: nat :: LongestEligible(s.cache, s.dirty, j, due, useAuto) ==> j == k
  {
    forall j | 0 <= j < |s.dirty| ensures s.dirty[j] in s.cache {
      assert s.dirty[j] in s.dirty && InState(s.cache, s.dirty[j], Flushed);
    }
    k := EligibleRun(s, 0, due, useAuto);
  }

  /** Without a positive time, and on an empty list, the timed acquire is the plain one: it takes the
      front frame, whatever its time, or reports that there is none. */
  lemma TimedAcquirePlain(s: Queue, due: int, useAuto: bool)
    requires Inv(s) && (due <= 0 || s.dirty == [])
    ensures var r := TimedAcquire(s, due, useAuto);
            if s.dirty == [] then r == Next(s, Failed(NoBuffer))
            else
              && s.dirty[0] in s.cache && r.out == Took(s.dirty[0], s.cache[s.dirty[0]].timestamp)
              && r.q == s.(cache := s.cache[s.dirty[0] := s.cache[s.dirty[0]].(state := Acquired)], dirty := s.dirty[1..])
  {
    if s.dirty != [] { assert InState(s.cache, s.dirty[0], Flushed); }
  }

  lemma EligibleKept(s: Queue, t: Queue, frames: seq<SeqNum>, k: nat, due: int, useAuto: bool)
    requires LongestEligible(s.cache, frames, k, due, useAuto)
    requires forall q :: q in frames ==> q in s.cache && q in t.cache && t.cache[q] == s.cache[q]
    ensures LongestEligible(t.cache, frames, k, due, useAuto)
  {
    forall j | 0 <= j < |frames| ensures frames[j] in t.cache && t.cache[frames[j]] == s.cache[frames[j]] {
      assert frames[j] in frames;
    }
  }

  lemma AfterLevelDropKeeps(s: Queue)
    requires Inv(s)
    ensures var kept, t := s.dirty[LevelDrop(s)..], AfterLevelDrop(s);
            && Inv(t) && t.dirty == kept && t.opts == s.opts
            && forall q :: q in kept ==> q in s.cache && q in t.cache && t.cache[q] == s.cache[q]
  {
    var n := LevelDrop(s);
    DropByLevelChoice(s);
    DropFrontFrames(s, n);
    ReleaseAllFrames(DropFront(s, n), s.dirty[..n]);
  }

  /** The timed acquire refines the declarative choice: of the frames the drop level keeps, it
      takes the last of the longest eligible prefix; with no eligible frame in front it takes
      the front frame, unless that is a manually stamped one due within the next second. */
  lemma TimedAcquireChoice(s: Queue, due: int, useAuto: bool, k: nat)
    requires Inv(s) && due > 0 && s.dirty != []
    requires LongestEligible(s.cache, s.dirty[LevelDrop(s)..], k, due, useAuto)
    ensures var kept := s.dirty[LevelDrop(s)..];
            Shown(s.cache, kept, Choice(s.cache, kept[0], k, due), TimedAcquire(s, due, useAuto))
  {
    var kept, t := s.dirty[LevelDrop(s)..], AfterLevelDrop(s);
    AfterLevelDropKeeps(s);
    assert TimedAcquire(s, due, useAuto) == SelectTail(t, due, useAuto);
    TailChoice(s, t, kept, due, useAuto, k);
  }

  /** What the later regions choose in `t`, told in terms of the entries the frames had in `s`. */
  lemma TailChoice(s: Queue, t: Queue, kept: seq<SeqNum>, due: int, useAuto: bool, k: nat)
    requires Inv(t) && kept != [] && t.dirty == kept
    requires forall q :: q in kept ==> q in s.cache && q in t.cache && t.cache[q] == s.cache[q]
    requires LongestEligible(s.cache, kept, k, due, useAuto)
    ensures kept[0] in s.cache && Shown(s.cache, kept, Choice(s.cache, kept[0], k, due), SelectTail(t, due, useAuto))
  {
    assert kept[0] in kept;
    EligibleKept(s, t, kept, k, due, useAuto);
    SelectAndAcquire(t, due, useAuto, k);
    var c := Choice(s.cache, kept[0], k, due);
    if c.Some? { assert kept[c.value] in kept; }
  }

  lemma SelectAndAcquire(s: Queue, due: int, useAuto: bool, k: nat)
    requires Inv(s) && s.dirty != []
    requires LongestEligible(s.cache, s.dirty, k, due, useAuto)
    ensures Shown(s.cache, s.dirty, Choice(s.cache, s.dirty[0], k, due), SelectTail(s, due, useAuto))
  {
    SelectChoice(s, due, useAuto, k);
    var c := Choice(s.cache, s.dirty[0], k, due);
    if c.Some? {
      var x := s.dirty[c.value];
      DropFrontFrames(s, c.value);
      var s2 := DropFront(s, c.value);
      ReleaseAllFrames(s2, s.dirty[..c.value]);
      assert s2.dirty[0] == x && x in s2.dirty;
    }
  }

  /** The second readiness test of the C++ code can never fail after a drop: the frame left in
      front passed the same comparison a moment before. So no frame dropped in the loop is lost. */
  lemma ReadyAfterDrop(s: Queue, due: int, useAuto: bool, j: nat)
    requires Inv(s) && 0 < j < EligibleRun(s, 0, due, useAuto)
    ensures s.dirty[j] in s.cache && PresentReady(s.cache[s.dirty[j]].desired, due)
  {
  }

  // ---- conservation of the dropped frames ----

  /** The ones of `ids` that are not marked for deletion, in order. */
  function Staying(cache: map<SeqNum, Element>, ids: seq<SeqNum>): seq<SeqNum> {
    if ids == [] then []
    else (if ids[0] in cache && cache[ids[0]].isDeleting then [] else [ids[0]]) + Staying(cache, ids[1..])
  }

  /** All of `ids` were just taken from the consumer's side of the queue. */
  ghost predicate AllAcquired(s: Queue, ids: seq<SeqNum>) {
    NoDup(ids) && forall q :: q in ids ==> InState(s.cache, q, Acquired)
  }

  /** Where a dropped frame ends up, in whatever mode: deleted if it was marked, otherwise free
      again or already handed to the listener. */
  predicate Settled(s: Queue, q: SeqNum, marked: bool) {
    if marked then q !in s.cache else InState(s.cache, q, Released) || InState(s.cache, q, Requested)
  }

  /** The locked part of a release, as far as one id is concerned. */
  lemma ReleaseLockedOne(s: Queue, q: SeqNum, x: SeqNum)
    requires Inv(s) && InState(s.cache, q, Acquired)
    ensures var m := ReleaseLocked(s, q).q;
            && Inv(m)
            && if x != q then (x in m.cache <==> x in s.cache) && (x in s.cache ==> m.cache[x] == s.cache[x])
               else if s.cache[q].isDeleting then x !in m.cache else InState(m.cache, x, Released)
  {
    ReleaseLockedKeeps(s, q);
  }

  /** What the hand-out after it may do with an id: nothing, or request it if it was free. */
  lemma ReleaseHandsOne(s: Queue, q: SeqNum, x: SeqNum)
    requires Inv(s) && InState(s.cache, q, Acquired) && Inv(ReleaseLocked(s, q).q)
    ensures var m, t := ReleaseLocked(s, q).q, Release(s, q).q;
            && (x in t.cache <==> x in m.cache)
            && (x in m.cache ==> t.cache[x] == m.cache[x] || (InState(m.cache, x, Released) && InState(t.cache, x, Requested)))
  {
    ReleaseEffect(s, q);
    var m, r := ReleaseLocked(s, q).q, Release(s, q);
    if x in m.free { assert InState(m.cache, x, Released); }
    if x in r.out.handed { assert HandedEntry(m, r.q, x); }
  }

  lemma ReleaseOne(s: Queue, q: SeqNum, x: SeqNum)
    requires Inv(s) && InState(s.cache, q, Acquired)
    ensures var t := Release(s, q).q;
            if x == q then Settled(t, x, s.cache[q].isDeleting)
            else if InState(s.cache, x, Acquired) then x in t.cache && t.cache[x] == s.cache[x]
            else forall marked :: Settled(s, x, marked) ==> Settled(t, x, marked)
  {
    ReleaseLockedOne(s, q, x);
    ReleaseHandsOne(s, q, x);
  }

  /** Every dropped frame is released exactly once and settles. */
  lemma {:induction false} ReleaseAllSettles(s: Queue, ids: seq<SeqNum>, q: SeqNum)
    requires Inv(s) && AllAcquired(s, ids) && q in ids
    ensures Settled(ReleaseAll(s, ids), q, s.cache[q].isDeleting)
    decreases |ids|
  {
    var t := Release(s, ids[0]).q;
    assert ids[0] in ids;
    ReleaseKeeps(s, ids[0]);
    forall x | x in ids[1..] ensures InState(t.cache, x, Acquired) { ReleaseOne(s, ids[0], x); }
    ReleaseOne(s, ids[0], q);
    if q == ids[0] {
      ReleaseAllStaysSettled(t, ids[1..], q, s.cache[q].isDeleting);
    } else {
      ReleaseAllSettles(t, ids[1..], q);
    }
  }

  lemma {:induction false} ReleaseAllStaysSettled(s: Queue, ids: seq<SeqNum>, q: SeqNum, marked: bool)
    requires Inv(s) && AllAcquired(s, ids) && q !in ids && Settled(s, q, marked)
    ensures Settled(ReleaseAll(s, ids), q, marked)
    decreases |ids|
  {
    if ids != [] {
      var t := Release(s, ids[0]).q;
      assert ids[0] in ids;
      ReleaseKeeps(s, ids[0]);
      forall x | x in ids[1..] ensures InState(t.cache, x, Acquired) { ReleaseOne(s, ids[0], x); }
      ReleaseOne(s, ids[0], q);
      ReleaseAllStaysSettled(t, ids[1..], q, marked);
    }
  }

  /** The marked ones, in order, as far as their deletion is reported to the producer. */
  function Leaving(cache: map<SeqNum, Element>, ids: seq<SeqNum>): seq<SeqNum> {
    if ids == [] then []
    else (if ids[0] in cache && cache[ids[0]].isDeleting then Reports(cache, [ids[0]]) else []) + Leaving(cache, ids[1..])
  }

  lemma {:induction false} StayingCong(c: map<SeqNum, Element>, d: map<SeqNum, Element>, ids: seq<SeqNum>)
    requires forall q :: q in ids ==> q in c && q in d && c[q].isDeleting == d[q].isDeleting && c[q].preAlloc == d[q].preAlloc
    ensures Staying(c, ids) == Staying(d, ids) && Leaving(c, ids) == Leaving(d, ids)
  {
    if ids != [] {
      assert ids[0] in ids;
      StayingCong(c, d, ids[1..]);
      assert Reports(c, [ids[0]]) == Reports(d, [ids[0]]);
    }
  }

  lemma ReleasePlain(s: Queue, q: SeqNum)
    requires Inv(s) && InState(s.cache, q, Acquired) && !s.opts.handOut
    ensures var t := Release(s, q).q;
            && t.free == s.free + (if s.cache[q].isDeleting then [] else [q])
            && t.deleting == s.deleting + (if s.cache[q].isDeleting then Reports(s.cache, [q]) else [])
            && t.opts == s.opts
  {
    assert q !in s.free by { assert !InState(s.cache, q, Released); }
    WithoutAbsent(s.free, q);
  }

  lemma PlainStep(s: Queue, ids: seq<SeqNum>)
    requires Inv(s) && AllAcquired(s, ids) && ids != []
    ensures var t := Release(s, ids[0]).q;
            && Inv(t) && AllAcquired(t, ids[1..])
            && Staying(t.cache, ids[1..]) == Staying(s.cache, ids[1..])
            && Leaving(t.cache, ids[1..]) == Leaving(s.cache, ids[1..])
  {
    var q, t := ids[0], Release(s, ids[0]).q;
    assert q in ids;
    ReleaseKeeps(s, q);
    forall x | x in ids[1..] ensures x in s.cache && InState(t.cache, x, Acquired) && t.cache[x] == s.cache[x] {
      assert x in ids && InState(s.cache, x, Acquired);
      ReleaseOne(s, q, x);
    }
    StayingCong(s.cache, t.cache, ids[1..]);
  }

  lemma InOrderStep(s: Queue, t: Queue, u: Queue, ids: seq<SeqNum>)
    requires ids != [] && ids[0] in s.cache
    requires t.free == s.free + (if s.cache[ids[0]].isDeleting then [] else [ids[0]])
    requires t.deleting == s.deleting + (if s.cache[ids[0]].isDeleting then Reports(s.cache, [ids[0]]) else [])
    requires u.free == t.free + Staying(s.cache, ids[1..]) && u.deleting == t.deleting + Leaving(s.cache, ids[1..])
    ensures u.free == s.free + Staying(s.cache, ids) && u.deleting == s.deleting + Leaving(s.cache, ids)
  {
    var stay := if s.cache[ids[0]].isDeleting then [] else [ids[0]];
    var leave := if s.cache[ids[0]].isDeleting then Reports(s.cache, [ids[0]]) else [];
    Regroup(s.free, stay, Staying(s.cache, ids[1..]));
    Regroup(s.deleting, leave, Leaving(s.cache, ids[1..]));
  }

  /** Outside the listener mode the unmarked frames go to the back of the free list in the order
      in which they were dropped, and the marked ones are reported in that order. */
  lemma {:induction false} ReleaseAllInOrder(s: Queue, ids: seq<SeqNum>)
    requires Inv(s) && AllAcquired(s, ids) && !s.opts.handOut
    ensures ReleaseAll(s, ids).free == s.free + Staying(s.cache, ids)
    ensures ReleaseAll(s, ids).deleting == s.deleting + Leaving(s.cache, ids)
    decreases |ids|
  {
    if ids != [] {
      PlainStep(s, ids);
      assert ids[0] in ids;
      ReleasePlain(s, ids[0]);
      ReleaseAllInOrder(Release(s, ids[0]).q, ids[1..]);
      InOrderStep(s, Release(s, ids[0]).q, ReleaseAll(s, ids), ids);
    }
  }

  /** One drop and the release of what it dropped: the frames settle. */
  lemma DropSettles(s: Queue, n: nat, q: SeqNum)
    requires Inv(s) && n <= |s.dirty| && q in s.dirty[..n]
    ensures q in s.cache && Settled(ReleaseAll(DropFront(s, n), s.dirty[..n]), q, s.cache[q].isDeleting)
  {
    DropFrontFrames(s, n);
    NoDupTake(s.dirty, n);
    ReleaseAllSettles(DropFront(s, n), s.dirty[..n], q);
  }

  /** ... and what had settled before stays settled. */
  lemma DropKeepsSettled(s: Queue, n: nat, q: SeqNum, marked: bool)
    requires Inv(s) && n <= |s.dirty| && Settled(s, q, marked)
    ensures Settled(ReleaseAll(DropFront(s, n), s.dirty[..n]), q, marked)
  {
    DropFrontFrames(s, n);
    NoDupTake(s.dirty, n);
    assert q !in s.dirty[..n] by { assert q in s.dirty[..n] ==> q in s.dirty && InState(s.cache, q, Flushed); }
    ReleaseAllStaysSettled(DropFront(s, n), s.dirty[..n], q, marked);
  }

  lemma AcquireKeepsSettled(s: Queue, q: SeqNum, marked: bool)
    requires Inv(s) && Settled(s, q, marked)
    ensures Settled(Acquire(s).q, q, marked)
  {
    if s.dirty != [] { assert InState(s.cache, s.dirty[0], Flushed); }
  }

  /** One drop outside listener mode: what it adds to the free list and to the reports. */
  lemma DropInOrder(s: Queue, n: nat)
    requires Inv(s) && n <= |s.dirty| && !s.opts.handOut
    ensures var t := ReleaseAll(DropFront(s, n), s.dirty[..n]);
            t.free == s.free + Staying(s.cache, s.dirty[..n]) && t.deleting == s.deleting + Leaving(s.cache, s.dirty[..n])
  {
    DropFrontFrames(s, n);
    NoDupTake(s.dirty, n);
    ReleaseAllInOrder(DropFront(s, n), s.dirty[..n]);
    StayingCong(s.cache, DropFront(s, n).cache, s.dirty[..n]);
  }

  /** The frames that the level gives up ... */
  function ByLevel(s: Queue): seq<SeqNum> { s.dirty[..LevelDrop(s)] }

  /** ... and those that the timestamps give up among the rest. */
  ghost function ByTimestamp(s: Queue, k: nat, due: int): seq<SeqNum> {
    var kept := s.dirty[LevelDrop(s)..];
    if kept == [] || kept[0] !in s.cache then []
    else
      match Choice(s.cache, kept[0], k, due)
      case None => []
      case Some(n) => if n <= |kept| then kept[..n] else []
  }

  lemma NothingDropped(s: Queue)
    requires Inv(s)
    ensures ReleaseAll(DropFront(s, 0), s.dirty[..0]) == s && s.dirty[..0] == []
  {
    assert s.dirty[0..] == s.dirty && DropFront(s, 0).cache == s.cache;
  }

  /** The second part of the call is a drop and, unless it is too early, an acquire. */
  lemma TailShape(t: Queue, due: int, useAuto: bool, k: nat) returns (n: nat)
    requires Inv(t) && t.dirty != [] && LongestEligible(t.cache, t.dirty, k, due, useAuto)
    ensures n <= |t.dirty| && n == (if Choice(t.cache, t.dirty[0], k, due).None? then 0 else Choice(t.cache, t.dirty[0], k, due).value)
    ensures var u := ReleaseAll(DropFront(t, n), t.dirty[..n]);
            SelectTail(t, due, useAuto).q == u || SelectTail(t, due, useAuto).q == Acquire(u).q
  {
    SelectChoice(t, due, useAuto, k);
    NothingDropped(t);
    n := match Choice(t.cache, t.dirty[0], k, due) case None => 0 case Some(v) => v;
  }

  /** The whole call is two drops and, unless it is too early, an acquire. */
  lemma TimedAcquireShape(s: Queue, due: int, useAuto: bool, k: nat) returns (n: nat)
    requires Inv(s) && due > 0 && s.dirty != []
    requires LongestEligible(s.cache, s.dirty[LevelDrop(s)..], k, due, useAuto)
    ensures var t := AfterLevelDrop(s);
            && Inv(t) && t.opts == s.opts && t.dirty == s.dirty[LevelDrop(s)..] && n <= |t.dirty| && ByTimestamp(s, k, due) == t.dirty[..n]
            && (forall q :: q in t.dirty ==> q in s.cache && q in t.cache && t.cache[q] == s.cache[q])
    ensures var t := AfterLevelDrop(s);
            var u := ReleaseAll(DropFront(t, n), t.dirty[..n]);
            TimedAcquire(s, due, useAuto).q == u || TimedAcquire(s, due, useAuto).q == Acquire(u).q
  {
    var kept, t := s.dirty[LevelDrop(s)..], AfterLevelDrop(s);
    AfterLevelDropKeeps(s);
    assert kept[0] in kept;
    EligibleKept(s, t, kept, k, due, useAuto);
    n := TailShape(t, due, useAuto, k);
    ChosenByTimestamp(s, t, k, due, n);
  }

  /** What the timestamps give up, told in terms of the entries after the first drop. */
  lemma ChosenByTimestamp(s: Queue, t: Queue, k: nat, due: int, n: nat)
    requires t.dirty == s.dirty[LevelDrop(s)..] && t.dirty != [] && n <= |t.dirty|
    requires t.dirty[0] in s.cache && t.dirty[0] in t.cache && t.cache[t.dirty[0]] == s.cache[t.dirty[0]]
    requires var c := Choice(t.cache, t.dirty[0], k, due); n == if c.None? then 0 else c.value
    ensures ByTimestamp(s, k, due) == t.dirty[..n]
  {
  }

  /** The frames given up by level and by timestamp have all settled when the call returns, in
      whatever mode: deleted if marked, otherwise free again or handed to the listener. */
  lemma DroppedFramesSettle(s: Queue, due: int, useAuto: bool, k: nat, q: SeqNum)
    requires Inv(s) && due > 0 && s.dirty != []
    requires LongestEligible(s.cache, s.dirty[LevelDrop(s)..], k, due, useAuto)
    requires q in ByLevel(s) + ByTimestamp(s, k, due)
    ensures q in s.cache && Settled(TimedAcquire(s, due, useAuto).q, q, s.cache[q].isDeleting)
  {
    var t := AfterLevelDrop(s);
    var n := TimedAcquireShape(s, due, useAuto, k);
    var u := ReleaseAll(DropFront(t, n), t.dirty[..n]);
    assert InState(s.cache, q, Flushed) by { assert q in s.dirty; }
    if q in ByLevel(s) {
      DropByLevelChoice(s);
      DropSettles(s, LevelDrop(s), q);
      DropKeepsSettled(t, n, q, s.cache[q].isDeleting);
    } else {
      DropSettles(t, n, q);
    }
    DropFrontFrames(t, n);
    ReleaseAllFrames(DropFront(t, n), t.dirty[..n]);
    AcquireKeepsSettled(u, q, s.cache[q].isDeleting);
  }

  /** Conservation over the whole call, outside listener mode: the free list grows by the unmarked
      ones of the frames given up, by level first and then by timestamp, each in its order, and the
      reports by the marked ones in the same way. */
  lemma DroppedFramesInOrder(s: Queue, due: int, useAuto: bool, k: nat)
    requires Inv(s) && due > 0 && s.dirty != [] && !s.opts.handOut
    requires LongestEligible(s.cache, s.dirty[LevelDrop(s)..], k, due, useAuto)
    ensures var r := TimedAcquire(s, due, useAuto).q;
            && r.free == s.free + Staying(s.cache, ByLevel(s)) + Staying(s.cache, ByTimestamp(s, k, due))
            && r.deleting == s.deleting + Leaving(s.cache, ByLevel(s)) + Leaving(s.cache, ByTimestamp(s, k, due))
  {
    var t := AfterLevelDrop(s);
    var n := TimedAcquireShape(s, due, useAuto, k);
    DropByLevelChoice(s);
    DropInOrder(s, LevelDrop(s));
    DropInOrder(t, n);
    StayingCong(s.cache, t.cache, t.dirty[..n]);
  }

  // ---- with other threads between the regions ----

  /** A frame at the front waits there as long as nothing takes frames off the list. */
  lemma FrontWaits(s: Queue, es: seq<Event>)
    requires Inv(s) && s.dirty != [] && CanRun(s, es) && (forall e :: e in es ==> !Purges(e)) && Departures(s, es) == []
    ensures var r := Acquire(Run(s, es)); r.out.Took? && r.out.id == s.dirty[0] && InState(r.q.cache, s.dirty[0], Acquired)
  {
    RunOrder(s, es);
    RunKeeps(s, es);
    FrontAcquired(Run(s, es), s.dirty, Flushes(s, es));
  }

  lemma FrontAcquired(u: Queue, dirty: seq<SeqNum>, more: seq<SeqNum>)
    requires Inv(u) && dirty != [] && dirty + more == [] + u.dirty
    ensures var r := Acquire(u); r.out.Took? && r.out.id == dirty[0] && InState(r.q.cache, dirty[0], Acquired)
  {
    assert u.dirty == dirty + more;
    assert InState(u.cache, u.dirty[0], Flushed);
  }

  /** The second region and the last one need not follow each other: whatever runs between them,
      the releases of the dropped frames included, if it takes no frame off the list the acquire
      gets the frame that the second region chose. */
  lemma ChosenFrameWaits(s: Queue, due: int, useAuto: bool, k: nat, es: seq<Event>)
    requires Inv(s) && s.dirty != [] && LongestEligible(s.cache, s.dirty, k, due, useAuto)
    requires Choice(s.cache, s.dirty[0], k, due).Some?
    requires var m := TimedSelect(s, due, useAuto).q;
             CanRun(m, es) && (forall e :: e in es ==> !Purges(e)) && Departures(m, es) == []
    ensures var m, n := TimedSelect(s, due, useAuto).q, Choice(s.cache, s.dirty[0], k, due).value;
            var r := Acquire(Run(m, es));
            n < |s.dirty| && r.out.Took? && r.out.id == s.dirty[n] && InState(r.q.cache, s.dirty[n], Acquired)
  {
    SelectChoice(s, due, useAuto, k);
    DropFrontFrames(s, Choice(s.cache, s.dirty[0], k, due).value);
    FrontWaits(TimedSelect(s, due, useAuto).q, es);
  }
}
