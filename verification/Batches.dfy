/** BufferQueueProducer::RequestBuffers: several requests in one call. */
module Batches {
  import opened Lists
  import opened QueueModel
  import opened Partition
  import opened Requests
  import opened FrameOrder
  import opened Protocols
  import opened Ownership
  import opened Answers
  import opened BufferQueues

  /** What the environment contributes to one request: the number a new buffer would get, and
      how its allocation would end. */
  datatype Supply = Supply(num: SeqNum, ok: bool, token: nat)

  /** The request as far as it gets before an allocation. */
  function FirstHalf(s: Queue, cfg: Config, a: Supply): Next {
    var r := Request(s, cfg, a.num, false);
    if r.out.Blocked? then AfterWait(r.q, WithDefault(s, cfg), a.num) else r
  }

  /** RequestBuffer from its call to its return, when no other thread runs in between; a wait
      then ends by its timeout. */
  function WholeRequest(s: Queue, cfg: Config, a: Supply): Next {
    var w := FirstHalf(s, cfg, a);
    if w.out.Allocating? && a.num in w.q.pending then FinishAlloc(w.q, a.num, a.ok, a.token) else w
  }

  datatype Batch = Batch(q: Queue, ids: seq<SeqNum>, error: Option<Outcome>)

  /** The loop of RequestBuffers. */
  function BatchLoop(s: Queue, cfg: Config, supplies: seq<Supply>): Batch
    decreases |supplies|
  {
    if supplies == [] then Batch(s, [], None)
    else
      var r := WholeRequest(s, cfg, supplies[0]);
      if !r.out.Granted? then Batch(r.q, [], Some(r.out))
      else
        var b := BatchLoop(r.q, cfg, supplies[1..]);
        Batch(b.q, [r.out.id] + b.ids, b.error)
  }

  function WithBatch(s: Queue, batch: bool): Queue { s.(opts := s.opts.(batch := batch)) }

  /** Numbers for new buffers: unused and pairwise distinct. */
  ghost predicate Supplied(s: Queue, supplies: seq<Supply>) {
    && (forall i :: 0 <= i < |supplies| ==> Fresh(s, supplies[i].num))
    && (forall i, j :: 0 <= i < j < |supplies| ==> supplies[i].num != supplies[j].num)
  }

  /** No allocation of another request is under way. */
  predicate Idle(s: Queue) { !s.allocating && s.pending == map[] }

  lemma FirstHalfEffect(s: Queue, cfg: Config, a: Supply) returns (q: Option<SeqNum>)
    requires Inv(s) && Idle(s) && Fresh(s, a.num)
    ensures Inv(FirstHalf(s, cfg, a).q)
    ensures Effect(s, WithDefault(s, cfg), a.num, q, FirstHalf(s, cfg, a))
    ensures forall x :: Held(s, x) ==> Held(FirstHalf(s, cfg, a).q, x) && x !in GivenIn(FirstHalf(s, cfg, a).out)
  {
    var r, e, w := Request(s, cfg, a.num, false), EvRequest(cfg, a.num), EvAfterWait(WithDefault(s, cfg), a.num);
    q := RequestEffect(s, cfg, a.num);
    if r.out.Blocked? {
      q := AfterWaitEffect(s, WithDefault(s, cfg), a.num);
      StepKeeps(s, w);
      forall x | Held(s, x) { StepHolds(s, w, x); }
    } else {
      StepKeeps(s, e);
      forall x | Held(s, x) { StepHolds(s, e, x); }
    }
  }

  lemma SecondHalfEffect(s: Queue, a: Supply)
    requires Inv(s) && a.num in s.pending
    ensures var r := FinishAlloc(s, a.num, a.ok, a.token);
            && Inv(r.q) && FinishedAlloc(s, a.num, a.ok, a.token, r)
            && forall x :: Held(s, x) ==> Held(r.q, x) && x !in GivenIn(r.out)
  {
    var e := EvFinishAlloc(a.num, a.ok, a.token);
    FinishEffect(s, a.num, a.ok, a.token);
    StepKeeps(s, e);
    forall x | Held(s, x) { StepHolds(s, e, x); }
  }

  /** One request of the batch: what it gives is new, held and as asked; what was held stays held. */
  lemma WholeRequestEffect(s: Queue, cfg: Config, a: Supply)
    requires Inv(s) && Idle(s) && Fresh(s, a.num)
    ensures var r := WholeRequest(s, cfg, a);
            && Inv(r.q) && Idle(r.q) && r.q.opts == s.opts
            && (forall x :: x in r.q.cache ==> x in s.cache || x == a.num)
            && (forall x :: Held(s, x) ==> Held(r.q, x) && x !in GivenIn(r.out))
            && (r.out.Granted? ==> Held(r.q, r.out.id) && SameConfig(r.q.cache[r.out.id].config, WithDefault(s, cfg)))
  {
    var q := FirstHalfEffect(s, cfg, a);
    var w := FirstHalf(s, cfg, a);
    if w.out.Allocating? { SecondHalfEffect(w.q, a); }
  }

  /** A configuration once stored for a held buffer stays as it is during the batch. */
  lemma ConfigStays(s: Queue, cfg: Config, a: Supply, x: SeqNum)
    requires Inv(s) && Idle(s) && Fresh(s, a.num) && Held(s, x)
    ensures var t := WholeRequest(s, cfg, a).q; x in t.cache && t.cache[x].config == s.cache[x].config
  {
    InvExcludes(s, x);
    var q := FirstHalfEffect(s, cfg, a);
    var w := FirstHalf(s, cfg, a);
    if w.out.Allocating? { FinishEffect(w.q, a.num, a.ok, a.token); }
  }

  lemma SuppliedNext(s: Queue, t: Queue, supplies: seq<Supply>)
    requires supplies != [] && Supplied(s, supplies) && t.pending == map[]
    requires forall x :: x in t.cache ==> x in s.cache || x == supplies[0].num
    ensures Supplied(t, supplies[1..])
  {
    forall i | 0 <= i < |supplies[1..]| ensures Fresh(t, supplies[1..][i].num) { assert Fresh(s, supplies[i + 1].num); }
  }

  /** What a batch that started in `s` has given: pairwise distinct ids, all in the producer's hands
      and none of them before, each configured as asked; what was held stays as it was. */
  ghost predicate Collected(s: Queue, cfg: Config, b: Batch) {
    && Inv(b.q) && Idle(b.q) && b.q.opts == s.opts && NoDup(b.ids)
    && (forall x :: x in b.ids ==> Held(b.q, x) && !Held(s, x) && SameConfig(b.q.cache[x].config, WithDefault(s, cfg)))
    && (forall x :: Held(s, x) ==> Held(b.q, x) && b.q.cache[x].config == s.cache[x].config)
  }

  lemma CollectedOne(s: Queue, cfg: Config, a: Supply, b: Batch)
    requires Inv(s) && Idle(s) && Fresh(s, a.num)
    requires WholeRequest(s, cfg, a).out.Granted? && Collected(WholeRequest(s, cfg, a).q, cfg, b)
    ensures Collected(s, cfg, Batch(b.q, [WholeRequest(s, cfg, a).out.id] + b.ids, b.error))
  {
    var r := WholeRequest(s, cfg, a);
    WholeRequestEffect(s, cfg, a);
    forall x | Held(s, x) ensures Held(r.q, x) && r.q.cache[x].config == s.cache[x].config { ConfigStays(s, cfg, a, x); }
    CollectedMore(s, r.q, cfg, r.out.id, b);
  }

  lemma CollectedMore(s: Queue, t: Queue, cfg: Config, id: SeqNum, b: Batch)
    requires Collected(t, cfg, b) && t.opts == s.opts
    requires Held(t, id) && !Held(s, id) && SameConfig(t.cache[id].config, WithDefault(s, cfg))
    requires forall x :: Held(s, x) ==> Held(t, x) && t.cache[x].config == s.cache[x].config
    ensures Collected(s, cfg, Batch(b.q, [id] + b.ids, b.error))
  {
    assert ([id] + b.ids)[1..] == b.ids;
  }

  /** Every batch collects as said, and it is full exactly when no request failed. */
  lemma {:induction false} BatchContract(s: Queue, cfg: Config, supplies: seq<Supply>)
    requires Inv(s) && Idle(s) && Supplied(s, supplies)
    ensures var b := BatchLoop(s, cfg, supplies);
            Collected(s, cfg, b) && |b.ids| <= |supplies| && (b.error.None? <==> |b.ids| == |supplies|)
    decreases |supplies|
  {
    if supplies != [] {
      var r := WholeRequest(s, cfg, supplies[0]);
      WholeRequestEffect(s, cfg, supplies[0]);
      if r.out.Granted? {
        SuppliedNext(s, r.q, supplies);
        BatchContract(r.q, cfg, supplies[1..]);
        CollectedOne(s, cfg, supplies[0], BatchLoop(r.q, cfg, supplies[1..]));
      } else {
        forall x | Held(s, x) { ConfigStays(s, cfg, supplies[0], x); }
      }
    }
  }

  /** The request gets as far as the lists. */
  predicate Admitted(s: Queue, c: Config) { (s.opts.batch || (s.opts.valid && s.opts.listener)) && ColourAndTransformKnown(c) }

  /** A buffer of the queue can serve it as it is: a free one, or in the mode that does not block and
      with nothing else to take the oldest frame. */
  predicate OnHand(s: Queue, c: Config) {
    && !(s.opts.priorityAlloc && HasRoom(s))
    && (SomeSuits(s, c)
        || (!HasRoom(s) && !SomeUnlocked(s) && s.opts.noBlock && s.dirty != [] && s.dirty[0] in s.cache && Alike(s.cache[s.dirty[0]].config, c)))
  }

  /** There is a slot for a new buffer, or a buffer that can be given up for one. */
  predicate CanAllocate(s: Queue) { HasRoom(s) || SomeUnlocked(s) || (s.opts.noBlock && s.dirty != []) }

  /** A whole request is granted if and only if it is admitted and either a buffer is on hand or one
      can be allocated; otherwise it fails, it does not stay blocked. */
  lemma WholeAnswers(s: Queue, cfg: Config, a: Supply)
    requires Inv(s) && Idle(s) && Fresh(s, a.num)
    ensures var r, c := WholeRequest(s, cfg, a), Asked(s, cfg);
            && (r.out.Granted? || r.out.Failed?)
            && (r.out.Granted? <==> Admitted(s, cfg) && (OnHand(s, c) || (CanAllocate(s) && a.ok)))
  {
    FirstHalfAnswers(s, cfg, a);
    var f := FirstHalf(s, cfg, a);
    if f.out.Allocating? { FinishEffect(f.q, a.num, a.ok, a.token); }
  }

  lemma FirstHalfAnswers(s: Queue, cfg: Config, a: Supply)
    requires Inv(s) && Idle(s) && Fresh(s, a.num)
    ensures var f, c := FirstHalf(s, cfg, a), Asked(s, cfg);
            && (f.out.Granted? <==> Admitted(s, cfg) && OnHand(s, c))
            && (f.out == Allocating(a.num) <==> Admitted(s, cfg) && !OnHand(s, c) && CanAllocate(s))
            && (f.out == Allocating(a.num) ==> a.num in f.q.pending)
            && (f.out.Granted? || f.out.Failed? || f.out == Allocating(a.num))
  {
    var r, c := Request(s, cfg, a.num, false), Asked(s, cfg);
    RequestAnswers(s, EvRequest(cfg, a.num));
    AnsweredClass(s, cfg, a.num, r);
    if r.out.Blocked? {
      assert WithDefault(s, cfg) == c;
      AfterWaitAnswer(s, c, a.num);
      ResumedClass(s, c, a.num, AfterWait(s, c, a.num));
    }
  }

  lemma ServedClass(s: Queue, c: Config, n: SeqNum, r: Next)
    requires Served(s, c, n, r)
    ensures (r.out.Granted? <==> OnHand(s, c)) && (r.out == Allocating(n) <==> !OnHand(s, c) && CanAllocate(s))
    ensures r.out == Allocating(n) ==> n in r.q.pending
    ensures r.out.Blocked? ==> r.q == s && !HasRoom(s) && !SomeUnlocked(s) && !SomeSuits(s, c) && !s.opts.noBlock
    ensures r.out.Granted? || r.out.Failed? || r.out == Allocating(n) || r.out.Blocked?
  {
  }

  lemma AnsweredClass(s: Queue, cfg: Config, n: SeqNum, r: Next)
    requires Answered(s, cfg, n, r) && !s.allocating
    ensures var c := Asked(s, cfg);
            && (r.out.Granted? <==> Admitted(s, cfg) && OnHand(s, c))
            && (r.out == Allocating(n) <==> Admitted(s, cfg) && !OnHand(s, c) && CanAllocate(s))
            && (r.out == Allocating(n) ==> n in r.q.pending)
            && (r.out.Blocked? ==> r.q == s && !HasRoom(s) && !SomeUnlocked(s) && !SomeSuits(s, c) && !s.opts.noBlock)
            && (r.out.Granted? || r.out.Failed? || r.out == Allocating(n) || r.out.Blocked?)
  {
    if Admitted(s, cfg) { ServedClass(s, Asked(s, cfg), n, r); }
  }

  lemma ResumedClass(s: Queue, c: Config, n: SeqNum, r: Next)
    requires Resumed(s, c, n, r) && !SomeUnlocked(s) && !SomeSuits(s, c)
    ensures r.out.Failed?
  {
  }

  /** The state after `k` requests of the batch, one after the other. */
  function AfterRequests(s: Queue, cfg: Config, supplies: seq<Supply>, k: nat): Queue
    requires k <= |supplies|
  {
    if k == 0 then s else WholeRequest(AfterRequests(s, cfg, supplies, k - 1), cfg, supplies[k - 1]).q
  }

  lemma {:induction false} AfterFirst(s: Queue, cfg: Config, supplies: seq<Supply>, k: nat)
    requires 0 < k <= |supplies|
    ensures AfterRequests(s, cfg, supplies, k) == AfterRequests(WholeRequest(s, cfg, supplies[0]).q, cfg, supplies[1..], k - 1)
  {
    if k == 1 {
      assert AfterRequests(s, cfg, supplies, 0) == s;
    } else {
      AfterFirst(s, cfg, supplies, k - 1);
      assert supplies[1..][k - 2] == supplies[k - 1];
    }
  }

  /** What the `k`-th request of the batch answers. */
  function Answer(s: Queue, cfg: Config, supplies: seq<Supply>, k: nat): Outcome
    requires k < |supplies|
  {
    WholeRequest(AfterRequests(s, cfg, supplies, k), cfg, supplies[k]).out
  }

  /** `b` is what the requests answer one after the other, up to the first that is not granted. */
  predicate OneByOne(s: Queue, cfg: Config, supplies: seq<Supply>, b: Batch) {
    && |b.ids| <= |supplies|
    && (forall k :: 0 <= k < |b.ids| ==> GrantedAs(Answer(s, cfg, supplies, k), b.ids[k]))
    && EndsAs(s, cfg, supplies, b)
  }

  predicate GrantedAs(out: Outcome, id: SeqNum) { out.Granted? && out.id == id }

  /** What comes after the last id. */
  predicate EndsAs(s: Queue, cfg: Config, supplies: seq<Supply>, b: Batch)
    requires |b.ids| <= |supplies|
  {
    var n := |b.ids|;
    if n == |supplies| then b.error == None && b.q == AfterRequests(s, cfg, supplies, n)
    else b.error == Some(Answer(s, cfg, supplies, n)) && !b.error.value.Granted? && b.q == AfterRequests(s, cfg, supplies, n + 1)
  }

  lemma FirstGranted(s: Queue, cfg: Config, supplies: seq<Supply>, r: Next, c: Batch)
    requires supplies != [] && r == WholeRequest(s, cfg, supplies[0]) && r.out.Granted?
    requires OneByOne(r.q, cfg, supplies[1..], c)
    ensures OneByOne(s, cfg, supplies, c.(ids := [r.out.id] + c.ids))
  {
    var b := c.(ids := [r.out.id] + c.ids);
    AllGranted(s, cfg, supplies, r, b.ids, c.ids);
    LaterEnd(s, cfg, supplies, r.q, b, c);
  }

  lemma AllGranted(s: Queue, cfg: Config, supplies: seq<Supply>, r: Next, ids: seq<SeqNum>, later: seq<SeqNum>)
    requires supplies != [] && r == WholeRequest(s, cfg, supplies[0]) && r.out.Granted? && ids == [r.out.id] + later
    requires |later| < |supplies| && forall k :: 0 <= k < |later| ==> GrantedAs(Answer(r.q, cfg, supplies[1..], k), later[k])
    ensures forall k :: 0 <= k < |ids| ==> GrantedAs(Answer(s, cfg, supplies, k), ids[k])
  {
    FirstAnswer(s, cfg, supplies);
    forall k | 0 <= k < |ids| ensures GrantedAs(Answer(s, cfg, supplies, k), ids[k]) {
      if k > 0 { LaterGranted(s, cfg, supplies, r.q, k, later[k - 1]); }
    }
  }

  lemma LaterGranted(s: Queue, cfg: Config, supplies: seq<Supply>, t: Queue, k: nat, id: SeqNum)
    requires 0 < k < |supplies| && t == WholeRequest(s, cfg, supplies[0]).q
    requires GrantedAs(Answer(t, cfg, supplies[1..], k - 1), id)
    ensures GrantedAs(Answer(s, cfg, supplies, k), id)
  {
    LaterAnswer(s, cfg, supplies, t, k);
  }

  lemma FirstAnswer(s: Queue, cfg: Config, supplies: seq<Supply>)
    requires supplies != []
    ensures Answer(s, cfg, supplies, 0) == WholeRequest(s, cfg, supplies[0]).out
  {
    assert AfterRequests(s, cfg, supplies, 0) == s;
  }

  lemma LaterEnd(s: Queue, cfg: Config, supplies: seq<Supply>, t: Queue, b: Batch, c: Batch)
    requires supplies != [] && t == WholeRequest(s, cfg, supplies[0]).q
    requires |c.ids| <= |supplies[1..]| && EndsAs(t, cfg, supplies[1..], c) && |b.ids| == |c.ids| + 1 && b.error == c.error && b.q == c.q
    ensures EndsAs(s, cfg, supplies, b)
  {
    var n := |b.ids|;
    AfterFirst(s, cfg, supplies, n);
    if n < |supplies| {
      LaterAnswer(s, cfg, supplies, t, n);
      AfterFirst(s, cfg, supplies, n + 1);
    }
  }

  lemma FirstRefused(s: Queue, cfg: Config, supplies: seq<Supply>, r: Next, b: Batch)
    requires supplies != [] && r == WholeRequest(s, cfg, supplies[0]) && !r.out.Granted?
    requires b.ids == [] && b.error == Some(r.out) && b.q == r.q
    ensures OneByOne(s, cfg, supplies, b)
  {
    assert AfterRequests(s, cfg, supplies, 0) == s;
    assert AfterRequests(s, cfg, supplies, 1) == r.q;
  }

  /** A batch makes its requests one after the other and stops at the first that fails: it returns
      the ids granted until then, in order, and that failure. */
  lemma {:induction false} BatchExact(s: Queue, cfg: Config, supplies: seq<Supply>)
    ensures OneByOne(s, cfg, supplies, BatchLoop(s, cfg, supplies))
    decreases |supplies|
  {
    if supplies != [] {
      var r, b := WholeRequest(s, cfg, supplies[0]), BatchLoop(s, cfg, supplies);
      if r.out.Granted? {
        BatchExact(r.q, cfg, supplies[1..]);
        FirstGranted(s, cfg, supplies, r, BatchLoop(r.q, cfg, supplies[1..]));
      } else {
        FirstRefused(s, cfg, supplies, r, b);
      }
    }
  }

  lemma LaterAnswer(s: Queue, cfg: Config, supplies: seq<Supply>, t: Queue, k: nat)
    requires 0 < k < |supplies| && t == WholeRequest(s, cfg, supplies[0]).q
    ensures Answer(s, cfg, supplies, k) == Answer(t, cfg, supplies[1..], k - 1)
  {
    AfterFirst(s, cfg, supplies, k);
  }

  function After(ids: seq<SeqNum>, b: Batch): Batch { b.(ids := ids + b.ids) }

  /** One round of the loop. */
  lemma BatchRound(s: Queue, cfg: Config, ids: seq<SeqNum>, supplies: seq<Supply>)
    requires Inv(s) && Idle(s) && Supplied(s, supplies) && supplies != []
    ensures var r := WholeRequest(s, cfg, supplies[0]);
            && Inv(r.q) && Idle(r.q)
            && After(ids, BatchLoop(s, cfg, supplies)) ==
               (if r.out.Granted? then After(ids + [r.out.id], BatchLoop(r.q, cfg, supplies[1..])) else Batch(r.q, ids, Some(r.out)))
            && (r.out.Granted? ==> Supplied(r.q, supplies[1..]))
  {
    var r := WholeRequest(s, cfg, supplies[0]);
    WholeRequestEffect(s, cfg, supplies[0]);
    if r.out.Granted? {
      var b := BatchLoop(r.q, cfg, supplies[1..]);
      assert ids + ([r.out.id] + b.ids) == ids + [r.out.id] + b.ids;
      SuppliedNext(s, r.q, supplies);
    } else {
      assert ids + [] == ids;
    }
  }

  class BufferQueueProducer {
    const bufferQueue: BufferQueue

    constructor (queue: BufferQueue)
      ensures bufferQueue == queue
    {
      bufferQueue := queue;
    }

    method RequestBuffer(config: Config, supply: Supply) returns (out: Outcome)
      requires bufferQueue.Valid() && Idle(bufferQueue.Abs()) && Fresh(bufferQueue.Abs(), supply.num)
      modifies bufferQueue
      ensures bufferQueue.Valid() && Next(bufferQueue.Abs(), out) == WholeRequest(old(bufferQueue.Abs()), config, supply)
    {
      ghost var s := bufferQueue.Abs();
      ghost var q := FirstHalfEffect(s, config, supply);
      q := RequestEffect(s, config, supply.num);
      var updateConfig := WithUsage(config, bufferQueue.opts.defaultUsage);
      out := bufferQueue.RequestBufferLocked(config, supply.num, false);
      if out.Blocked? {
        out := bufferQueue.ReuseBufferForBlockMode(updateConfig, supply.num);
      }
      assert Next(bufferQueue.Abs(), out) == FirstHalf(s, config, supply);
      if out.Allocating? {
        out := bufferQueue.EndAlloc(supply.num, supply.ok, supply.token);
      }
    }

    method SetBatchHandle(batch: bool)
      requires bufferQueue.Valid()
      modifies bufferQueue
      ensures bufferQueue.Valid() && bufferQueue.Abs() == WithBatch(old(bufferQueue.Abs()), batch)
    {
      bufferQueue.opts := bufferQueue.opts.(batch := batch);
    }

    /** RequestBuffers after a successful Connect: stops at the first request that fails, reports
        that failure only when there is nothing to return, and leaves the batch mode again. */
    method RequestBuffers(config: Config, supplies: seq<Supply>) returns (ids: seq<SeqNum>, error: Option<Outcome>)
      requires bufferQueue.Valid() && Idle(bufferQueue.Abs()) && Supplied(bufferQueue.Abs(), supplies)
      modifies bufferQueue
      ensures bufferQueue.Valid()
      ensures var b := BatchLoop(WithBatch(old(bufferQueue.Abs()), true), config, supplies);
              && bufferQueue.Abs() == WithBatch(b.q, false) && ids == b.ids
              && error == if ids == [] then b.error else None
    {
      ghost var s := WithBatch(bufferQueue.Abs(), true);
      SetBatchHandle(true);
      ids, error := [], None;
      var i := 0;
      assert supplies[0..] == supplies;
      while i < |supplies|
        invariant i <= |supplies| && error.None? && bufferQueue.Valid()
        invariant Idle(bufferQueue.Abs()) && Supplied(bufferQueue.Abs(), supplies[i..])
        invariant After(ids, BatchLoop(bufferQueue.Abs(), config, supplies[i..])) == BatchLoop(s, config, supplies)
      {
        BatchRound(bufferQueue.Abs(), config, ids, supplies[i..]);
        assert supplies[i..][1..] == supplies[i + 1..];
        var out := RequestBuffer(config, supplies[i]);
        if !out.Granted? {
          error := Some(out);
          break;
        }
        ids := ids + [out.id];
        i := i + 1;
      }
      SetBatchHandle(false);
      if ids != [] { error := None; }
    }
  }
}
