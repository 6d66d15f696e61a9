/** The producer never holds more than the queue holds or is about to report as deleted. Each step
    keeps this exactly under a condition on the call, most steps always. */
module Ledgers {
  import opened Lists
  import opened QueueModel
  import opened Partition
  import opened Requests
  import opened Shrink
  import opened HandOuts
  import opened FrameOrder
  import opened Protocols
  import opened Deletions
  import opened Entries
  import opened CacheProtocol

  /** Every number the producer holds is in the queue or in a pending report, and it holds no
      pre-allocated buffer, whose deletion would not be reported. */
  ghost predicate Ledger(y: System) {
    && (forall q :: q in y.c ==> q in y.s.cache || q in y.s.deleting)
    && (forall q :: q in y.s.cache && y.s.cache[q].preAlloc ==> q !in y.c)
  }

  /** The reply does not resolve in the producer's cache, and the queue's cache is fetched. */
  predicate Syncs(y: System, m: Move)
    requires Enabled(y.s, m.event)
  {
    var out := Step(y.s, m.event).out;
    m.syncOk && out.Granted? && out.buffer.None? && out.id !in y.c
  }

  /** What a call has to meet: calls that take entries or reports away without telling the producer
      take none it holds, and no pre-allocated buffer gets into its cache. */
  ghost predicate Traced(y: System, m: Move)
    requires Enabled(y.s, m.event)
  {
    var s := y.s;
    match m.event
    case EvDetachBuffer(q) => q in y.c && q in s.cache && s.cache[q].state in {Requested, Acquired} ==> q in s.deleting
    case EvCleanBySeqNum(ids) => forall q :: q in ids && q in y.c && q in s.cache ==> q in s.deleting
    case EvRelease(x) => Lossy(s, m.event) ==> forall q :: q in y.c ==> q in s.cache && !(q == x && s.cache[x].isDeleting)
    case EvClear => m.byProducer || y.c == map[]
    case EvAttachBuffer(b) => m.byProducer && b.id in s.cache && AttachBuffer(s, b).out.Done? ==> !s.cache[b.id].preAlloc
    case EvPreAlloc(_, ready) => forall i :: 0 <= i < |ready| && Used(s) + i < Room(s) ==> ready[i].id !in y.c
    case _ => Syncs(y, m) ==> forall q :: q in s.cache && s.cache[q].preAlloc ==> q in s.deleting
  }

  // ---- the producer's keys after a step ----

  function NewKeys(e: Event, out: Outcome): seq<SeqNum> {
    match out
    case Granted(id, _, _) => [id]
    case Done => (match e
                  case EvProducerAttach(b) => [b.id]
                  case EvAttachAndFlush(b, _) => [b.id]
                  case EvAttachBuffer(b) => [b.id]
                  case _ => [])
    case _ => []
  }

  /** Every key was there before, was named by the call, or was fetched; none is among the delivered reports. */
  lemma KeysAdded(y: System, m: Move)
    requires Enabled(y.s, m.event)
    ensures forall q :: q in Advance(y, m).c ==>
              q in y.c || q in NewKeys(m.event, Step(y.s, m.event).out) || (Syncs(y, m) && q in Step(y.s, m.event).q.cache)
    ensures forall q :: q in Advance(y, m).c ==> q !in DeliveredBy(Step(y.s, m.event).out)
  {
    var r := Step(y.s, m.event);
    if r.out.Granted? {
      AddCacheFacts(y.c, r.out.id, r.out.buffer, r.out.deleting, if m.syncOk then Some(SyncReply(r.q)) else None);
    }
  }

  /** A number the call brings is one the queue has, and not a buffer the producer was never sent. */
  lemma NewKeysSent(s: Queue, e: Event, q: SeqNum)
    requires Inv(s) && Enabled(s, e) && q in NewKeys(e, Step(s, e).out)
    ensures var t := Step(s, e).q;
            q in t.cache && (t.cache[q].preAlloc ==> e.EvAttachBuffer? && q == e.buffer.id && q in s.cache && s.cache[q].preAlloc)
  {
    var r := Step(s, e);
    if r.out.Granted? {
      GrantedBuffer(s, e);
      if Requesting(e) { var x := RequestingEffect(s, e); } else { FinishEffect(s, e.num, e.ok, e.token); }
    } else if r.out.Done? {
      match e {
        case EvProducerAttach(b) => AttachPuts(s, b, Frame(0, 0, 0, true, true));
        case EvAttachAndFlush(b, f) => AttachPuts(s, b, f);
        case EvAttachBuffer(b) => AttachBufferPuts(s, b);
      }
    }
  }

  // ---- a traced step keeps the ledger ----

  /** What the queue removed on its own is in the pending reports, or was in the reply. */
  lemma RemovalReported(s: Queue, e: Event, q: SeqNum)
    requires Inv(s) && Enabled(s, e) && !Lossy(s, e) && q !in Step(s, e).q.cache
    requires q in s.deleting || (q in s.cache && !s.cache[q].preAlloc && !Silent(e) && q !in Unreported(s, e))
    ensures q in DeliveredBy(Step(s, e).out) || q in Step(s, e).q.deleting
  {
    var r, l := Step(s, e), Both(s) + Subject(e);
    StepBalanced(s, e);
    KeepMembers(l, (x: SeqNum) => x in s.cache && x !in r.q.cache);
    ReportsMembers(s.cache, Vanished(s, r.q, l));
    assert q in s.deleting + DueAfter(s, e, r.q);
    assert q in DeliveredBy(r.out) + r.q.deleting;
  }

  /** Traced calls that take entries away without a report leave the producer none of them. */
  lemma SilentRemoval(y: System, m: Move, q: SeqNum)
    requires Enabled(y.s, m.event) && Traced(y, m) && q in y.c && q in Advance(y, m).c && q in y.s.cache
    requires q in Unreported(y.s, m.event) || Silent(m.event)
    ensures q in Advance(y, m).s.cache || (q in y.s.deleting && Advance(y, m).s.deleting == y.s.deleting)
  {
    match m.event {
      case EvCleanReleased => KeepMembers(y.s.free, (x: SeqNum) => !Spared(y.s, x));
      case _ =>
    }
  }

  lemma LossyRemoval(y: System, m: Move, q: SeqNum)
    requires Inv(y.s) && Enabled(y.s, m.event) && Traced(y, m) && Lossy(y.s, m.event) && q in Advance(y, m).c
    ensures q in Advance(y, m).s.cache
  {
    if m.event.EvRelease? { ReleaseEffect(y.s, m.event.id); }
  }

  lemma KeyAccounted(y: System, m: Move, q: SeqNum)
    requires Inv(y.s) && Ledger(y) && Enabled(y.s, m.event) && Traced(y, m) && q in Advance(y, m).c
    ensures q in Advance(y, m).s.cache || q in Advance(y, m).s.deleting
  {
    var s, e := y.s, m.event;
    KeysAdded(y, m);
    if Lossy(s, e) {
      LossyRemoval(y, m, q);
    } else if q in NewKeys(e, Step(s, e).out) {
      NewKeysSent(s, e, q);
    } else if q !in Step(s, e).q.cache {
      if q in s.cache && (q in Unreported(s, e) || Silent(e)) { SilentRemoval(y, m, q); } else { RemovalReported(s, e, q); }
    }
  }

  lemma DeliversPending(s: Queue, e: Event)
    requires Inv(s) && Enabled(s, e) && Step(s, e).out.Granted?
    ensures Step(s, e).out.deleting == s.deleting
  {
    GrantedBuffer(s, e);
    if Requesting(e) { var x := RequestingEffect(s, e); } else { FinishEffect(s, e.num, e.ok, e.token); }
  }

  /** A reply without a buffer changes no mark of pre-allocation. */
  lemma SyncKeepsMarks(y: System, m: Move)
    requires Inv(y.s) && Enabled(y.s, m.event) && Syncs(y, m)
    ensures var t := Step(y.s, m.event).q;
            forall q :: q in t.cache && t.cache[q].preAlloc <==> q in y.s.cache && y.s.cache[q].preAlloc
  {
    GrantedBuffer(y.s, m.event);
    if Requesting(m.event) {
      var x := RequestingEffect(y.s, m.event);
    } else {
      FinishEffect(y.s, m.event.num, m.event.ok, m.event.token);
    }
  }

  /** Which of the new buffers fit. */
  lemma {:induction false} PreAllocEntered(s: Queue, cfg: Config, ready: seq<Spare>, q: SeqNum)
    requires FreshAll(s, ready) && q !in s.cache
    ensures q in PreAllocInsert(s, cfg, ready).q.cache <==>
            exists i :: 0 <= i < |ready| && Used(s) + i < Room(s) && ready[i].id == q
    decreases |ready|
  {
    if ready != [] && Used(s) < Room(s) {
      var p := ready[0];
      var s1 := s.(cache := s.cache[p.id := PreAllocElement(p, cfg)], free := s.free + [p.id]);
      assert Fresh(s, ready[0].id);
      InsertSize(s, p.id, PreAllocElement(p, cfg));
      assert Used(s1) == Used(s) + 1;
      FreshRest(s, s1, ready);
      if q == p.id {
        PreAllocLocal(s1, cfg, ready[1..]);
        PreAllocKeepsKeys(s1, cfg, ready[1..]);
        assert ready[0].id == q && Used(s) + 0 < Room(s);
      } else {
        PreAllocEntered(s1, cfg, ready[1..], q);
        if i :| 0 <= i < |ready[1..]| && Used(s1) + i < Room(s1) && ready[1..][i].id == q {
          assert ready[i + 1].id == q && Used(s) + (i + 1) < Room(s);
        }
        if i :| 0 <= i < |ready| && Used(s) + i < Room(s) && ready[i].id == q {
          assert ready[1..][i - 1].id == q && Used(s1) + (i - 1) < Room(s1);
        }
      }
    }
  }

  lemma FreshRest(s: Queue, s1: Queue, ready: seq<Spare>)
    requires ready != [] && FreshAll(s, ready) && s1.pending == s.pending
    requires forall x :: x in s1.cache ==> x in s.cache || x == ready[0].id
    ensures FreshAll(s1, ready[1..])
  {
    forall i | 0 <= i < |ready[1..]| ensures Fresh(s1, ready[1..][i].id) { assert Fresh(s, ready[i + 1].id); }
  }

  lemma SyncedHidden(y: System, m: Move, q: SeqNum)
    requires Inv(y.s) && Enabled(y.s, m.event) && Traced(y, m) && Syncs(y, m)
    requires q in Step(y.s, m.event).q.cache && Step(y.s, m.event).q.cache[q].preAlloc
    ensures q in DeliveredBy(Step(y.s, m.event).out)
  {
    DeliversPending(y.s, m.event);
    GrantedBuffer(y.s, m.event);
    SyncKeepsMarks(y, m);
  }

  /** A pre-allocated entry is one the producer has never seen. */
  lemma HiddenStays(y: System, m: Move, q: SeqNum)
    requires Inv(y.s) && Ledger(y) && Enabled(y.s, m.event) && Traced(y, m)
    requires q in Advance(y, m).s.cache && Advance(y, m).s.cache[q].preAlloc
    ensures q !in Advance(y, m).c
  {
    var s, e := y.s, m.event;
    KeysAdded(y, m);
    if q in NewKeys(e, Step(s, e).out) {
      NewKeysSent(s, e, q);
      AttachedHidden(y, m, q);
    } else {
      WasHidden(y, m, q);
      if Syncs(y, m) { SyncedHidden(y, m, q); }
    }
  }

  lemma AttachedHidden(y: System, m: Move, q: SeqNum)
    requires Ledger(y) && Enabled(y.s, m.event) && Traced(y, m) && m.event.EvAttachBuffer? && q == m.event.buffer.id
    requires q in y.s.cache && y.s.cache[q].preAlloc
    ensures q !in Advance(y, m).c
  {
  }

  /** Before the step the producer did not hold it. */
  lemma WasHidden(y: System, m: Move, q: SeqNum)
    requires Inv(y.s) && Ledger(y) && Enabled(y.s, m.event) && Traced(y, m)
    requires q in Step(y.s, m.event).q.cache && Step(y.s, m.event).q.cache[q].preAlloc
    requires q !in NewKeys(m.event, Step(y.s, m.event).out)
    ensures q !in y.c
  {
    var s, e := y.s, m.event;
    StepLocal(s, e);
    if q in Special(s, e) {
      SpecialHidden(y, m, q);
    } else {
      assert Kept(s, Step(s, e).q, q);
    }
  }

  lemma SpecialHidden(y: System, m: Move, q: SeqNum)
    requires Inv(y.s) && Ledger(y) && Enabled(y.s, m.event) && Traced(y, m)
    requires q in Special(y.s, m.event) && q in Step(y.s, m.event).q.cache && Step(y.s, m.event).q.cache[q].preAlloc
    requires q !in NewKeys(m.event, Step(y.s, m.event).out)
    ensures q !in y.c
  {
    var s, e := y.s, m.event;
    if Requesting(e) {
      var x := RequestingEffect(s, e);
    } else {
      match e {
        case EvFinishAlloc(n, ok, x) => FinishEffect(s, n, ok, x);
        case EvProducerAttach(b) => AttachPuts(s, b, Frame(0, 0, 0, true, true));
        case EvAttachAndFlush(b, f) => AttachPuts(s, b, f);
        case EvConsumerAttach(b) => AttachPuts(s, b, Frame(0, 0, 0, true, true));
        case EvAttachBuffer(b) => AttachBufferPuts(s, b);
        case EvConsumerDetach(x, z) => ConsumerDetachToken(s, x, z);
        case EvLowerFlag(x) =>
        case EvPreAlloc(c, ready) => PreAllocHidden(y, c, ready, q);
      }
    }
  }

  lemma PreAllocHidden(y: System, cfg: Config, ready: seq<Spare>, q: SeqNum)
    requires FreshAll(y.s, ready) && q in Ids(ready) && q in PreAllocInsert(y.s, cfg, ready).q.cache
    requires forall i :: 0 <= i < |ready| && Used(y.s) + i < Room(y.s) ==> ready[i].id !in y.c
    ensures q !in y.c
  {
    IdsMembers(ready, q);
    var j :| 0 <= j < |ready| && ready[j].id == q;
    assert Fresh(y.s, ready[j].id);
    PreAllocEntered(y.s, cfg, ready, q);
  }

  lemma TracedKeeps(y: System, m: Move)
    requires Inv(y.s) && Ledger(y) && Enabled(y.s, m.event) && Traced(y, m)
    ensures Ledger(Advance(y, m))
  {
    var t, c := Advance(y, m).s, Advance(y, m).c;
    forall q | q in c ensures q in t.cache || q in t.deleting { KeyAccounted(y, m, q); }
    forall q | q in t.cache && t.cache[q].preAlloc ensures q !in c { HiddenStays(y, m, q); }
  }

  // ---- an untraced step breaks it ----

  lemma UntracedRemoval(y: System, m: Move)
    requires Inv(y.s) && Ledger(y) && Enabled(y.s, m.event) && !Traced(y, m)
    requires m.event.EvDetachBuffer? || m.event.EvCleanBySeqNum? || m.event.EvClear?
    ensures !Ledger(Advance(y, m))
  {
    var t := Advance(y, m).s;
    match m.event {
      case EvDetachBuffer(q) => assert q in Advance(y, m).c && q !in t.cache && q !in t.deleting;
      case EvCleanBySeqNum(ids) =>
        var q :| q in ids && q in y.c && q in y.s.cache && q !in y.s.deleting;
        assert q in Advance(y, m).c && q !in t.cache && q !in t.deleting;
      case EvClear =>
        var q :| q in y.c;
        assert q in Advance(y, m).c && q !in t.cache && q !in t.deleting;
    }
  }

  lemma UntracedRelease(y: System, m: Move)
    requires Inv(y.s) && Ledger(y) && Enabled(y.s, m.event) && !Traced(y, m) && m.event.EvRelease?
    ensures !Ledger(Advance(y, m))
  {
    ReleaseEffect(y.s, m.event.id);
    var q :| q in y.c && !(q in y.s.cache && !(q == m.event.id && y.s.cache[q].isDeleting));
    assert q in Advance(y, m).c && q !in Advance(y, m).s.cache && q !in Advance(y, m).s.deleting;
  }

  lemma UntracedAttach(y: System, m: Move)
    requires Inv(y.s) && Ledger(y) && Enabled(y.s, m.event) && !Traced(y, m) && m.event.EvAttachBuffer?
    ensures !Ledger(Advance(y, m))
  {
    var q, t := m.event.buffer.id, Advance(y, m).s;
    AttachBufferPuts(y.s, m.event.buffer);
    assert q in t.cache && t.cache[q].preAlloc && q in Advance(y, m).c;
  }

  lemma UntracedPreAlloc(y: System, m: Move)
    requires Inv(y.s) && Ledger(y) && Enabled(y.s, m.event) && !Traced(y, m) && m.event.EvPreAlloc?
    ensures !Ledger(Advance(y, m))
  {
    var s, t, ready := y.s, Advance(y, m).s, m.event.ready;
    var i :| 0 <= i < |ready| && Used(s) + i < Room(s) && ready[i].id in y.c;
    var q := ready[i].id;
    PreAllocOut(s, m.event.config, ready);
    assert Fresh(s, q);
    PreAllocEntered(s, m.event.config, ready, q);
    PreAllocPuts(s, m.event.config, m.event.ready, q);
    assert t.cache[q].preAlloc && q in Advance(y, m).c;
  }

  lemma UntracedSync(y: System, m: Move)
    requires Inv(y.s) && Ledger(y) && Enabled(y.s, m.event) && Syncs(y, m)
    requires exists q :: q in y.s.cache && y.s.cache[q].preAlloc && q !in y.s.deleting
    ensures !Ledger(Advance(y, m))
  {
    var q :| q in y.s.cache && y.s.cache[q].preAlloc && q !in y.s.deleting;
    SyncKeepsMarks(y, m);
    DeliversPending(y.s, m.event);
    assert q in Advance(y, m).c;
  }

  lemma UntracedBreaks(y: System, m: Move)
    requires Inv(y.s) && Ledger(y) && Enabled(y.s, m.event) && !Traced(y, m)
    ensures !Ledger(Advance(y, m))
  {
    match m.event {
      case EvDetachBuffer(_) => UntracedRemoval(y, m);
      case EvCleanBySeqNum(_) => UntracedRemoval(y, m);
      case EvClear => UntracedRemoval(y, m);
      case EvRelease(_) => UntracedRelease(y, m);
      case EvAttachBuffer(_) => UntracedAttach(y, m);
      case EvPreAlloc(_, _) => UntracedPreAlloc(y, m);
      case _ => UntracedSync(y, m);
    }
  }

  // ---- the theorem ----

  /** From an account that adds up a step leads to one that adds up if and only if it is traced. */
  lemma StepLedgerExact(y: System, m: Move)
    requires Inv(y.s) && Ledger(y) && Enabled(y.s, m.event)
    ensures Ledger(Advance(y, m)) <==> Traced(y, m)
  {
    if Traced(y, m) { TracedKeeps(y, m); } else { UntracedBreaks(y, m); }
  }

  ghost predicate AllTraced(y: System, ms: seq<Move>)
    requires CanAdvance(y, ms)
    decreases |ms|
  {
    ms == [] || (Traced(y, ms[0]) && AllTraced(Advance(y, ms[0]), ms[1..]))
  }

  ghost predicate AlwaysLedger(y: System, ms: seq<Move>)
    requires CanAdvance(y, ms)
    decreases |ms|
  {
    Ledger(y) && (ms == [] || AlwaysLedger(Advance(y, ms[0]), ms[1..]))
  }

  /** Throughout a run the producer holds nothing but what the queue holds or is about to report,
      if and only if each call of the run is traced. */
  lemma {:induction false} RunLedgerExact(y: System, ms: seq<Move>)
    requires Inv(y.s) && Ledger(y) && CanAdvance(y, ms)
    ensures AlwaysLedger(y, ms) <==> AllTraced(y, ms)
    decreases |ms|
  {
    if ms != [] {
      StepKeeps(y.s, ms[0].event);
      StepLedgerExact(y, ms[0]);
      if Traced(y, ms[0]) { RunLedgerExact(Advance(y, ms[0]), ms[1..]); }
    }
  }

  lemma StartsBalanced(opts: Settings)
    ensures Ledger(System(Initial(opts), map[]))
  {
  }
}
