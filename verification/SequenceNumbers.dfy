/** Sequence numbers: a bitmap of the numbers in use, a cyclic scan for the next one, and the
    buffers that set and clear its bits when they are created and destroyed. The upper half of a
    number is the process id and the lower half the bitmap index, so the masks and shifts of the
    C++ code are remainders and quotients by 65536 here. */
module SequenceNumbers {
  import opened Lists

  const MAX_SEQUENCE_NUM: nat := 0xFFFF
  const PID_UNIT: nat := 0x1_0000

  type Bits = b: seq<bool> | |b| == MAX_SEQUENCE_NUM witness seq(MAX_SEQUENCE_NUM, i => false)

  datatype Pool = Pool(bits: Bits, last: u32)

  /** A live SurfaceBufferImpl: its number and `isSeqNumExist_`. */
  datatype Holder = Holder(number: u32, borrowed: bool)

  // ---- the scan ----

  /** The `j`-th index the scan looks at. */
  function Nth(start: u32, j: nat): (i: nat)
    requires j < MAX_SEQUENCE_NUM
    ensures i < MAX_SEQUENCE_NUM
  {
    var at := start % MAX_SEQUENCE_NUM;
    if at + j < MAX_SEQUENCE_NUM then at + j else at + j - MAX_SEQUENCE_NUM
  }

  /** How many indices the scan looks at before it gives up: its stop index is (start - 1) % 65535
      in unsigned arithmetic, which for start 0 is index 0 itself. */
  function Probes(start: u32): nat { if start == 0 then 1 else MAX_SEQUENCE_NUM }

  /** The first clear index, from the `j`-th one on. */
  function Scan(bits: Bits, start: u32, j: nat): (r: Option<nat>)
    requires j <= Probes(start)
    ensures r.Some? ==> r.value < MAX_SEQUENCE_NUM
    decreases Probes(start) - j
  {
    if j == Probes(start) then None
    else if !bits[Nth(start, j)] then Some(Nth(start, j))
    else Scan(bits, start, j + 1)
  }

  /** GenerateSequenceNumber: what becomes of the bitmap and of the counter. */
  function Generate(bits: Bits, start: u32): Pool {
    match Scan(bits, start, 0)
    case None => Pool(bits, start)
    case Some(i) => Pool(bits[i := true], i)
  }

  lemma {:induction false} ScanFrom(bits: Bits, start: u32, j: nat)
    requires j <= Probes(start)
    ensures match Scan(bits, start, j)
            case None => forall k :: j <= k < Probes(start) ==> bits[Nth(start, k)]
            case Some(i) => exists k :: j <= k < Probes(start) && Nth(start, k) == i && !bits[i]
                                        && forall l :: j <= l < k ==> bits[Nth(start, l)]
    decreases Probes(start) - j
  {
    if j < Probes(start) {
      if bits[Nth(start, j)] {
        ScanFrom(bits, start, j + 1);
      } else {
        assert Nth(start, j) == Scan(bits, start, j).value;
      }
    }
  }

  lemma NthCyclic(start: u32, k: nat)
    requires k < MAX_SEQUENCE_NUM
    ensures Nth(start, k) == (start + k) % 65535
  {
    var q, r := start / 65535, start % 65535;
    assert start + k == 65535 * q + (r + k);
    if r + k < 65535 { Remainder(start + k, q, r + k); } else { Remainder(start + k, q + 1, r + k - 65535); }
  }

  lemma Remainder(n: nat, q: nat, r: nat)
    requires n == 65535 * q + r && r < 65535
    ensures n % 65535 == r
  {
  }

  /** Every index is looked at. */
  lemma NthReaches(start: u32, i: nat) returns (j: nat)
    requires i < MAX_SEQUENCE_NUM
    ensures j < MAX_SEQUENCE_NUM && Nth(start, j) == i
  {
    var at := start % MAX_SEQUENCE_NUM;
    j := if at <= i then i - at else i + MAX_SEQUENCE_NUM - at;
  }

  /** From every start but 0 the scan finds the first clear index in cyclic order, and gives up
      exactly when there is none. From start 0, which only the wrap-around of the counter can
      bring about, it gives up exactly when index 0 is taken. */
  lemma ScanChoice(bits: Bits, start: u32)
    ensures Scan(bits, start, 0).None? <==> if start == 0 then bits[0] else forall i :: 0 <= i < MAX_SEQUENCE_NUM ==> bits[i]
    ensures match Scan(bits, start, 0)
            case None => true
            case Some(i) => exists k :: 0 <= k < MAX_SEQUENCE_NUM && Nth(start, k) == i && !bits[i]
                                        && forall l :: 0 <= l < k ==> bits[Nth(start, l)]
    ensures forall k :: 0 <= k < MAX_SEQUENCE_NUM ==> Nth(start, k) == (start + k) % 65535
  {
    ScanFrom(bits, start, 0);
    forall k | 0 <= k < MAX_SEQUENCE_NUM ensures Nth(start, k) == (start + k) % 65535 { NthCyclic(start, k); }
    if start != 0 && Scan(bits, start, 0).None? {
      forall i | 0 <= i < MAX_SEQUENCE_NUM ensures bits[i] { var j := NthReaches(start, i); }
    }
  }

  // ---- owners and aliases ----

  function Low(number: u32): nat { number % PID_UNIT }

  predicate Ours(pid: nat, number: u32) { Low(number) < MAX_SEQUENCE_NUM && number / PID_UNIT == pid }

  datatype Birth = Birth(pool: Pool, holder: Holder)

  /** The constructor that takes a new number. */
  function Create(p: Pool, pid: nat): Birth {
    var q := Generate(p.bits, (p.last + 1) % U32);
    Birth(q, Holder((pid % PID_UNIT) * PID_UNIT + q.last % PID_UNIT, false))
  }

  /** The constructor for a number received from elsewhere. */
  function Adopt(p: Pool, pid: nat, number: u32): Birth {
    if Ours(pid, number) then Birth(p.(bits := p.bits[Low(number) := true]), Holder(number, p.bits[Low(number)]))
    else Birth(p, Holder(number, false))
  }

  /** The destructor. */
  function Destroy(p: Pool, pid: nat, h: Holder): Pool {
    if Ours(pid, h.number) && !h.borrowed then p.(bits := p.bits[Low(h.number) := false]) else p
  }

  // ---- whole runs ----

  datatype Event = EvCreate(name: nat) | EvAdopt(name: nat, number: u32) | EvDestroy(name: nat)

  /** The pool and the live buffers of the process, each under a name of its own. */
  datatype World = World(pool: Pool, live: map<nat, Holder>)

  /** A new number can be found. */
  predicate NotExhausted(p: Pool) { Scan(p.bits, (p.last + 1) % U32, 0).Some? }

  predicate Enabled(w: World, e: Event) {
    match e
    case EvCreate(x) => x !in w.live && NotExhausted(w.pool)
    case EvAdopt(x, _) => x !in w.live
    case EvDestroy(x) => x in w.live
  }

  function Step(w: World, pid: nat, e: Event): World
    requires Enabled(w, e)
  {
    match e
    case EvCreate(x) => var b := Create(w.pool, pid); World(b.pool, w.live[x := b.holder])
    case EvAdopt(x, n) => var b := Adopt(w.pool, pid, n); World(b.pool, w.live[x := b.holder])
    case EvDestroy(x) => World(Destroy(w.pool, pid, w.live[x]), w.live - {x})
  }

  predicate CanRun(w: World, pid: nat, es: seq<Event>)
    decreases |es|
  {
    es == [] || (Enabled(w, es[0]) && CanRun(Step(w, pid, es[0]), pid, es[1..]))
  }

  function Run(w: World, pid: nat, es: seq<Event>): World
    requires CanRun(w, pid, es)
    decreases |es|
  {
    if es == [] then w else Run(Step(w, pid, es[0]), pid, es[1..])
  }

  /** The live buffer `x` answers for bit `i`. */
  predicate Owns(w: World, pid: nat, x: nat, i: nat) {
    x in w.live && Ours(pid, w.live[x].number) && !w.live[x].borrowed && Low(w.live[x].number) == i
  }

  /** The bits that are set and the live owners are in bijection. */
  ghost predicate Bijection(w: World, pid: nat) {
    && (forall i :: 0 <= i < MAX_SEQUENCE_NUM && w.pool.bits[i] ==> exists x :: Owns(w, pid, x, i))
    && (forall x: nat, i: nat :: Owns(w, pid, x, i) ==> w.pool.bits[i])
    && (forall x: nat, y: nat, i: nat :: Owns(w, pid, x, i) && Owns(w, pid, y, i) ==> x == y)
  }

  /** The owner of one more bit. */
  lemma GainKeeps(w: World, pid: nat, x: nat, h: Holder, bits: Bits)
    requires Bijection(w, pid) && x !in w.live && Ours(pid, h.number)
    requires h.borrowed == w.pool.bits[Low(h.number)] && bits == w.pool.bits[Low(h.number) := true]
    ensures forall last :: Bijection(World(Pool(bits, last), w.live[x := h]), pid)
  {
    forall last: u32 ensures Bijection(World(Pool(bits, last), w.live[x := h]), pid) {
      var t := World(Pool(bits, last), w.live[x := h]);
      forall i | 0 <= i < MAX_SEQUENCE_NUM && bits[i] ensures exists y :: Owns(t, pid, y, i) {
        if w.pool.bits[i] {
          var y :| Owns(w, pid, y, i);
          assert Owns(t, pid, y, i);
        } else {
          assert Owns(t, pid, x, i);
        }
      }
      forall y: nat, i: nat | Owns(t, pid, y, i) ensures bits[i] { if y != x { assert Owns(w, pid, y, i); } }
      forall y: nat, z: nat, i: nat | Owns(t, pid, y, i) && Owns(t, pid, z, i) ensures y == z {
        if y != x { assert Owns(w, pid, y, i); }
        if z != x { assert Owns(w, pid, z, i); }
      }
    }
  }

  lemma StrangerKeeps(w: World, pid: nat, x: nat, h: Holder)
    requires Bijection(w, pid) && x !in w.live && !Ours(pid, h.number)
    ensures Bijection(World(w.pool, w.live[x := h]), pid)
  {
    var t := World(w.pool, w.live[x := h]);
    assert forall y: nat, i: nat :: Owns(t, pid, y, i) <==> Owns(w, pid, y, i);
  }

  lemma LossKeeps(w: World, pid: nat, x: nat)
    requires Bijection(w, pid) && x in w.live
    ensures Bijection(World(Destroy(w.pool, pid, w.live[x]), w.live - {x}), pid)
  {
    var t, j := World(Destroy(w.pool, pid, w.live[x]), w.live - {x}), Low(w.live[x].number);
    forall y: nat, i: nat | Owns(t, pid, y, i) ensures t.pool.bits[i] && Owns(w, pid, y, i) {
      assert Owns(w, pid, y, i);
      assert i == j && Owns(w, pid, x, j) ==> x == y;
    }
    forall i | 0 <= i < MAX_SEQUENCE_NUM && t.pool.bits[i] ensures exists y :: Owns(t, pid, y, i) {
      var y :| Owns(w, pid, y, i);
      assert Owns(t, pid, y, i);
    }
  }

  lemma CreateIsOurs(p: Pool, pid: nat)
    requires NotExhausted(p) && pid < PID_UNIT
    ensures var b := Create(p, pid);
            && Ours(pid, b.holder.number) && !b.holder.borrowed && !p.bits[Low(b.holder.number)]
            && b.pool == Pool(p.bits[Low(b.holder.number) := true], Low(b.holder.number))
  {
    ScanFrom(p.bits, (p.last + 1) % U32, 0);
  }

  /** The constructor takes the number that follows the last one, or the next free one in cyclic order,
      puts the process id over it, and remembers it; without a free number it takes the counter itself
      and leaves the bitmap alone. */
  lemma CreateExact(p: Pool, pid: nat)
    ensures var b, start := Create(p, pid), (p.last + 1) % 0x1_0000_0000;
            && !b.holder.borrowed && b.holder.number == (pid % 65536) * 65536 + b.pool.last % 65536
            && (if NotExhausted(p) then
                  && b.pool.last < 65535 && !p.bits[b.pool.last] && b.pool.bits == p.bits[b.pool.last := true]
                  && (exists k :: 0 <= k < 65535 && Nth(start, k) == b.pool.last && forall l :: 0 <= l < k ==> p.bits[Nth(start, l)])
                else b.pool == Pool(p.bits, start))
  {
    var start := (p.last + 1) % U32;
    ScanChoice(p.bits, start);
  }

  /** The constructor for a received number sets its bit if the number is this process's own, and marks
      the buffer as a borrower if and only if the bit was set before. */
  lemma AdoptExact(p: Pool, pid: nat, number: u32)
    ensures var b, i, ours := Adopt(p, pid, number), number % 65536, number / 65536 == pid && number % 65536 < 65535;
            && b.holder.number == number && b.pool.last == p.last
            && (b.holder.borrowed <==> ours && p.bits[i])
            && (forall j :: 0 <= j < 65535 ==> (b.pool.bits[j] <==> p.bits[j] || (ours && j == i)))
  {
  }

  /** The destructor clears the bit of an own number unless the buffer had borrowed it. */
  lemma DestroyExact(p: Pool, pid: nat, h: Holder)
    ensures var q, i, ours := Destroy(p, pid, h), h.number % 65536, h.number / 65536 == pid && h.number % 65536 < 65535;
            q.last == p.last && forall j :: 0 <= j < 65535 ==> (q.bits[j] <==> p.bits[j] && !(ours && !h.borrowed && j == i))
  {
  }

  lemma StepBijection(w: World, pid: nat, e: Event)
    requires Bijection(w, pid) && Enabled(w, e) && pid < PID_UNIT
    ensures Bijection(Step(w, pid, e), pid)
  {
    match e
    case EvCreate(x) =>
      var b := Create(w.pool, pid);
      CreateIsOurs(w.pool, pid);
      GainKeeps(w, pid, x, b.holder, b.pool.bits);
    case EvAdopt(x, n) =>
      var b := Adopt(w.pool, pid, n);
      if Ours(pid, n) { GainKeeps(w, pid, x, b.holder, b.pool.bits); } else { StrangerKeeps(w, pid, x, b.holder); }
    case EvDestroy(x) => LossKeeps(w, pid, x);
  }

  /** Over every run of creations, adoptions and destructions in which the numbers do not run out,
      the set bits and the live owners stay in bijection, so no two live owners share a number. */
  lemma {:induction false} RunBijection(w: World, pid: nat, es: seq<Event>)
    requires Bijection(w, pid) && CanRun(w, pid, es) && pid < PID_UNIT
    ensures Bijection(Run(w, pid, es), pid)
    decreases |es|
  {
    if es != [] {
      StepBijection(w, pid, es[0]);
      RunBijection(Step(w, pid, es[0]), pid, es[1..]);
    }
  }

  /** A new buffer's number differs from that of every live owner exactly when the numbers have
      not run out or the counter, used as the number in that case, ends in 0xFFFF. */
  lemma CreateIsNew(w: World, pid: nat)
    requires Bijection(w, pid) && pid < PID_UNIT
    ensures (forall y: nat, i: nat :: Owns(w, pid, y, i) ==> w.live[y].number != Create(w.pool, pid).holder.number) <==>
            NotExhausted(w.pool) || (w.pool.last + 1) % U32 % PID_UNIT == MAX_SEQUENCE_NUM
  {
    var start := (w.pool.last + 1) % U32;
    var n := Create(w.pool, pid).holder.number;
    if NotExhausted(w.pool) {
      CreateIsOurs(w.pool, pid);
    } else if start % PID_UNIT == MAX_SEQUENCE_NUM {
      assert Low(n) == MAX_SEQUENCE_NUM;
    } else {
      ScanChoice(w.pool.bits, start);
      assert w.pool.bits[start % PID_UNIT];
      var y :| Owns(w, pid, y, start % PID_UNIT);
      SameHalves(w.live[y].number, n, pid);
    }
  }

  lemma SameHalves(a: u32, b: u32, pid: nat)
    requires a / PID_UNIT == pid == b / PID_UNIT && a % PID_UNIT == b % PID_UNIT
    ensures a == b
  {
  }

  /** A process id that does not fit into 16 bits: a buffer's bit is given back by its destructor
      exactly when the id fits. */
  lemma PidMustFit(p: Pool, pid: nat)
    requires NotExhausted(p)
    ensures var b := Create(p, pid);
            Destroy(b.pool, pid, b.holder).bits == p.bits <==> pid < PID_UNIT
  {
    var b := Create(p, pid);
    ScanFrom(p.bits, (p.last + 1) % U32, 0);
    var i := b.pool.last;
    assert b.pool.bits[i] && !p.bits[i];
    if pid < PID_UNIT {
      CreateIsOurs(p, pid);
      assert b.pool.bits[i := false] == p.bits;
    }
  }

  /** An adopted buffer does not keep its number alive: when the owner goes, the bit is clear
      although the adopted buffer lives on. */
  lemma BorrowerOutlivesNumber(p: Pool, pid: nat)
    requires NotExhausted(p) && pid < PID_UNIT
    ensures var a := Create(p, pid);
            var b := Adopt(a.pool, pid, a.holder.number);
            b.holder.borrowed && b.holder.number == a.holder.number
            && !Destroy(b.pool, pid, a.holder).bits[Low(b.holder.number)]
  {
    CreateIsOurs(p, pid);
  }

  // ---- the objects ----

  /** `g_seqBitset` and the static counter of the constructor. */
  class SequencePool {
    const bits: array<bool>
    var sequenceNumber: u32
    const pid: nat

    ghost predicate Valid()
      reads this, bits
    {
      bits.Length == MAX_SEQUENCE_NUM
    }

    ghost function Abs(): Pool
      requires Valid()
      reads this, bits
    {
      Pool(bits[..], sequenceNumber)
    }

    constructor (process: nat)
      ensures Valid() && fresh(bits) && pid == process && sequenceNumber == 0 && forall i :: 0 <= i < bits.Length ==> !bits[i]
    {
      bits := new bool[MAX_SEQUENCE_NUM](i => false);
      sequenceNumber := 0;
      pid := process;
    }

    method GenerateSequenceNumber(start: u32) returns (seqNum: u32)
      requires Valid()
      modifies bits
      ensures Valid() && Pool(bits[..], seqNum) == Generate(old(bits[..]), start)
    {
      ghost var was := bits[..];
      ghost var j := 0;
      seqNum := start % MAX_SEQUENCE_NUM;
      while seqNum <= MAX_SEQUENCE_NUM
        invariant Valid() && bits[..] == was && j < Probes(start) && Scan(was, start, 0) == Scan(was, start, j)
        invariant Nth(start, j) == if seqNum == MAX_SEQUENCE_NUM then 0 else seqNum
        decreases Probes(start) - j
      {
        if seqNum == MAX_SEQUENCE_NUM { seqNum := 0; }
        if !bits[seqNum] {
          bits[seqNum] := true;
          break;
        }
        if seqNum == (start + U32 - 1) % U32 % MAX_SEQUENCE_NUM {
          LastProbe(start, j);
          seqNum := start;
          break;
        }
        LastProbe(start, j);
        j := j + 1;
        seqNum := seqNum + 1;
      }
    }

    method CreateBuffer() returns (holder: Holder)
      requires Valid()
      modifies this, bits
      ensures Valid() && Birth(Abs(), holder) == Create(old(Abs()), pid)
    {
      sequenceNumber := (sequenceNumber + 1) % U32;
      sequenceNumber := GenerateSequenceNumber(sequenceNumber);
      holder := Holder((pid % PID_UNIT) * PID_UNIT + sequenceNumber % PID_UNIT, false);
    }

    method AdoptBuffer(number: u32) returns (holder: Holder)
      requires Valid()
      modifies bits
      ensures Valid() && Birth(Abs(), holder) == Adopt(old(Abs()), pid, number)
    {
      var isSeqNumExist := false;
      if Low(number) < MAX_SEQUENCE_NUM && number / PID_UNIT == pid {
        if bits[Low(number)] { isSeqNumExist := true; }
        bits[Low(number)] := true;
      }
      holder := Holder(number, isSeqNumExist);
    }

    method DestroyBuffer(holder: Holder)
      requires Valid()
      modifies bits
      ensures Valid() && Abs() == Destroy(old(Abs()), pid, holder)
    {
      if Low(holder.number) < MAX_SEQUENCE_NUM && holder.number / PID_UNIT == pid && !holder.borrowed {
        bits[Low(holder.number)] := false;
      }
    }
  }

  /** The stop index of the scan is the last one it looks at. */
  lemma LastProbe(start: u32, j: nat)
    requires j < Probes(start)
    ensures Nth(start, j) == (start + U32 - 1) % U32 % MAX_SEQUENCE_NUM <==> j + 1 == Probes(start)
    ensures j + 1 < Probes(start) ==> Nth(start, j + 1) == if Nth(start, j) + 1 == MAX_SEQUENCE_NUM then 0 else Nth(start, j) + 1
  {
  }
}
