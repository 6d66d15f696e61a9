/** The reply of a batch request: records of a buffer, its extra data, a fence and a list of
    deleted ids, written one after the other and read back by the mirror-image reader. */
module Codec {
  import opened Lists

  type u64 = n: nat | n < 0x1_0000_0000_0000_0000
  type i32 = n: int | -0x8000_0000 <= n < 0x8000_0000

  const RESERVE_MAX: nat := 1024
  const USER_DATA_MAX: nat := 1000
  const EXTRA_DATA_MAGIC: u32 := 0x4567
  const MAX_RECORDS: nat := 64

  /** The primitives of a MessageParcel. A file descriptor travels as the file it refers to; a
      `double` and an `int64_t` are their 64 bits. */
  datatype Item = Word(w: u32) | Long(l: u64) | Text(s: string) | File(f: i32) | Words(ws: seq<u32>)

  datatype Got<+T> = Bad | Got(value: T, rest: seq<Item>)

  function ToWord(i: i32): u32 { if i < 0 then i + U32 else i }

  function FromWord(w: u32): i32 { if w < 0x8000_0000 then w else w - U32 }

  /** A signed value travels as its remainder by 2^32, and is recovered from it. */
  lemma WordsExact(i: i32, w: u32)
    ensures ToWord(i) == i % 0x1_0000_0000 && FromWord(ToWord(i)) == i && ToWord(FromWord(w)) == w
  {
  }

  function OfBool(b: bool): u32 { if b then 1 else 0 }

  // ---- buffer handles ----

  datatype BufferHandle = BufferHandle(fd: i32, width: i32, stride: i32, height: i32, size: i32, format: i32,
                                       usage: u64, phyAddr: u64, reserveFds: u32, reserveInts: u32, reserve: seq<i32>)

  predicate Shaped(h: BufferHandle) { |h.reserve| == h.reserveFds + h.reserveInts }

  /** WriteFileDescriptor succeeds for open descriptors only. */
  predicate FilesOpen(h: BufferHandle)
    requires Shaped(h)
  {
    forall i :: 0 <= i < h.reserveFds ==> h.reserve[i] >= 0
  }

  function FileItems(fds: seq<i32>): seq<Item> { if fds == [] then [] else [File(fds[0])] + FileItems(fds[1..]) }

  function IntItems(ints: seq<i32>): seq<Item> { if ints == [] then [] else [Word(ToWord(ints[0]))] + IntItems(ints[1..]) }

  function HeadItems(h: BufferHandle): seq<Item> {
    [Word(h.reserveFds), Word(h.reserveInts), Word(ToWord(h.width)), Word(ToWord(h.stride)), Word(ToWord(h.height)),
     Word(ToWord(h.size)), Word(ToWord(h.format)), Long(h.usage), Long(h.phyAddr), Word(OfBool(h.fd >= 0))]
  }

  function FdItems(fd: i32): seq<Item> { if fd >= 0 then [File(fd)] else [] }

  function ReserveItems(h: BufferHandle): seq<Item>
    requires Shaped(h)
  {
    FileItems(h.reserve[..h.reserveFds]) + IntItems(h.reserve[h.reserveFds..])
  }

  /** WriteBufferHandle. */
  function HandleItems(h: BufferHandle): seq<Item>
    requires Shaped(h)
  {
    HeadItems(h) + FdItems(h.fd) + ReserveItems(h)
  }

  function ParseFiles(items: seq<Item>, n: nat): Got<seq<i32>>
    decreases n
  {
    if n == 0 then Got([], items)
    else if items == [] || !items[0].File? || items[0].f == -1 then Bad
    else
      match ParseFiles(items[1..], n - 1)
      case Bad => Bad
      case Got(fds, rest) => Got([items[0].f] + fds, rest)
  }

  function ParseInts(items: seq<Item>, n: nat): Got<seq<i32>>
    decreases n
  {
    if n == 0 then Got([], items)
    else if items == [] || !items[0].Word? then Bad
    else
      match ParseInts(items[1..], n - 1)
      case Bad => Bad
      case Got(ints, rest) => Got([FromWord(items[0].w)] + ints, rest)
  }

  predicate HeadShape(items: seq<Item>) {
    |items| >= 10 && (forall i :: 0 <= i < 7 ==> items[i].Word?) && items[7].Long? && items[8].Long? && items[9].Word?
  }

  /** The descriptor of the memory: it must be there when announced, and its file must be at
      least as long as the handle claims (`lengths` is what lseek answers). */
  function ParseFd(items: seq<Item>, announced: bool, size: i32, lengths: i32 -> int): Got<i32> {
    if !announced then Got(-1, items)
    else if items == [] || !items[0].File? || items[0].f == -1 then Bad
    else if lengths(items[0].f) < 0 || lengths(items[0].f) < size then Bad
    else Got(items[0].f, items[1..])
  }

  /** The fields read before the descriptors; AllocateBufferHandle sets the rest to -1 and nothing. */
  function HeadOf(items: seq<Item>): BufferHandle
    requires HeadShape(items)
  {
    BufferHandle(-1, FromWord(items[2].w), FromWord(items[3].w), FromWord(items[4].w), FromWord(items[5].w),
                 FromWord(items[6].w), items[7].l, items[8].l, items[0].w, items[1].w, [])
  }

  function ParseReserve(items: seq<Item>, h: BufferHandle): Got<BufferHandle> {
    match ParseFiles(items, h.reserveFds)
    case Bad => Bad
    case Got(fds, rest) =>
      match ParseInts(rest, h.reserveInts)
      case Bad => Bad
      case Got(ints, rest1) => Got(h.(reserve := fds + ints), rest1)
  }

  /** ReadBufferHandle. */
  function ParseHandle(items: seq<Item>, lengths: i32 -> int): Got<BufferHandle> {
    if !HeadShape(items) || items[0].w > RESERVE_MAX || items[1].w > RESERVE_MAX then Bad
    else
      match ParseFd(items[10..], items[9].w != 0, HeadOf(items).size, lengths)
      case Bad => Bad
      case Got(fd, rest) => ParseReserve(rest, HeadOf(items).(fd := fd))
  }

  lemma Associate(a: seq<Item>, b: seq<Item>, c: seq<Item>)
    ensures (a + b) + c == a + (b + c)
  {
  }

  lemma Front(x: Item, more: seq<Item>)
    ensures ([x] + more)[0] == x && ([x] + more)[1..] == more
  {
  }

  lemma {:induction false} FilesBack(fds: seq<i32>, rest: seq<Item>)
    requires forall i :: 0 <= i < |fds| ==> fds[i] >= 0
    ensures ParseFiles(FileItems(fds) + rest, |fds|) == Got(fds, rest)
  {
    if fds == [] {
      assert FileItems(fds) + rest == rest;
    } else {
      FilesBack(fds[1..], rest);
      Associate([File(fds[0])], FileItems(fds[1..]), rest);
      Front(File(fds[0]), FileItems(fds[1..]) + rest);
      assert fds == [fds[0]] + fds[1..];
    }
  }

  lemma {:induction false} IntsBack(ints: seq<i32>, rest: seq<Item>)
    ensures ParseInts(IntItems(ints) + rest, |ints|) == Got(ints, rest)
  {
    if ints == [] {
      assert IntItems(ints) + rest == rest;
    } else {
      IntsBack(ints[1..], rest);
      Associate([Word(ToWord(ints[0]))], IntItems(ints[1..]), rest);
      Front(Word(ToWord(ints[0])), IntItems(ints[1..]) + rest);
      assert ints == [ints[0]] + ints[1..];
    }
  }

  /** What the reader accepts: at most 1024 reserved descriptors and values, and a file as long as claimed. */
  predicate HandleFits(h: BufferHandle, lengths: i32 -> int) {
    && h.reserveFds <= RESERVE_MAX && h.reserveInts <= RESERVE_MAX
    && (h.fd >= 0 ==> 0 <= lengths(h.fd) && h.size <= lengths(h.fd))
  }

  /** Every negative descriptor reads back as -1. */
  function NormalHandle(h: BufferHandle): BufferHandle { h.(fd := if h.fd >= 0 then h.fd else -1) }

  lemma HeadBack(h: BufferHandle, more: seq<Item>)
    ensures var items := HeadItems(h) + more;
            && HeadShape(items) && items[10..] == more && items[0].w == h.reserveFds && items[1].w == h.reserveInts
            && HeadOf(items) == h.(fd := -1, reserve := []) && (items[9].w != 0 <==> h.fd >= 0)
  {
  }

  lemma ReserveBack(h: BufferHandle, rest: seq<Item>)
    requires Shaped(h) && FilesOpen(h)
    ensures ParseReserve(ReserveItems(h) + rest, h.(reserve := [])) == Got(h, rest)
  {
    var fds, ints := h.reserve[..h.reserveFds], h.reserve[h.reserveFds..];
    FilesBack(fds, IntItems(ints) + rest);
    IntsBack(ints, rest);
    Associate(FileItems(fds), IntItems(ints), rest);
    Halves(h.reserve, h.reserveFds);
  }

  lemma Halves(l: seq<i32>, n: nat)
    requires n <= |l|
    ensures l[..n] + l[n..] == l
  {
  }

  lemma FdBack(h: BufferHandle, more: seq<Item>, lengths: i32 -> int)
    ensures ParseFd(FdItems(h.fd) + more, h.fd >= 0, h.size, lengths) ==
            if h.fd >= 0 && (lengths(h.fd) < 0 || lengths(h.fd) < h.size) then Bad else Got(NormalHandle(h).fd, more)
  {
    assert (FdItems(h.fd) + more)[|FdItems(h.fd)|..] == more;
  }

  /** A written handle reads back as itself and leaves what follows untouched, exactly when it
      fits; otherwise the reader refuses it. */
  lemma HandleBack(h: BufferHandle, rest: seq<Item>, lengths: i32 -> int)
    requires Shaped(h) && FilesOpen(h)
    ensures ParseHandle(HandleItems(h) + rest, lengths) == if HandleFits(h, lengths) then Got(NormalHandle(h), rest) else Bad
  {
    var tail := ReserveItems(h) + rest;
    Associate(HeadItems(h) + FdItems(h.fd), ReserveItems(h), rest);
    Associate(HeadItems(h), FdItems(h.fd), tail);
    HeadBack(h, FdItems(h.fd) + tail);
    FdBack(h, tail, lengths);
    if HandleFits(h, lengths) { ReserveBack(NormalHandle(h), rest); }
  }

  lemma {:induction false} FileItemsAt(fds: seq<i32>)
    ensures |FileItems(fds)| == |fds| && forall i :: 0 <= i < |fds| ==> FileItems(fds)[i] == File(fds[i])
  {
    if fds != [] { FileItemsAt(fds[1..]); }
  }

  lemma {:induction false} IntItemsAt(ints: seq<i32>)
    ensures |IntItems(ints)| == |ints| && forall i :: 0 <= i < |ints| ==> IntItems(ints)[i] == Word(ToWord(ints[i]))
  {
    if ints != [] { IntItemsAt(ints[1..]); }
  }

  /** The places of the fields in a written handle, on which a reader elsewhere relies: the two counts,
      five sizes, two long words and the mark of the descriptor; then the descriptor, then the reserve. */
  lemma HeadLayout(h: BufferHandle)
    ensures var items := HeadItems(h);
            && |items| == 10 && items[0] == Word(h.reserveFds) && items[1] == Word(h.reserveInts)
            && items[2] == Word(ToWord(h.width)) && items[3] == Word(ToWord(h.stride)) && items[4] == Word(ToWord(h.height))
            && items[5] == Word(ToWord(h.size)) && items[6] == Word(ToWord(h.format))
            && items[7] == Long(h.usage) && items[8] == Long(h.phyAddr) && items[9] == Word(if h.fd >= 0 then 1 else 0)
  {
  }

  lemma HandleLayout(h: BufferHandle)
    requires Shaped(h)
    ensures var items, at := HandleItems(h), if h.fd >= 0 then 11 else 10;
            && |items| == at + |h.reserve| && items[..10] == HeadItems(h) && (h.fd >= 0 ==> items[10] == File(h.fd))
            && items[at..] == ReserveItems(h)
  {
    ReserveLayout(h);
    var front, back := HeadItems(h) + FdItems(h.fd), ReserveItems(h);
    assert (front + back)[|front|..] == back && (front + back)[..10] == HeadItems(h);
  }

  lemma ReserveLayout(h: BufferHandle)
    requires Shaped(h)
    ensures |ReserveItems(h)| == |h.reserve|
    ensures forall i :: 0 <= i < |h.reserve| ==>
              ReserveItems(h)[i] == if i < h.reserveFds then File(h.reserve[i]) else Word(ToWord(h.reserve[i]))
  {
    var n := h.reserveFds;
    FileItemsAt(h.reserve[..n]);
    IntItemsAt(h.reserve[n..]);
    forall i | 0 <= i < |h.reserve|
      ensures ReserveItems(h)[i] == if i < n then File(h.reserve[i]) else Word(ToWord(h.reserve[i]))
    {
      ReserveAt(h, i);
    }
  }

  lemma ReserveAt(h: BufferHandle, i: nat)
    requires Shaped(h) && i < |h.reserve|
    requires var files := FileItems(h.reserve[..h.reserveFds]); |files| == h.reserveFds && (i < |files| ==> files[i] == File(h.reserve[i]))
    requires var ints := IntItems(h.reserve[h.reserveFds..]);
             |ints| == h.reserveInts && (i >= h.reserveFds ==> ints[i - h.reserveFds] == Word(ToWord(h.reserve[i])))
    ensures |ReserveItems(h)| == |h.reserve|
    ensures ReserveItems(h)[i] == if i < h.reserveFds then File(h.reserve[i]) else Word(ToWord(h.reserve[i]))
  {
  }

  // ---- extra data ----

  datatype Extra = Int32(i: i32) | Int64(j: u64) | Float64(d: u64) | Str(s: string)

  type ExtraMap = map<string, Extra>

  function TypeCode(e: Extra): u32 {
    match e case Int32(_) => 0 case Int64(_) => 1 case Float64(_) => 2 case Str(_) => 3
  }

  function ValueItem(e: Extra): Item {
    match e case Int32(i) => Word(ToWord(i)) case Int64(j) => Long(j) case Float64(d) => Long(d) case Str(s) => Text(s)
  }

  /** `order` lists the keys of the map, as its iteration does. */
  ghost predicate Orders(order: seq<string>, m: ExtraMap) {
    && (forall k :: k in order <==> k in m)
    && (forall i, j :: 0 <= i < j < |order| ==> order[i] != order[j])
  }

  function EntryItems(m: ExtraMap, order: seq<string>): seq<Item>
    requires forall k :: k in order ==> k in m
  {
    if order == [] then []
    else [Text(order[0]), Word(TypeCode(m[order[0]])), ValueItem(m[order[0]])] + EntryItems(m, order[1..])
  }

  /** BufferExtraDataImpl::WriteToParcel. */
  function ExtraItems(m: ExtraMap, order: seq<string>): seq<Item>
    requires |order| < U32 && forall k :: k in order ==> k in m
  {
    [Word(EXTRA_DATA_MAGIC), Word(|order|)] + EntryItems(m, order)
  }

  /** ExtraSet. It refuses a new key only when there are more than 1000 already. */
  function ExtraSet(m: ExtraMap, key: string, value: Extra): Option<ExtraMap> {
    if key !in m && |m| > USER_DATA_MAX then None else Some(m[key := value])
  }

  /** A key that is there can always be set again; a new one can up to the 1001st and not from the
      1002nd on. */
  lemma ExtraSetExact(m: ExtraMap, key: string, value: Extra)
    ensures ExtraSet(m, key, value).None? <==> key !in m && |m| >= 1001
    ensures ExtraSet(m, key, value).Some? ==>
              var n := ExtraSet(m, key, value).value;
              key in n && n[key] == value && (forall k :: k != key ==> (k in n <==> k in m)) && (forall k :: k != key && k in n ==> n[k] == m[k])
  {
  }

  /** ReadExtraDataItem up to ExtraSet; an unknown type code reads nothing and sets nothing. */
  function ParseValue(items: seq<Item>, code: u32): Got<Option<Extra>> {
    if code > 3 then Got(None, items)
    else if items == [] then Bad
    else
      match items[0]
      case Word(w) => if code == 0 then Got(Some(Int32(FromWord(w))), items[1..]) else Bad
      case Long(l) => if code == 1 then Got(Some(Int64(l)), items[1..])
                      else if code == 2 then Got(Some(Float64(l)), items[1..]) else Bad
      case Text(s) => if code == 3 then Got(Some(Str(s)), items[1..]) else Bad
      case _ => Bad
  }

  function ParseEntries(items: seq<Item>, n: nat, m: ExtraMap): Got<ExtraMap>
    decreases n
  {
    if n == 0 then Got(m, items)
    else if |items| < 2 || !items[0].Text? || !items[1].Word? then Bad
    else
      match ParseValue(items[2..], items[1].w)
      case Bad => Bad
      case Got(None, rest) => ParseEntries(rest, n - 1, m)
      case Got(Some(v), rest) =>
        match ExtraSet(m, items[0].s, v)
        case None => Bad
        case Some(m1) => ParseEntries(rest, n - 1, m1)
  }

  /** BufferExtraDataImpl::ReadFromParcel into a map that may already hold entries. */
  function ParseExtra(items: seq<Item>, m: ExtraMap): Got<ExtraMap> {
    if |items| < 2 || items[0] != Word(EXTRA_DATA_MAGIC) || !items[1].Word? || FromWord(items[1].w) > USER_DATA_MAX then Bad
    else ParseEntries(items[2..], if FromWord(items[1].w) < 0 then 0 else FromWord(items[1].w), m)
  }

  /** An entry of a type the reader does not know is passed over, with its key, and the reader goes on
      behind the type code. */
  lemma UnknownTypePassed(key: string, code: u32, rest: seq<Item>, n: nat, m: ExtraMap)
    requires code > 3
    ensures ParseEntries([Text(key), Word(code)] + rest, n + 1, m) == ParseEntries(rest, n, m)
  {
    assert ([Text(key), Word(code)] + rest)[2..] == rest;
  }

  /** A count that reads as negative is no entry at all; more than 1000 are refused before any is read. */
  lemma ExtraCount(count: u32, rest: seq<Item>, m: ExtraMap)
    ensures var r := ParseExtra([Word(0x4567), Word(count)] + rest, m);
            && (count >= 0x8000_0000 ==> r == Got(m, rest))
            && (1000 < count < 0x8000_0000 ==> r == Bad)
            && (count <= 1000 ==> r == ParseEntries(rest, count, m))
  {
    assert ([Word(0x4567), Word(count)] + rest)[2..] == rest;
  }

  /** Nothing without the mark is taken for extra data. */
  lemma ExtraNeedsMark(items: seq<Item>, m: ExtraMap)
    requires ParseExtra(items, m).Got?
    ensures |items| >= 2 && items[0] == Word(0x4567) && items[1].Word?
  {
  }

  lemma ValueBack(e: Extra, rest: seq<Item>)
    ensures ParseValue([ValueItem(e)] + rest, TypeCode(e)) == Got(Some(e), rest)
  {
    assert ([ValueItem(e)] + rest)[1..] == rest;
  }

  /** The places in written extra data: the mark, the count, then three items for each key. */
  lemma {:induction false} EntryLayout(m: ExtraMap, order: seq<string>)
    requires forall k :: k in order ==> k in m
    ensures |EntryItems(m, order)| == 3 * |order|
    ensures forall i :: 0 <= i < |order| ==>
              var items, e := EntryItems(m, order), m[order[i]];
              && items[3 * i] == Text(order[i])
              && items[3 * i + 1] == Word(match e case Int32(_) => 0 case Int64(_) => 1 case Float64(_) => 2 case Str(_) => 3)
              && items[3 * i + 2] == match e
                                     case Int32(n) => Word(ToWord(n))
                                     case Int64(l) => Long(l)
                                     case Float64(l) => Long(l)
                                     case Str(s) => Text(s)
    decreases |order|
  {
    if order != [] {
      EntryLayout(m, order[1..]);
      var first, more := [Text(order[0]), Word(TypeCode(m[order[0]])), ValueItem(m[order[0]])], EntryItems(m, order[1..]);
      assert EntryItems(m, order) == first + more;
      forall i | 0 < i < |order|
        ensures EntryItems(m, order)[3 * i] == more[3 * (i - 1)] && EntryItems(m, order)[3 * i + 1] == more[3 * (i - 1) + 1]
        ensures EntryItems(m, order)[3 * i + 2] == more[3 * (i - 1) + 2] && order[1..][i - 1] == order[i]
      {
        ThreeFurther(first, more, i);
      }
    }
  }

  lemma ThreeFurther(first: seq<Item>, more: seq<Item>, i: nat)
    requires |first| == 3 && 0 < i && 3 * i <= |more|
    ensures (first + more)[3 * i] == more[3 * (i - 1)] && (first + more)[3 * i + 1] == more[3 * (i - 1) + 1]
    ensures (first + more)[3 * i + 2] == more[3 * (i - 1) + 2]
  {
  }

  /** `have` with the entries of `m` that `order` lists. */
  function Merged(have: ExtraMap, m: ExtraMap, order: seq<string>): ExtraMap
    requires forall k :: k in order ==> k in m
    decreases |order|
  {
    if order == [] then have else Merged(have[order[0] := m[order[0]]], m, order[1..])
  }

  lemma EntryFront(key: string, e: Extra, more: seq<Item>)
    ensures var items := [Text(key), Word(TypeCode(e)), ValueItem(e)] + more;
            items[0] == Text(key) && items[1] == Word(TypeCode(e)) && ParseValue(items[2..], items[1].w) == Got(Some(e), more)
  {
    var items := [Text(key), Word(TypeCode(e)), ValueItem(e)] + more;
    assert items[2..] == [ValueItem(e)] + more;
    ValueBack(e, more);
  }

  lemma {:induction false} EntriesBack(have: ExtraMap, m: ExtraMap, order: seq<string>, rest: seq<Item>)
    requires (forall k :: k in order ==> k in m) && |have| + |order| <= USER_DATA_MAX + 1
    ensures ParseEntries(EntryItems(m, order) + rest, |order|, have) == Got(Merged(have, m, order), rest)
    decreases |order|
  {
    if order == [] {
      assert EntryItems(m, order) + rest == rest;
    } else {
      var k := order[0];
      var first := [Text(k), Word(TypeCode(m[k])), ValueItem(m[k])];
      EntriesBack(have[k := m[k]], m, order[1..], rest);
      Associate(first, EntryItems(m, order[1..]), rest);
      EntryFront(k, m[k], EntryItems(m, order[1..]) + rest);
    }
  }

  lemma {:induction false} MergedAll(have: ExtraMap, m: ExtraMap, order: seq<string>)
    requires forall k :: k in order ==> k in m
    ensures forall k :: k in Merged(have, m, order) <==> k in have || k in order
    ensures forall k :: k in Merged(have, m, order) ==> Merged(have, m, order)[k] == if k in order then m[k] else have[k]
    decreases |order|
  {
    if order != [] {
      MergedAll(have[order[0] := m[order[0]]], m, order[1..]);
      assert order == [order[0]] + order[1..];
    }
  }

  lemma {:induction false} DistinctSize(order: seq<string>)
    requires forall i, j :: 0 <= i < j < |order| ==> order[i] != order[j]
    ensures |set k | k in order| == |order|
    decreases |order|
  {
    if order != [] {
      var init, last := order[..|order| - 1], order[|order| - 1];
      DistinctSize(init);
      assert order == init + [last];
      assert (set k | k in order) == (set k | k in init) + {last};
    }
  }

  lemma OrderSize(order: seq<string>, m: ExtraMap)
    requires Orders(order, m)
    ensures |order| == |m|
  {
    DistinctSize(order);
    assert (set k | k in order) == m.Keys;
  }

  /** Extra data reads back as it was written exactly when it has at most 1000 entries; the setter
      admits one entry more, and that map no reader accepts. */
  lemma ExtraBack(m: ExtraMap, order: seq<string>, rest: seq<Item>)
    requires Orders(order, m) && |m| < 0x8000_0000
    ensures |order| == |m|
    ensures ParseExtra(ExtraItems(m, order) + rest, map[]) == if |m| <= USER_DATA_MAX then Got(m, rest) else Bad
  {
    OrderSize(order, m);
    var items := ExtraItems(m, order) + rest;
    assert items[0] == Word(EXTRA_DATA_MAGIC) && items[1] == Word(|order|) && items[2..] == EntryItems(m, order) + rest;
    if |m| <= USER_DATA_MAX {
      EntriesBack(map[], m, order, rest);
      MergedAll(map[], m, order);
      assert Merged(map[], m, order) == m;
    }
  }

  /** The 1001st entry can be set, but what is then written cannot be read. */
  lemma SetterAdmitsOneMore(m: ExtraMap, key: string, value: Extra, order: seq<string>, rest: seq<Item>)
    requires |m| == USER_DATA_MAX && key !in m && Orders(order, m[key := value])
    ensures ExtraSet(m, key, value) == Some(m[key := value]) && |order| == USER_DATA_MAX + 1
    ensures ParseExtra(ExtraItems(m[key := value], order) + rest, map[]) == Bad
  {
    var n := m[key := value];
    assert n.Keys == m.Keys + {key};
    assert |n.Keys| == |m.Keys| + 1;
    ExtraBack(n, order, rest);
  }

  // ---- fences ----

  /** SyncFence::WriteToMessageParcel for a descriptor that is open or negative. */
  function FenceItems(fence: i32): seq<Item> { if fence >= 0 then [Word(ToWord(fence)), File(fence)] else [Word(ToWord(fence))] }

  /** SyncFence::ReadFromMessageParcel never fails: what cannot be read is an invalid fence. */
  function ParseFence(items: seq<Item>): Got<i32> {
    if items == [] || !items[0].Word? then Got(-1, items)
    else if FromWord(items[0].w) < 0 then Got(-1, items[1..])
    else if |items| < 2 || !items[1].File? then Got(-1, items[1..])
    else Got(items[1].f, items[2..])
  }

  function NormalFence(fence: i32): i32 { if fence >= 0 then fence else -1 }

  lemma FenceBack(fence: i32, rest: seq<Item>)
    ensures ParseFence(FenceItems(fence) + rest) == Got(NormalFence(fence), rest)
  {
    var items := FenceItems(fence) + rest;
    assert items[1..] == (if fence >= 0 then [File(fence)] else []) + rest;
    assert fence >= 0 ==> items[2..] == rest;
  }

  /** Reading a fence never fails, whatever stands in the parcel: it yields the file behind a valid
      descriptor and -1 in every other case, and takes no more than two items. */
  lemma FenceTotal(items: seq<Item>)
    ensures var g := ParseFence(items);
            g.Got? && (if |items| >= 2 && items[0].Word? && items[0].w < 0x8000_0000 && items[1].File? then g == Got(items[1].f, items[2..])
                       else g.value == -1 && g.rest == if items != [] && items[0].Word? then items[1..] else items)
  {
  }

  // ---- one record ----

  /** What travels of a buffer: its handle, its original fields, and the usage it was requested with. */
  datatype Image = Image(handle: BufferHandle, hasOriginal: bool, originalWidth: i32, originalHeight: i32,
                         originalSize: i32, originalStride: i32, usage: u64)

  datatype Record = Record(sequence: u32, buffer: Option<Image>, extra: ExtraMap, fence: i32, deleting: seq<u32>)

  predicate Writable(r: Record) { r.buffer.Some? ==> Shaped(r.buffer.value.handle) && FilesOpen(r.buffer.value.handle) }

  function OriginalItems(b: Image): seq<Item> {
    [Word(OfBool(b.hasOriginal)), Word(ToWord(b.originalWidth)), Word(ToWord(b.originalHeight)),
     Word(ToWord(b.originalSize)), Word(ToWord(b.originalStride)), Long(b.usage)]
  }

  /** WriteSurfaceBufferImpl, and the usage that follows a buffer. */
  function BufferItems(r: Record): seq<Item>
    requires Writable(r)
  {
    [Word(r.sequence), Word(OfBool(r.buffer.Some?))] +
      match r.buffer
      case None => []
      case Some(b) => HandleItems(b.handle) + OriginalItems(b)
  }

  predicate OriginalShape(items: seq<Item>) { |items| >= 6 && (forall i :: 0 <= i < 5 ==> items[i].Word?) && items[5].Long? }

  /** ReadFromMessageParcel after the handle, and the usage. The C++ code goes on when an original
      field is missing, but the usage cannot be read then either. */
  function ParseOriginal(items: seq<Item>, h: BufferHandle): Got<Option<Image>> {
    if !OriginalShape(items) then Bad
    else Got(Some(Image(h, items[0].w != 0, FromWord(items[1].w), FromWord(items[2].w), FromWord(items[3].w),
                        FromWord(items[4].w), items[5].l)), items[6..])
  }

  function ParseBuffer(items: seq<Item>, lengths: i32 -> int): Got<Option<Image>> {
    if items == [] || !items[0].Word? then Bad
    else if items[0].w == 0 then Got(None, items[1..])
    else
      match ParseHandle(items[1..], lengths)
      case Bad => Bad
      case Got(h, rest) => ParseOriginal(rest, h)
  }

  function TailItems(r: Record, order: seq<string>): seq<Item>
    requires |order| < U32 && forall k :: k in order ==> k in r.extra
  {
    ExtraItems(r.extra, order) + FenceItems(r.fence) + [Words(r.deleting)]
  }

  /** One turn of the writing loop. */
  function RecordItems(r: Record, order: seq<string>): seq<Item>
    requires Writable(r) && |order| < U32 && forall k :: k in order ==> k in r.extra
  {
    BufferItems(r) + TailItems(r, order)
  }

  function ParseTail(items: seq<Item>, sequence: u32, buffer: Option<Image>): Got<Record> {
    match ParseExtra(items, map[])
    case Bad => Bad
    case Got(extra, rest) =>
      match ParseFence(rest)
      case Got(fence, rest1) =>
        if rest1 == [] || !rest1[0].Words? then Bad
        else Got(Record(sequence, buffer, extra, fence, rest1[0].ws), rest1[1..])
  }

  /** One turn of ReadRequestBuffersReply. */
  function ParseRecord(items: seq<Item>, lengths: i32 -> int): Got<Record> {
    if items == [] || !items[0].Word? then Bad
    else
      match ParseBuffer(items[1..], lengths)
      case Bad => Bad
      case Got(buffer, rest) => ParseTail(rest, items[0].w, buffer)
  }

  predicate Acceptable(r: Record, lengths: i32 -> int) {
    (r.buffer.Some? ==> HandleFits(r.buffer.value.handle, lengths)) && |r.extra| <= USER_DATA_MAX
  }

  function Normal(r: Record): Record {
    r.(fence := NormalFence(r.fence),
       buffer := if r.buffer.None? then None else Some(r.buffer.value.(handle := NormalHandle(r.buffer.value.handle))))
  }

  lemma OriginalBack(b: Image, rest: seq<Item>)
    ensures ParseOriginal(OriginalItems(b) + rest, NormalHandle(b.handle)) == Got(Some(b.(handle := NormalHandle(b.handle))), rest)
  {
    assert (OriginalItems(b) + rest)[6..] == rest;
  }

  lemma BufferBack(r: Record, rest: seq<Item>, lengths: i32 -> int)
    requires Writable(r)
    ensures ParseBuffer((BufferItems(r) + rest)[1..], lengths) ==
            if r.buffer.Some? && !HandleFits(r.buffer.value.handle, lengths) then Bad else Got(Normal(r).buffer, rest)
  {
    var items := (BufferItems(r) + rest)[1..];
    if r.buffer.None? {
      assert items[1..] == rest;
    } else {
      var b := r.buffer.value;
      assert items[1..] == HandleItems(b.handle) + (OriginalItems(b) + rest);
      HandleBack(b.handle, OriginalItems(b) + rest, lengths);
      OriginalBack(b, rest);
    }
  }

  lemma TailBack(r: Record, order: seq<string>, rest: seq<Item>, sequence: u32, buffer: Option<Image>)
    requires Orders(order, r.extra) && |r.extra| < 0x8000_0000
    ensures |order| == |r.extra|
    ensures ParseTail(TailItems(r, order) + rest, sequence, buffer) ==
            if |r.extra| <= USER_DATA_MAX then Got(Record(sequence, buffer, r.extra, NormalFence(r.fence), r.deleting), rest) else Bad
  {
    OrderSize(order, r.extra);
    var more := FenceItems(r.fence) + ([Words(r.deleting)] + rest);
    assert TailItems(r, order) + rest == ExtraItems(r.extra, order) + more;
    ExtraBack(r.extra, order, more);
    FenceBack(r.fence, [Words(r.deleting)] + rest);
    assert ([Words(r.deleting)] + rest)[1..] == rest;
  }

  /** A record reads back as written, up to the normal form of invalid descriptors, and leaves the
      rest of the parcel untouched, exactly when the reader's limits are met. */
  lemma RecordBack(r: Record, order: seq<string>, rest: seq<Item>, lengths: i32 -> int)
    requires Writable(r) && Orders(order, r.extra) && |r.extra| < 0x8000_0000
    ensures |order| == |r.extra|
    ensures ParseRecord(RecordItems(r, order) + rest, lengths) == if Acceptable(r, lengths) then Got(Normal(r), rest) else Bad
  {
    OrderSize(order, r.extra);
    var more := TailItems(r, order) + rest;
    assert RecordItems(r, order) + rest == BufferItems(r) + more;
    BufferBack(r, more, lengths);
    TailBack(r, order, rest, r.sequence, Normal(r).buffer);
  }

  /** A record is its buffer, then the rest. */
  lemma RecordLayout(r: Record, order: seq<string>)
    requires Writable(r) && |order| < U32 && forall k :: k in order ==> k in r.extra
    ensures var items, at := RecordItems(r, order), if r.buffer.None? then 2 else 8 + |HandleItems(r.buffer.value.handle)|;
            && |items| == at + 2 + 3 * |order| + (if r.fence >= 0 then 3 else 2)
            && items[..at] == BufferItems(r) && items[at..] == TailItems(r, order)
  {
    BufferLayout(r);
    TailLayout(r, order);
    var b, t := BufferItems(r), TailItems(r, order);
    assert (b + t)[..|b|] == b && (b + t)[|b|..] == t;
  }

  /** The places in a written buffer: the number, the mark of the buffer, the handle, the five original
      fields and the usage. */
  lemma BufferLayout(r: Record)
    requires Writable(r)
    ensures var items := BufferItems(r);
            && |items| == (if r.buffer.None? then 2 else 8 + |HandleItems(r.buffer.value.handle)|)
            && items[0] == Word(r.sequence) && items[1] == Word(if r.buffer.Some? then 1 else 0)
            && (r.buffer.Some? ==>
                  var n := |HandleItems(r.buffer.value.handle)|;
                  items[2..2 + n] == HandleItems(r.buffer.value.handle) && items[2 + n..] == OriginalItems(r.buffer.value))
  {
    if r.buffer.Some? {
      var h, o := HandleItems(r.buffer.value.handle), OriginalItems(r.buffer.value);
      InMiddle([Word(r.sequence), Word(1)], h, o);
    }
  }

  lemma InMiddle(a: seq<Item>, b: seq<Item>, c: seq<Item>)
    ensures (a + (b + c))[|a|..|a| + |b|] == b && (a + (b + c))[|a| + |b|..] == c
  {
  }

  lemma OriginalLayout(b: Image)
    ensures var items := OriginalItems(b);
            && |items| == 6 && items[0] == Word(if b.hasOriginal then 1 else 0)
            && items[1] == Word(ToWord(b.originalWidth)) && items[2] == Word(ToWord(b.originalHeight))
            && items[3] == Word(ToWord(b.originalSize)) && items[4] == Word(ToWord(b.originalStride)) && items[5] == Long(b.usage)
  {
  }

  /** Behind it: the extra data, the fence, and at the end the deleted ids. */
  lemma TailLayout(r: Record, order: seq<string>)
    requires |order| < U32 && forall k :: k in order ==> k in r.extra
    ensures |EntryItems(r.extra, order)| == 3 * |order|
    ensures var items, back := TailItems(r, order), 2 + 3 * |order|;
            && |items| == back + (if r.fence >= 0 then 3 else 2)
            && items[0] == Word(0x4567) && items[1] == Word(|order|) && items[2..back] == EntryItems(r.extra, order)
            && items[back] == Word(ToWord(r.fence)) && (r.fence >= 0 ==> items[back + 1] == File(r.fence))
            && items[|items| - 1] == Words(r.deleting)
  {
    EntryLayout(r.extra, order);
    var e, f, w := ExtraItems(r.extra, order), FenceItems(r.fence), [Words(r.deleting)];
    var items, back := TailItems(r, order), 2 + 3 * |order|;
    assert items == e + (f + w) && |e| == back;
    assert items[..back] == e && e[2..] == EntryItems(r.extra, order);
    assert forall j :: 0 <= j < |f + w| ==> items[back + j] == (f + w)[j];
  }

  // ---- the whole reply ----

  ghost predicate Ready(rs: seq<Record>, orders: seq<seq<string>>) {
    && |orders| == |rs|
    && forall i :: 0 <= i < |rs| ==> Writable(rs[i]) && Orders(orders[i], rs[i].extra) && |rs[i].extra| < 0x8000_0000
                                     && |orders[i]| < U32
  }

  ghost function RecordsItems(rs: seq<Record>, orders: seq<seq<string>>): seq<Item>
    requires Ready(rs, orders)
    decreases |rs|
  {
    if rs == [] then []
    else
      RecordItems(rs[0], orders[0]) + RecordsItems(rs[1..], orders[1..])
  }

  function ParseRecords(items: seq<Item>, n: nat, lengths: i32 -> int): Got<seq<Record>>
    decreases n
  {
    if n == 0 then Got([], items)
    else
      match ParseRecord(items, lengths)
      case Bad => Bad
      case Got(r, rest) =>
        match ParseRecords(rest, n - 1, lengths)
        case Bad => Bad
        case Got(rs, rest1) => Got([r] + rs, rest1)
  }

  function NormalAll(rs: seq<Record>): seq<Record> { if rs == [] then [] else [Normal(rs[0])] + NormalAll(rs[1..]) }

  predicate AllAcceptable(rs: seq<Record>, lengths: i32 -> int) {
    rs == [] || (Acceptable(rs[0], lengths) && AllAcceptable(rs[1..], lengths))
  }

  lemma {:induction false} RecordsBack(rs: seq<Record>, orders: seq<seq<string>>, rest: seq<Item>, lengths: i32 -> int)
    requires Ready(rs, orders)
    ensures ParseRecords(RecordsItems(rs, orders) + rest, |rs|, lengths) ==
            if AllAcceptable(rs, lengths) then Got(NormalAll(rs), rest) else Bad
    decreases |rs|
  {
    if rs == [] {
      assert RecordsItems(rs, orders) + rest == rest;
    } else {
      var more := RecordsItems(rs[1..], orders[1..]) + rest;
      assert RecordsItems(rs, orders) + rest == RecordItems(rs[0], orders[0]) + more;
      RecordBack(rs[0], orders[0], more, lengths);
      RecordsBack(rs[1..], orders[1..], rest, lengths);
    }
  }

  /** RequestBuffersRemote after a successful batch: the result code, the count, the records. */
  ghost function ReplyItems(rs: seq<Record>, orders: seq<seq<string>>): seq<Item>
    requires Ready(rs, orders) && |rs| < U32
  {
    [Word(0), Word(|rs|)] + RecordsItems(rs, orders)
  }

  /** BufferClientProducer::RequestBuffers on the reply of a successful batch; `asked` is the number
      of extra-data objects the caller brought. */
  function ParseReply(items: seq<Item>, asked: nat, lengths: i32 -> int): Got<seq<Record>> {
    if |items| < 2 || items[0] != Word(0) || !items[1].Word? || items[1].w == 0 || items[1].w > MAX_RECORDS || items[1].w > asked then Bad
    else ParseRecords(items[2..], items[1].w, lengths)
  }

  /** The reply of a batch that succeeded starts with the result code 0 and the count. */
  lemma ReplyLayout(rs: seq<Record>, orders: seq<seq<string>>)
    requires Ready(rs, orders) && 0 < |rs| < U32
    ensures var items := ReplyItems(rs, orders);
            |items| >= 4 && items[0] == Word(0) && items[1] == Word(|rs|) && items[2] == Word(rs[0].sequence)
  {
    BufferLayout(rs[0]);
    assert RecordItems(rs[0], orders[0])[0] == Word(rs[0].sequence);
  }

  /** What the client refuses at once: a result code other than 0, no records, more than 64, or more
      than it asked for. */
  lemma ReplyRefused(items: seq<Item>, asked: nat, lengths: i32 -> int)
    requires |items| >= 2 && items[1].Word?
    requires items[0] != Word(0) || items[1].w == 0 || items[1].w > 64 || items[1].w > asked
    ensures ParseReply(items, asked, lengths) == Bad
  {
  }

  lemma CountedBack(n: u32, body: seq<Item>, rest: seq<Item>, asked: nat, lengths: i32 -> int)
    ensures ParseReply([Word(0), Word(n)] + body + rest, asked, lengths) ==
            if 0 < n <= MAX_RECORDS && n <= asked then ParseRecords(body + rest, n, lengths) else Bad
  {
    assert ([Word(0), Word(n)] + body + rest)[2..] == body + rest;
  }

  /** The reply of a batch reads back as it was written and nothing behind it is touched, exactly
      when it has 1 to 64 records, no more than were asked for, and each meets the reader's limits. */
  lemma ReplyBack(rs: seq<Record>, orders: seq<seq<string>>, asked: nat, rest: seq<Item>, lengths: i32 -> int)
    requires Ready(rs, orders) && |rs| < U32
    ensures ParseReply(ReplyItems(rs, orders) + rest, asked, lengths) ==
            if 0 < |rs| <= MAX_RECORDS && |rs| <= asked && AllAcceptable(rs, lengths) then Got(NormalAll(rs), rest) else Bad
  {
    var body := RecordsItems(rs, orders);
    RecordsBack(rs, orders, rest, lengths);
    CountedBack(|rs|, body, rest, asked, lengths);
  }
}
