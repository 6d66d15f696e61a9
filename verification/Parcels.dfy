/** The parcel as the object it is, and the loops that write and read a batch reply, item by item.
    They compute the functions of Codec, for which the round trip is proved. */
module Parcels {
  import opened Lists
  import opened Codec

  class Parcel {
    var items: seq<Item>
    var pos: nat

    ghost predicate Valid()
      reads this
    {
      pos <= |items|
    }

    /** What is still to be read. */
    function Rest(): seq<Item>
      requires Valid()
      reads this
    {
      items[pos..]
    }

    constructor ()
      ensures Valid() && items == [] && pos == 0
    {
      items, pos := [], 0;
    }

    method Write(item: Item)
      modifies this`items
      ensures items == old(items) + [item]
    {
      items := items + [item];
    }

    method ReadWord() returns (ok: bool, w: u32)
      requires Valid()
      modifies this`pos
      ensures Valid() && (ok <==> old(pos) < |items| && items[old(pos)].Word?)
      ensures if ok then w == items[old(pos)].w && pos == old(pos) + 1 else pos == old(pos)
    {
      if pos < |items| && items[pos].Word? {
        ok, w, pos := true, items[pos].w, pos + 1;
      } else {
        ok, w := false, 0;
      }
    }

    method ReadLong() returns (ok: bool, l: u64)
      requires Valid()
      modifies this`pos
      ensures Valid() && (ok <==> old(pos) < |items| && items[old(pos)].Long?)
      ensures if ok then l == items[old(pos)].l && pos == old(pos) + 1 else pos == old(pos)
    {
      if pos < |items| && items[pos].Long? {
        ok, l, pos := true, items[pos].l, pos + 1;
      } else {
        ok, l := false, 0;
      }
    }

    method ReadText() returns (ok: bool, s: string)
      requires Valid()
      modifies this`pos
      ensures Valid() && (ok <==> old(pos) < |items| && items[old(pos)].Text?)
      ensures if ok then s == items[old(pos)].s && pos == old(pos) + 1 else pos == old(pos)
    {
      if pos < |items| && items[pos].Text? {
        ok, s, pos := true, items[pos].s, pos + 1;
      } else {
        ok, s := false, "";
      }
    }

    /** ReadFileDescriptor: -1 when there is none. */
    method ReadFile() returns (fd: i32)
      requires Valid()
      modifies this`pos
      ensures Valid()
      ensures if old(pos) < |items| && items[old(pos)].File? then fd == items[old(pos)].f && pos == old(pos) + 1
              else fd == -1 && pos == old(pos)
    {
      if pos < |items| && items[pos].File? {
        fd, pos := items[pos].f, pos + 1;
      } else {
        fd := -1;
      }
    }

    method ReadWords() returns (ok: bool, ws: seq<u32>)
      requires Valid()
      modifies this`pos
      ensures Valid() && (ok <==> old(pos) < |items| && items[old(pos)].Words?)
      ensures if ok then ws == items[old(pos)].ws && pos == old(pos) + 1 else pos == old(pos)
    {
      if pos < |items| && items[pos].Words? {
        ok, ws, pos := true, items[pos].ws, pos + 1;
      } else {
        ok, ws := false, [];
      }
    }
  }

  function Prepend<T>(a: seq<T>, g: Got<seq<T>>): Got<seq<T>> { if g.Bad? then Bad else Got(a + g.value, g.rest) }

  // ---- buffer handles ----

  lemma FilesMore(fds: seq<i32>, i: nat)
    requires i < |fds|
    ensures FileItems(fds[..i + 1]) == FileItems(fds[..i]) + [File(fds[i])]
  {
    if i > 0 {
      FilesMore(fds[1..], i - 1);
      assert fds[1..][..i] == fds[..i + 1][1..] && fds[1..][..i - 1] == fds[..i][1..];
    } else {
      assert fds[..1] == [fds[0]] && fds[..1][1..] == [];
    }
  }

  lemma IntsMore(ints: seq<i32>, i: nat)
    requires i < |ints|
    ensures IntItems(ints[..i + 1]) == IntItems(ints[..i]) + [Word(ToWord(ints[i]))]
  {
    if i > 0 {
      IntsMore(ints[1..], i - 1);
      assert ints[1..][..i] == ints[..i + 1][1..] && ints[1..][..i - 1] == ints[..i][1..];
    } else {
      assert ints[..1] == [ints[0]] && ints[..1][1..] == [];
    }
  }

  method WriteHead(parcel: Parcel, h: BufferHandle)
    modifies parcel`items
    ensures parcel.items == old(parcel.items) + HeadItems(h)
  {
    parcel.Write(Word(h.reserveFds));
    parcel.Write(Word(h.reserveInts));
    parcel.Write(Word(ToWord(h.width)));
    parcel.Write(Word(ToWord(h.stride)));
    parcel.Write(Word(ToWord(h.height)));
    parcel.Write(Word(ToWord(h.size)));
    parcel.Write(Word(ToWord(h.format)));
    parcel.Write(Long(h.usage));
    parcel.Write(Long(h.phyAddr));
    parcel.Write(Word(OfBool(h.fd >= 0)));
  }

  method WriteReserve(parcel: Parcel, h: BufferHandle) returns (ok: bool)
    requires Shaped(h)
    modifies parcel`items
    ensures ok <==> FilesOpen(h)
    ensures ok ==> parcel.items == old(parcel.items) + ReserveItems(h)
  {
    var fds, ints := h.reserve[..h.reserveFds], h.reserve[h.reserveFds..];
    var i := 0;
    while i < h.reserveFds
      invariant i <= h.reserveFds && parcel.items == old(parcel.items) + FileItems(fds[..i])
      invariant forall j :: 0 <= j < i ==> h.reserve[j] >= 0
    {
      if h.reserve[i] < 0 { return false; }
      FilesMore(fds, i);
      parcel.Write(File(h.reserve[i]));
      i := i + 1;
    }
    assert fds[..i] == fds;
    ghost var mid := parcel.items;
    var j := 0;
    while j < h.reserveInts
      invariant j <= h.reserveInts && parcel.items == mid + IntItems(ints[..j])
    {
      IntsMore(ints, j);
      parcel.Write(Word(ToWord(h.reserve[h.reserveFds + j])));
      j := j + 1;
    }
    assert ints[..j] == ints;
    Associate(old(parcel.items), FileItems(fds), IntItems(ints));
    ok := true;
  }

  method WriteBufferHandle(parcel: Parcel, h: BufferHandle) returns (ok: bool)
    requires Shaped(h)
    modifies parcel`items
    ensures ok <==> FilesOpen(h)
    ensures ok ==> parcel.items == old(parcel.items) + HandleItems(h)
  {
    WriteHead(parcel, h);
    if h.fd >= 0 { parcel.Write(File(h.fd)); }
    assert parcel.items == old(parcel.items) + (HeadItems(h) + FdItems(h.fd));
    ok := WriteReserve(parcel, h);
    Associate(old(parcel.items), HeadItems(h) + FdItems(h.fd), ReserveItems(h));
  }

  lemma PrependNone<T>(g: Got<seq<T>>)
    ensures Prepend([], g) == g
  {
    if g.Got? { assert [] + g.value == g.value; }
  }

  /** The loop that fills the descriptors of `reserve`. */
  method ReadFiles(parcel: Parcel, reserve: array<i32>, n: nat) returns (ok: bool)
    requires parcel.Valid() && n <= reserve.Length
    modifies parcel`pos, reserve
    ensures parcel.Valid()
    ensures if ok then ParseFiles(old(parcel.Rest()), n) == Got(reserve[..n], parcel.Rest()) else ParseFiles(old(parcel.Rest()), n).Bad?
  {
    ghost var start := parcel.Rest();
    var i := 0;
    PrependNone(ParseFiles(start, n));
    while i < n
      invariant i <= n && parcel.Valid() && Prepend(reserve[..i], ParseFiles(parcel.Rest(), n - i)) == ParseFiles(start, n)
    {
      ghost var before := parcel.Rest();
      var fd := parcel.ReadFile();
      reserve[i] := fd;
      if fd == -1 { return false; }
      assert before[1..] == parcel.Rest();
      OneMore(reserve[..i], fd, ParseFiles(parcel.Rest(), n - i - 1));
      assert reserve[..i + 1] == reserve[..i] + [fd];
      i := i + 1;
    }
    assert reserve[..n] + [] == reserve[..n];
    ok := true;
  }

  /** The loop that fills the values behind them. */
  method ReadInts(parcel: Parcel, reserve: array<i32>, from: nat, n: nat) returns (ok: bool)
    requires parcel.Valid() && from + n == reserve.Length
    modifies parcel`pos, reserve
    ensures parcel.Valid() && reserve[..from] == old(reserve[..from])
    ensures if ok then ParseInts(old(parcel.Rest()), n) == Got(reserve[from..], parcel.Rest()) else ParseInts(old(parcel.Rest()), n).Bad?
  {
    ghost var start, front := parcel.Rest(), reserve[..from];
    var j := 0;
    PrependNone(ParseInts(start, n));
    assert reserve[from..from + j] == [];
    while j < n
      invariant j <= n && parcel.Valid() && reserve[..from] == front
      invariant Prepend(reserve[from..from + j], ParseInts(parcel.Rest(), n - j)) == ParseInts(start, n)
    {
      ghost var before, got := parcel.Rest(), reserve[from..from + j];
      var read, w := parcel.ReadWord();
      if !read { return false; }
      reserve[from + j] := FromWord(w);
      assert before[1..] == parcel.Rest();
      OneMore(got, FromWord(w), ParseInts(parcel.Rest(), n - j - 1));
      assert reserve[from..from + j + 1] == got + [FromWord(w)];
      j := j + 1;
    }
    assert j == n && reserve[from..from + j] == reserve[from..] && reserve[from..] + [] == reserve[from..];
    ok := true;
  }

  method ReadReserve(parcel: Parcel, h: BufferHandle) returns (handle: Option<BufferHandle>)
    requires parcel.Valid()
    modifies parcel`pos
    ensures parcel.Valid()
    ensures if handle.None? then ParseReserve(old(parcel.Rest()), h).Bad?
            else ParseReserve(old(parcel.Rest()), h) == Got(handle.value, parcel.Rest())
  {
    var reserve := new i32[h.reserveFds + h.reserveInts](i => if i < h.reserveFds then -1 else 0);
    var ok := ReadFiles(parcel, reserve, h.reserveFds);
    if !ok { return None; }
    ok := ReadInts(parcel, reserve, h.reserveFds, h.reserveInts);
    if !ok { return None; }
    Halves(reserve[..], h.reserveFds);
    assert reserve[..][..h.reserveFds] == reserve[..h.reserveFds] && reserve[..][h.reserveFds..] == reserve[h.reserveFds..];
    handle := Some(h.(reserve := reserve[..]));
  }

  lemma OneMore<T>(a: seq<T>, x: T, g: Got<seq<T>>)
    ensures Prepend(a + [x], g) == Prepend(a, Prepend([x], g))
  {
    if g.Got? { assert a + [x] + g.value == a + ([x] + g.value); }
  }

  /** The fields in front of the descriptors. */
  method ReadHead(parcel: Parcel) returns (head: Option<BufferHandle>, announced: bool)
    requires parcel.Valid()
    modifies parcel`pos
    ensures parcel.Valid()
    ensures var items := old(parcel.Rest());
            if HeadShape(items) && items[0].w <= RESERVE_MAX && items[1].w <= RESERVE_MAX then
              head == Some(HeadOf(items)) && announced == (items[9].w != 0) && parcel.Rest() == items[10..]
            else head.None?
  {
    head, announced := None, false;
    var ok0, reserveFds := parcel.ReadWord();
    if !ok0 { return; }
    var ok1, reserveInts := parcel.ReadWord();
    if !ok1 || reserveFds > RESERVE_MAX || reserveInts > RESERVE_MAX { return; }
    var ok2, width := parcel.ReadWord();
    if !ok2 { return; }
    var ok3, stride := parcel.ReadWord();
    if !ok3 { return; }
    var ok4, height := parcel.ReadWord();
    if !ok4 { return; }
    var ok5, size := parcel.ReadWord();
    if !ok5 { return; }
    var ok6, format := parcel.ReadWord();
    if !ok6 { return; }
    var ok7, usage := parcel.ReadLong();
    if !ok7 { return; }
    var ok8, phyAddr := parcel.ReadLong();
    if !ok8 { return; }
    var ok9, validFd := parcel.ReadWord();
    if !ok9 { return; }
    head := Some(BufferHandle(-1, FromWord(width), FromWord(stride), FromWord(height), FromWord(size), FromWord(format),
                              usage, phyAddr, reserveFds, reserveInts, []));
    announced := validFd != 0;
  }

  method ReadBufferHandle(parcel: Parcel, lengths: i32 -> int) returns (handle: Option<BufferHandle>)
    requires parcel.Valid()
    modifies parcel`pos
    ensures parcel.Valid()
    ensures if handle.None? then ParseHandle(old(parcel.Rest()), lengths).Bad?
            else ParseHandle(old(parcel.Rest()), lengths) == Got(handle.value, parcel.Rest())
  {
    var head, announced := ReadHead(parcel);
    if head.None? { return None; }
    var h := head.value;
    if announced {
      ghost var before := parcel.Rest();
      var fd := parcel.ReadFile();
      if fd == -1 { return None; }
      if lengths(fd) < 0 || lengths(fd) < h.size { return None; }
      h := h.(fd := fd);
      assert before[1..] == parcel.Rest();
    }
    handle := ReadReserve(parcel, h);
  }

  // ---- extra data ----

  class BufferExtraDataImpl {
    var datas: ExtraMap

    constructor ()
      ensures datas == map[]
    {
      datas := map[];
    }

    method ExtraSet(key: string, value: Extra) returns (ok: bool)
      modifies this
      ensures match Codec.ExtraSet(old(datas), key, value)
              case None => !ok && datas == old(datas)
              case Some(m) => ok && datas == m
    {
      if key !in datas && |datas| > USER_DATA_MAX { return false; }
      datas := datas[key := value];
      ok := true;
    }

    /** The entries are written in the order in which the map iterates. */
    method WriteToParcel(parcel: Parcel, order: seq<string>)
      requires |order| < U32 && forall k :: k in order ==> k in datas
      modifies parcel`items
      ensures parcel.items == old(parcel.items) + ExtraItems(datas, order)
    {
      parcel.Write(Word(EXTRA_DATA_MAGIC));
      parcel.Write(Word(|order|));
      ghost var start := parcel.items;
      var i := 0;
      while i < |order|
        invariant i <= |order| && parcel.items + EntryItems(datas, order[i..]) == start + EntryItems(datas, order)
      {
        var data := datas[order[i]];
        ghost var entry := [Text(order[i]), Word(TypeCode(data)), ValueItem(data)];
        ghost var before := parcel.items;
        parcel.Write(Text(order[i]));
        parcel.Write(Word(TypeCode(data)));
        parcel.Write(ValueItem(data));
        assert parcel.items == before + entry;
        assert order[i..][1..] == order[i + 1..];
        Associate(before, entry, EntryItems(datas, order[i + 1..]));
        i := i + 1;
      }
      assert order[i..] == [] && parcel.items + [] == parcel.items;
      Associate(old(parcel.items), [Word(EXTRA_DATA_MAGIC), Word(|order|)], EntryItems(datas, order));
    }

    method ReadExtraDataItem(parcel: Parcel, key: string, code: u32) returns (ok: bool)
      requires parcel.Valid()
      modifies this, parcel`pos
      ensures parcel.Valid()
      ensures match ParseValue(old(parcel.Rest()), code)
              case Bad => !ok
              case Got(None, rest) => ok && datas == old(datas) && parcel.Rest() == rest
              case Got(Some(v), rest) =>
                match Codec.ExtraSet(old(datas), key, v)
                case None => !ok
                case Some(m) => ok && datas == m && parcel.Rest() == rest
    {
      ghost var before := parcel.Rest();
      ok := true;
      if code == 0 {
        var got, w := parcel.ReadWord();
        if !got { return false; }
        ok := ExtraSet(key, Int32(FromWord(w)));
      } else if code == 1 || code == 2 {
        var got, l := parcel.ReadLong();
        if !got { return false; }
        ok := ExtraSet(key, if code == 1 then Int64(l) else Float64(l));
      } else if code == 3 {
        var got, s := parcel.ReadText();
        if !got { return false; }
        ok := ExtraSet(key, Str(s));
      }
    }

    /** One round of the reading loop, `n` entries before its end. */
    method ReadEntry(parcel: Parcel, ghost n: nat) returns (ok: bool)
      requires parcel.Valid() && n > 0
      modifies this, parcel`pos
      ensures parcel.Valid()
      ensures if ok then ParseEntries(parcel.Rest(), n - 1, datas) == ParseEntries(old(parcel.Rest()), n, old(datas))
              else ParseEntries(old(parcel.Rest()), n, old(datas)).Bad?
    {
      ghost var before := parcel.Rest();
      var got, key := parcel.ReadText();
      if !got { return false; }
      var got1, code := parcel.ReadWord();
      if !got1 { return false; }
      assert parcel.Rest() == before[2..];
      ok := ReadExtraDataItem(parcel, key, code);
    }

    method ReadEntries(parcel: Parcel, n: nat) returns (ok: bool)
      requires parcel.Valid()
      modifies this, parcel`pos
      ensures parcel.Valid()
      ensures if ok then ParseEntries(old(parcel.Rest()), n, old(datas)) == Got(datas, parcel.Rest()) else ParseEntries(old(parcel.Rest()), n, old(datas)).Bad?
    {
      ghost var start, have := parcel.Rest(), datas;
      var i := 0;
      while i < n
        invariant i <= n && parcel.Valid() && ParseEntries(parcel.Rest(), n - i, datas) == ParseEntries(start, n, have)
      {
        var read := ReadEntry(parcel, n - i);
        if !read { return false; }
        i := i + 1;
      }
      ok := true;
    }

    method ReadFromParcel(parcel: Parcel) returns (ok: bool)
      requires parcel.Valid()
      modifies this, parcel`pos
      ensures parcel.Valid()
      ensures if ok then ParseExtra(old(parcel.Rest()), old(datas)) == Got(datas, parcel.Rest()) else ParseExtra(old(parcel.Rest()), old(datas)).Bad?
    {
      ghost var start := parcel.Rest();
      var got, magic := parcel.ReadWord();
      if !got || magic != EXTRA_DATA_MAGIC { return false; }
      var got1, word := parcel.ReadWord();
      if !got1 || FromWord(word) > USER_DATA_MAX { return false; }
      assert parcel.Rest() == start[2..];
      ok := ReadEntries(parcel, if FromWord(word) < 0 then 0 else FromWord(word));
    }
  }

  // ---- fences and records ----

  method WriteFence(parcel: Parcel, fence: i32)
    modifies parcel`items
    ensures parcel.items == old(parcel.items) + FenceItems(fence)
  {
    parcel.Write(Word(ToWord(fence)));
    if fence < 0 { return; }
    parcel.Write(File(fence));
  }

  method ReadFence(parcel: Parcel) returns (fence: i32)
    requires parcel.Valid()
    modifies parcel`pos
    ensures parcel.Valid() && Got(fence, parcel.Rest()) == ParseFence(old(parcel.Rest()))
  {
    ghost var before := parcel.Rest();
    var ok, w := parcel.ReadWord();
    if !ok { return -1; }
    assert parcel.Rest() == before[1..];
    if FromWord(w) < 0 { return -1; }
    fence := parcel.ReadFile();
  }

  /** The part of WriteSurfaceBufferImpl and of the loop body that depends on the buffer. */
  method WriteBuffer(parcel: Parcel, r: Record) returns (ok: bool)
    modifies parcel`items
    ensures ok <==> Writable(r)
    ensures ok ==> parcel.items == old(parcel.items) + BufferItems(r)
  {
    parcel.Write(Word(r.sequence));
    parcel.Write(Word(OfBool(r.buffer.Some?)));
    ghost var lead := [Word(r.sequence), Word(OfBool(r.buffer.Some?))];
    assert parcel.items == old(parcel.items) + lead;
    if r.buffer.None? { return true; }
    var b := r.buffer.value;
    if !Shaped(b.handle) { return false; }
    ok := WriteBufferHandle(parcel, b.handle);
    if !ok { return; }
    WriteOriginal(parcel, b);
    Associate(old(parcel.items), lead, HandleItems(b.handle));
    Associate(old(parcel.items), lead + HandleItems(b.handle), OriginalItems(b));
    Associate(lead, HandleItems(b.handle), OriginalItems(b));
  }

  method WriteOriginal(parcel: Parcel, b: Image)
    modifies parcel`items
    ensures parcel.items == old(parcel.items) + OriginalItems(b)
  {
    parcel.Write(Word(OfBool(b.hasOriginal)));
    parcel.Write(Word(ToWord(b.originalWidth)));
    parcel.Write(Word(ToWord(b.originalHeight)));
    parcel.Write(Word(ToWord(b.originalSize)));
    parcel.Write(Word(ToWord(b.originalStride)));
    parcel.Write(Long(b.usage));
  }

  /** One turn of the writing loop of RequestBuffersRemote. */
  method WriteRecord(parcel: Parcel, r: Record, order: seq<string>) returns (ok: bool)
    requires |order| < U32 && forall k :: k in order ==> k in r.extra
    modifies parcel`items
    ensures ok <==> Writable(r)
    ensures ok ==> parcel.items == old(parcel.items) + RecordItems(r, order)
  {
    ok := WriteBuffer(parcel, r);
    if !ok { return; }
    ghost var start, a, b, c, d := old(parcel.items), BufferItems(r), ExtraItems(r.extra, order), FenceItems(r.fence), [Words(r.deleting)];
    var bedata := new BufferExtraDataImpl();
    bedata.datas := r.extra;
    bedata.WriteToParcel(parcel, order);
    WriteFence(parcel, r.fence);
    parcel.Write(Words(r.deleting));
    Associate(start, a, b);
    Associate(start, a + b, c);
    Associate(start, a + b + c, d);
    Associate(a, b, c);
    Associate(a, b + c, d);
  }

  /** RequestBuffersRemote after a successful batch. */
  method WriteReply(parcel: Parcel, rs: seq<Record>, orders: seq<seq<string>>)
    requires Ready(rs, orders) && |rs| < U32
    modifies parcel`items
    ensures parcel.items == old(parcel.items) + ReplyItems(rs, orders)
  {
    parcel.Write(Word(0));
    parcel.Write(Word(|rs|));
    ghost var start, lead := parcel.items, [Word(0), Word(|rs|)];
    assert start == old(parcel.items) + lead;
    var i := 0;
    assert rs[0..] == rs && orders[0..] == orders;
    while i < |rs|
      invariant i <= |rs| && Ready(rs[i..], orders[i..])
      invariant parcel.items + RecordsItems(rs[i..], orders[i..]) == start + RecordsItems(rs, orders)
    {
      ghost var before := parcel.items;
      assert rs[i..][1..] == rs[i + 1..] && orders[i..][1..] == orders[i + 1..];
      assert rs[i..][0] == rs[i] && orders[i..][0] == orders[i];
      var ok := WriteRecord(parcel, rs[i], orders[i]);
      Associate(before, RecordItems(rs[i], orders[i]), RecordsItems(rs[i + 1..], orders[i + 1..]));
      i := i + 1;
    }
    assert parcel.items + [] == parcel.items;
    Associate(old(parcel.items), lead, RecordsItems(rs, orders));
  }

  method ReadOriginal(parcel: Parcel, h: BufferHandle) returns (ok: bool, buffer: Option<Image>)
    requires parcel.Valid()
    modifies parcel`pos
    ensures parcel.Valid()
    ensures if ok then Got(buffer, parcel.Rest()) == ParseOriginal(old(parcel.Rest()), h) else ParseOriginal(old(parcel.Rest()), h).Bad?
  {
    ghost var before := parcel.Rest();
    buffer := None;
    var ok0, hasOriginal := parcel.ReadWord();
    var ok1, width := parcel.ReadWord();
    var ok2, height := parcel.ReadWord();
    var ok3, size := parcel.ReadWord();
    var ok4, stride := parcel.ReadWord();
    if !ok0 || !ok1 || !ok2 || !ok3 || !ok4 { return false, None; }
    var ok5, usage := parcel.ReadLong();
    if !ok5 { return false, None; }
    assert parcel.Rest() == before[6..];
    ok, buffer := true, Some(Image(h, hasOriginal != 0, FromWord(width), FromWord(height), FromWord(size), FromWord(stride), usage));
  }

  method ReadBuffer(parcel: Parcel, lengths: i32 -> int) returns (ok: bool, buffer: Option<Image>)
    requires parcel.Valid()
    modifies parcel`pos
    ensures parcel.Valid()
    ensures if ok then Got(buffer, parcel.Rest()) == ParseBuffer(old(parcel.Rest()), lengths) else ParseBuffer(old(parcel.Rest()), lengths).Bad?
  {
    ghost var before := parcel.Rest();
    var got, hasBuffer := parcel.ReadWord();
    if !got { return false, None; }
    assert parcel.Rest() == before[1..];
    if hasBuffer == 0 { return true, None; }
    var handle := ReadBufferHandle(parcel, lengths);
    if handle.None? { return false, None; }
    ok, buffer := ReadOriginal(parcel, handle.value);
  }

  /** One turn of ReadRequestBuffersReply. */
  method ReadRecord(parcel: Parcel, lengths: i32 -> int) returns (r: Option<Record>)
    requires parcel.Valid()
    modifies parcel`pos
    ensures parcel.Valid()
    ensures if r.None? then ParseRecord(old(parcel.Rest()), lengths).Bad?
            else ParseRecord(old(parcel.Rest()), lengths) == Got(r.value, parcel.Rest())
  {
    ghost var before := parcel.Rest();
    var ok, sequence := parcel.ReadWord();
    if !ok { return None; }
    assert parcel.Rest() == before[1..];
    var buffer;
    ok, buffer := ReadBuffer(parcel, lengths);
    if !ok { return None; }
    r := ReadTail(parcel, sequence, buffer);
  }

  method ReadTail(parcel: Parcel, sequence: u32, buffer: Option<Image>) returns (r: Option<Record>)
    requires parcel.Valid()
    modifies parcel`pos
    ensures parcel.Valid()
    ensures if r.None? then ParseTail(old(parcel.Rest()), sequence, buffer).Bad?
            else ParseTail(old(parcel.Rest()), sequence, buffer) == Got(r.value, parcel.Rest())
  {
    var bedata := new BufferExtraDataImpl();
    var ok := bedata.ReadFromParcel(parcel);
    if !ok { return None; }
    var fence := ReadFence(parcel);
    ghost var before := parcel.Rest();
    var got, deleting := parcel.ReadWords();
    if !got { return None; }
    assert parcel.Rest() == before[1..];
    r := Some(Record(sequence, buffer, bedata.datas, fence, deleting));
  }

  /** What the loop returns if it has read `rs` and `n` records are to come. */
  function RecordsAfter(rs: seq<Record>, items: seq<Item>, n: nat, lengths: i32 -> int): Got<seq<Record>> {
    Prepend(rs, ParseRecords(items, n, lengths))
  }

  lemma RecordsDone(rs: seq<Record>, items: seq<Item>, lengths: i32 -> int)
    ensures RecordsAfter(rs, items, 0, lengths) == Got(rs, items)
  {
    assert rs + [] == rs;
  }

  /** One round of the reading loop, after the records `rs`. */
  lemma RecordsStep(rs: seq<Record>, items: seq<Item>, n: nat, lengths: i32 -> int)
    requires n > 0
    ensures RecordsAfter(rs, items, n, lengths) == match ParseRecord(items, lengths)
                                                   case Bad => Bad
                                                   case Got(r, rest) => RecordsAfter(rs + [r], rest, n - 1, lengths)
  {
    match ParseRecord(items, lengths)
    case Bad =>
    case Got(r, rest) => OneMore(rs, r, ParseRecords(rest, n - 1, lengths));
  }

  /** One round of the reading loop, `n` records before its end, given what the whole of it yields. */
  method ReadNext(parcel: Parcel, ghost rs: seq<Record>, ghost n: nat, lengths: i32 -> int, ghost whole: Got<seq<Record>>)
    returns (r: Option<Record>)
    requires parcel.Valid() && n > 0 && RecordsAfter(rs, parcel.Rest(), n, lengths) == whole
    modifies parcel`pos
    ensures parcel.Valid()
    ensures if r.None? then whole.Bad? else RecordsAfter(rs + [r.value], parcel.Rest(), n - 1, lengths) == whole
  {
    RecordsStep(rs, parcel.Rest(), n, lengths);
    r := ReadRecord(parcel, lengths);
  }

  /** The reading loop, given what the whole of it yields. */
  method ReadRecords(parcel: Parcel, num: nat, lengths: i32 -> int, ghost whole: Got<seq<Record>>) returns (retvalues: Option<seq<Record>>)
    requires parcel.Valid() && RecordsAfter([], parcel.Rest(), num, lengths) == whole
    modifies parcel`pos
    ensures parcel.Valid()
    ensures if retvalues.None? then whole.Bad? else RecordsAfter(retvalues.value, parcel.Rest(), 0, lengths) == whole
  {
    var rs: seq<Record> := [];
    for i := 0 to num
      invariant parcel.Valid() && RecordsAfter(rs, parcel.Rest(), num - i, lengths) == whole
    {
      var r := ReadNext(parcel, rs, num - i, lengths, whole);
      if r.None? { return None; }
      rs := rs + [r.value];
    }
    retvalues := Some(rs);
  }

  method ReadRequestBuffersReply(parcel: Parcel, num: nat, lengths: i32 -> int) returns (retvalues: Option<seq<Record>>)
    requires parcel.Valid()
    modifies parcel`pos
    ensures parcel.Valid()
    ensures if retvalues.None? then ParseRecords(old(parcel.Rest()), num, lengths).Bad?
            else ParseRecords(old(parcel.Rest()), num, lengths) == Got(retvalues.value, parcel.Rest())
  {
    ghost var whole := ParseRecords(parcel.Rest(), num, lengths);
    PrependNone(whole);
    retvalues := ReadRecords(parcel, num, lengths, whole);
    if retvalues.Some? { RecordsDone(retvalues.value, parcel.Rest(), lengths); }
  }

  /** BufferClientProducer::RequestBuffers on the reply of a successful batch. */
  method ReadReply(parcel: Parcel, asked: nat, lengths: i32 -> int) returns (retvalues: Option<seq<Record>>)
    requires parcel.Valid()
    modifies parcel`pos
    ensures parcel.Valid()
    ensures if retvalues.None? then ParseReply(old(parcel.Rest()), asked, lengths).Bad?
            else ParseReply(old(parcel.Rest()), asked, lengths) == Got(retvalues.value, parcel.Rest())
  {
    ghost var start := parcel.Rest();
    var ok, ret := parcel.ReadWord();
    if !ok || ret != 0 { return None; }
    var ok1, num := parcel.ReadWord();
    if !ok1 || num > MAX_RECORDS || num == 0 { return None; }
    if asked < num { return None; }
    assert parcel.Rest() == start[2..];
    retvalues := ReadRequestBuffersReply(parcel, num, lengths);
  }

  /** A reply written by the one side and read by the other: the records arrive in their normal
      form and the parcel stands exactly behind them. */
  method Exchange(rs: seq<Record>, orders: seq<seq<string>>, asked: nat, lengths: i32 -> int, parcel: Parcel)
    returns (retvalues: Option<seq<Record>>)
    requires Ready(rs, orders) && |rs| < U32 && parcel.Valid() && parcel.Rest() == []
    modifies parcel
    ensures parcel.Valid()
    ensures if 0 < |rs| <= MAX_RECORDS && |rs| <= asked && AllAcceptable(rs, lengths)
            then retvalues == Some(NormalAll(rs)) && parcel.Rest() == []
            else retvalues == None
  {
    WriteReply(parcel, rs, orders);
    assert parcel.Rest() == ReplyItems(rs, orders) + [];
    ReplyBack(rs, orders, asked, [], lengths);
    retvalues := ReadReply(parcel, asked, lengths);
  }
}
