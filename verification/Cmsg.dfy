/** Control messages (`struct cmsghdr`), sections 20.2 and 20.3 of RFC 3542. */
module Cmsg {
  import opened Bytes
  import opened Types
  import opened Addr

  /** A multiple of the word size. */
  predicate Aligned(h: Host, n: nat) {
    if h.word == 4 then n % 4 == 0 else n % 8 == 0
  }

  /** `n` with its `bits` lowest binary digits cleared. */
  function ClearLow(n: nat, bits: nat): nat {
    if bits == 0 then n else 2 * ClearLow(n / 2, bits - 1)
  }

  /** Binary digits masked by `p - 1` for the word size `p`. */
  function MaskBits(h: Host): nat {
    if h.word == 4 then 2 else 3
  }

  /** `(n + p - 1) & !(p - 1)`. */
  function Align(h: Host, n: nat): (r: nat)
    ensures n <= r < n + h.word
    ensures r == if h.word == 4 then (n + 3) / 4 * 4 else (n + 7) / 8 * 8
  {
    ClearThree(n + h.word - 1);
    ClearLow(n + h.word - 1, MaskBits(h))
  }

  lemma ClearOne(n: nat, bits: nat)
    requires bits > 0
    ensures ClearLow(n, bits) == 2 * ClearLow(n / 2, bits - 1)
  {
  }

  lemma Halves(n: nat)
    ensures n / 2 / 2 == n / 4 && n / 4 / 2 == n / 8
  {
  }

  lemma ClearThree(n: nat)
    ensures ClearLow(n, 2) == n / 4 * 4 && ClearLow(n, 3) == n / 8 * 8
  {
    hide ClearLow;
    Halves(n);
    ClearOne(n, 2);
    ClearOne(n, 3);
    ClearOne(n / 2, 1);
    ClearOne(n / 2, 2);
    ClearOne(n / 4, 1);
    ClearNothing(n / 4);
    ClearNothing(n / 8);
  }

  lemma ClearNothing(n: nat)
    ensures ClearLow(n, 0) == n
  {
  }

  /** The least multiple of the word size not below `n`. */
  lemma AlignIsLeast(h: Host, n: nat)
    ensures Aligned(h, Align(h, n)) && n <= Align(h, n)
    ensures forall m: nat :: Aligned(h, m) && n <= m ==> Align(h, n) <= m
  {
    forall m: nat | Aligned(h, m) && n <= m
      ensures Align(h, n) <= m
    {
      if h.word == 4 {
        Least4(n, m / 4);
      } else {
        Least8(n, m / 8);
      }
    }
  }

  lemma Least4(n: nat, q: nat)
    requires n <= 4 * q
    ensures (n + 3) / 4 <= q
  {
  }

  lemma Least8(n: nat, q: nat)
    requires n <= 8 * q
    ensures (n + 7) / 8 <= q
  {
  }

  lemma AlignShifts(h: Host, a: nat, b: nat)
    requires Aligned(h, a)
    ensures Align(h, a + b) == a + Align(h, b)
    ensures Aligned(h, a + b) <==> Aligned(h, b)
  {
    if h.word == 4 {
      Shift4(a / 4, b);
    } else {
      Shift8(a / 8, b);
    }
  }

  lemma Shift4(q: nat, b: nat)
    ensures (4 * q + b + 3) / 4 == q + (b + 3) / 4
    ensures (4 * q + b) % 4 == b % 4
  {
  }

  lemma Shift8(q: nat, b: nat)
    ensures (8 * q + b + 7) / 8 == q + (b + 7) / 8
    ensures (8 * q + b) % 8 == b % 8
  {
  }

  function HdrLen(h: Host): nat {
    h.word + 8
  }

  lemma HdrLenIsAlignedHeader(h: Host)
    ensures HdrLen(h) == Align(h, h.word + 4 + 4) && Aligned(h, HdrLen(h))
  {
  }

  function Space(h: Host, dataLen: nat): nat {
    HdrLen(h) + Align(h, dataLen)
  }

  function CmsgLen(h: Host, dataLen: nat): nat {
    HdrLen(h) + dataLen
  }

  datatype Item = Item(level: i32, ty: i32, data: seq<byte>)

  /** A payload that fits in memory: its `cmsg_len` is representable as a `usize`. */
  ghost predicate Fits(h: Host, item: Item) {
    Space(h, |item.data|) < Pow256(h.word)
  }

  /** One message without its trailing padding. */
  function Unpadded(h: Host, item: Item): (s: seq<byte>)
    ensures |s| == CmsgLen(h, |item.data|)
  {
    ToNe(h.endian, CmsgLen(h, |item.data|), h.word)
    + (I32Bytes(h.endian, item.level) + I32Bytes(h.endian, item.ty) + item.data)
  }

  function Padding(h: Host, item: Item): nat {
    Align(h, |item.data|) - |item.data|
  }

  function Encoded(h: Host, item: Item): (s: seq<byte>)
    ensures |s| == Space(h, |item.data|)
  {
    Unpadded(h, item) + Zeros(Padding(h, item))
  }

  /** Writes one message at offset `at`; the source passes the sub-slice that starts there. */
  method Write(h: Host, buf: array<byte>, at: nat, item: Item) returns (total: nat)
    requires Fits(h, item)
    requires at + Space(h, |item.data|) <= buf.Length
    modifies buf
    ensures total == Space(h, |item.data|)
    ensures buf[at..at + total] == Encoded(h, item)
    ensures buf[..at] == old(buf[..at]) && buf[at + total..] == old(buf[at + total..])
  {
    hide ToNe, I32Bytes, Align, Filled;
    total := Space(h, |item.data|);
    var p, e := h.word, h.endian;
    ghost var before, after := buf[..at], buf[at + total..];
    var len, level, ty := ToNe(e, CmsgLen(h, |item.data|), p), I32Bytes(e, item.level), I32Bytes(e, item.ty);
    ZeroOut(buf, at, total);
    PutNext(buf, at, len, before, total, after);
    PutNext(buf, at + p, level, before + len, total - p, after);
    PutNext(buf, at + p + 4, ty, before + len + level, total - p - 4, after);
    PutNext(buf, at + HdrLen(h), item.data, before + len + level + ty, total - HdrLen(h), after);
    FilledUp(buf[..], before + len + level + ty + item.data, Padding(h, item), after);
    Regroup(before, len, level, ty, item.data, Zeros(Padding(h, item)), after);
    assert buf[..] == before + Encoded(h, item) + after;
  }

  lemma Regroup(a: seq<byte>, b: seq<byte>, c: seq<byte>, d: seq<byte>, e: seq<byte>, f: seq<byte>, g: seq<byte>)
    ensures a + b + c + d + e + f + g == a + (b + (c + d + e) + f) + g
  {
    assert a + (b + (c + d + e) + f) == a + b + c + d + e + f;
  }

  // -- iteration --------------------------------------------------------------------

  /** One step of the iterator: the item and what remains, or nothing if the header is short or absurd. */
  function Step(h: Host, buf: seq<byte>): (r: Option<(Item, seq<byte>)>)
    ensures r.Some? ==> |r.value.1| + CmsgLen(h, |r.value.0.data|) <= |buf|
  {
    var p := h.word;
    if |buf| < HdrLen(h) then None
    else
      var len := FromNe(h.endian, buf[..p]);
      if len < HdrLen(h) || len > |buf| then None
      else
        var item := Item(I32Of(h.endian, buf[p..p + 4]), I32Of(h.endian, buf[p + 4..p + 8]), buf[HdrLen(h)..len]);
        Some((item, buf[Min(Align(h, len), |buf|)..]))
  }

  function Items(h: Host, buf: seq<byte>): seq<Item>
    decreases |buf|
  {
    var r := Step(h, buf);
    if r.None? then [] else [r.value.0] + Items(h, r.value.1)
  }

  class Iter {
    const host: Host
    var buf: seq<byte>

    constructor (host: Host, buf: seq<byte>)
      ensures this.host == host && this.buf == buf
    {
      this.host := host;
      this.buf := buf;
    }

    /** Runs the iterator to its end. */
    method Collect() returns (items: seq<Item>)
      modifies this
      ensures items == Items(host, old(buf))
    {
      hide Items;
      items := [];
      var item := Next();
      while item.Some?
        invariant item.Some? ==> Items(host, old(buf)) == items + ([item.value] + Items(host, buf))
        invariant item.None? ==> Items(host, old(buf)) == items
        decreases item.Some?, |buf|
      {
        ghost var rest := Items(host, buf);
        assert items + ([item.value] + rest) == items + [item.value] + rest;
        items := items + [item.value];
        item := Next();
        assert item.None? ==> items + rest == items;
      }
    }

    /** Yields the head of the remaining items, or `None` exactly when there are none left. */
    method Next() returns (item: Option<Item>)
      modifies this
      ensures item.None? ==> Items(host, old(buf)) == [] && buf == old(buf)
      ensures item.Some? ==> Items(host, old(buf)) == [item.value] + Items(host, buf) && |buf| < |old(buf)|
    {
      if |buf| < HdrLen(host) {
        return None;
      }
      var p := host.word;
      var cmsgLen := FromNe(host.endian, buf[..p]);
      if cmsgLen < HdrLen(host) || cmsgLen > |buf| {
        return None;
      }
      var level := I32Of(host.endian, buf[p..p + 4]);
      var ty := I32Of(host.endian, buf[p + 4..p + 8]);
      var data := buf[HdrLen(host)..cmsgLen];
      var advance := Min(Align(host, cmsgLen), |buf|);
      buf := buf[advance..];
      return Some(Item(level, ty, data));
    }
  }

  // -- round trip ----------------------------------------------------------------------

  function EncodedList(h: Host, items: seq<Item>): seq<byte> {
    if items == [] then [] else Encoded(h, items[0]) + EncodedList(h, items[1..])
  }

  /** The step on a buffer that starts with one unpadded message. */
  lemma StepOnMessage(h: Host, item: Item, more: seq<byte>)
    requires Fits(h, item)
    ensures Step(h, Unpadded(h, item) + more)
         == Some((item, (Unpadded(h, item) + more)[Min(Space(h, |item.data|), CmsgLen(h, |item.data|) + |more|)..]))
  {
    hide FromNe, ToNe, I32Bytes, I32Of, Align;
    var buf, p := Unpadded(h, item) + more, h.word;
    var len := CmsgLen(h, |item.data|);
    AlignShifts(h, HdrLen(h), |item.data|);
    assert Align(h, len) == Space(h, |item.data|);
    assert buf[..p] == ToNe(h.endian, len, p);
    NeRoundTrip(h.endian, len, p);
    assert buf[p..p + 4] == I32Bytes(h.endian, item.level);
    assert buf[p + 4..p + 8] == I32Bytes(h.endian, item.ty);
    assert buf[HdrLen(h)..len] == item.data;
    I32RoundTrip(h.endian, item.level);
    I32RoundTrip(h.endian, item.ty);
  }

  lemma StepOnPadded(h: Host, item: Item, more: seq<byte>)
    requires Fits(h, item)
    ensures Step(h, Encoded(h, item) + more) == Some((item, more))
  {
    hide Step, Unpadded, Align;
    var pad := Zeros(Padding(h, item));
    StepOnMessage(h, item, pad + more);
    var buf := Unpadded(h, item) + (pad + more);
    assert Encoded(h, item) + more == buf;
    assert buf[|Encoded(h, item)|..] == more;
  }

  lemma LastMessage(h: Host, item: Item, cut: nat)
    requires Fits(h, item) && cut <= Padding(h, item)
    ensures Items(h, Encoded(h, item)[..|Encoded(h, item)| - cut]) == [item]
  {
    hide Step, Unpadded, Align;
    var pad := Zeros(Padding(h, item) - cut);
    var buf := Encoded(h, item)[..|Encoded(h, item)| - cut];
    assert buf == Unpadded(h, item) + pad;
    StepOnMessage(h, item, pad);
    assert Step(h, buf).value.1 == [];
    assert Items(h, []) == [];
  }

  lemma NoMessage(h: Host)
    ensures Items(h, []) == []
  {
  }

  lemma FirstMessage(h: Host, item: Item, rest: seq<byte>)
    requires Fits(h, item)
    ensures Items(h, Encoded(h, item) + rest) == [item] + Items(h, rest)
  {
    hide Step, Encoded, Align;
    StepOnPadded(h, item, rest);
  }

  /**
   * Messages written back to back iterate to exactly the list written, even if up to the whole
   * trailing padding of the last one (`cut` bytes) is missing.
   */
  lemma {:induction false} IterationRoundTrip(h: Host, items: seq<Item>, cut: nat)
    requires forall item :: item in items ==> Fits(h, item)
    requires cut <= |EncodedList(h, items)|
    requires if items == [] then cut == 0 else cut <= Padding(h, items[|items| - 1])
    ensures Items(h, EncodedList(h, items)[..|EncodedList(h, items)| - cut]) == items
    decreases |items|
  {
    hide Items, Encoded, Align;
    var all := EncodedList(h, items);
    var buf := all[..|all| - cut];
    if items == [] {
      NoMessage(h);
    } else if |items| == 1 {
      assert all == Encoded(h, items[0]) + EncodedList(h, []) == Encoded(h, items[0]);
      LastMessage(h, items[0], cut);
    } else {
      var tail := items[1..];
      assert tail[|tail| - 1] == items[|items| - 1];
      var rest := EncodedList(h, tail);
      LastFits(h, tail);
      IterationRoundTrip(h, tail, cut);
      assert buf == Encoded(h, items[0]) + rest[..|rest| - cut];
      FirstMessage(h, items[0], rest[..|rest| - cut]);
    }
  }

  lemma {:induction false} LastFits(h: Host, items: seq<Item>)
    requires items != []
    ensures Padding(h, items[|items| - 1]) <= |EncodedList(h, items)|
  {
    if |items| > 1 {
      LastFits(h, items[1..]);
    } else {
      assert EncodedList(h, items) == Encoded(h, items[0]) + [];
    }
  }

  // -- arbitrary bytes --------------------------------------------------------------------

  /** Where iteration finds the items of `buf` when `buf` starts at absolute offset `base`. */
  ghost function Starts(h: Host, buf: seq<byte>, base: nat): seq<nat>
    decreases |buf|
  {
    var r := Step(h, buf);
    if r.None? then [] else [base] + Starts(h, r.value.1, base + |buf| - |r.value.1|)
  }

  /** `item` is what the header at `start` announces, in bounds and word-aligned. */
  ghost predicate Located(h: Host, whole: seq<byte>, start: nat, item: Item) {
    var p, len := h.word, CmsgLen(h, |item.data|);
    && Aligned(h, start)
    && start + len <= |whole|
    && FromNe(h.endian, whole[start..start + p]) == len
    && I32Of(h.endian, whole[start + p..start + p + 4]) == item.level
    && I32Of(h.endian, whole[start + p + 4..start + p + 8]) == item.ty
    && item.data == whole[start + HdrLen(h)..start + len]
  }

  /** No message starts at `at`: the header is cut off, or its length is below a header or beyond the buffer. */
  ghost predicate NoMessageAt(h: Host, whole: seq<byte>, at: nat)
    requires at <= |whole|
  {
    || |whole| - at < HdrLen(h)
    || var len := FromNe(h.endian, whole[at..at + h.word]); len < HdrLen(h) || len > |whole| - at
  }

  lemma SliceOfTail(s: seq<byte>, base: nat, lo: nat, hi: nat)
    requires base <= |s| && lo <= hi <= |s| - base
    ensures s[base..][lo..hi] == s[base + lo..base + hi]
  {
  }

  /** One step from an aligned position: the item is in place and the next position is the aligned end of it. */
  lemma StepIsSafe(h: Host, whole: seq<byte>, base: nat)
    requires base <= |whole| && (Aligned(h, base) || base == |whole|)
    requires Step(h, whole[base..]).Some?
    ensures var (item, rest) := Step(h, whole[base..]).value;
      var next := |whole| - |rest|;
      && Located(h, whole, base, item)
      && next == Min(base + Align(h, CmsgLen(h, |item.data|)), |whole|) && rest == whole[next..]
      && base + CmsgLen(h, |item.data|) <= next
      && (Aligned(h, next) || next == |whole|)
  {
    hide FromNe, Align, I32Of;
    var buf, p := whole[base..], h.word;
    var (item, rest) := Step(h, buf).value;
    var len := CmsgLen(h, |item.data|);
    AlignIsLeast(h, len);
    AlignShifts(h, base, Align(h, len));
    var header := HdrLen(h);
    assert item.data == buf[header..len];
    SliceOfTail(whole, base, header, len);
    SliceOfTail(whole, base, 0, p);
    SliceOfTail(whole, base, p, p + 4);
    SliceOfTail(whole, base, p + 4, p + 8);
    assert buf[0..p] == buf[..p];
    assert rest == buf[Min(Align(h, len), |buf|)..];
  }

  lemma StepStops(h: Host, whole: seq<byte>, at: nat)
    requires at <= |whole|
    ensures Step(h, whole[at..]).None? <==> NoMessageAt(h, whole, at)
  {
    hide FromNe;
    if |whole| - at >= HdrLen(h) {
      SliceOfTail(whole, at, 0, h.word);
      assert whole[at..][0..h.word] == whole[at..][..h.word];
    }
  }

  /** Where the `i`-th message has to start: at `base`, or at the aligned end of the one before. */
  ghost function StartOf(h: Host, whole: seq<byte>, base: nat, items: seq<Item>, starts: seq<nat>, i: nat): nat
    requires |items| == |starts| && i <= |items|
  {
    if i == 0 then base else Min(starts[i - 1] + Align(h, CmsgLen(h, |items[i - 1].data|)), |whole|)
  }

  /** Each item is read off its header, and starts where the one before it ends. */
  ghost predicate Placed(h: Host, whole: seq<byte>, base: nat, items: seq<Item>, starts: seq<nat>) {
    && |items| == |starts|
    && forall i :: 0 <= i < |items| ==>
         starts[i] == StartOf(h, whole, base, items, starts, i) && Located(h, whole, starts[i], items[i])
  }

  /** The extents ascend and are disjoint. */
  ghost predicate Disjoint(h: Host, base: nat, items: seq<Item>, starts: seq<nat>) {
    && |items| == |starts|
    && (forall i :: 0 <= i < |items| ==> base <= starts[i])
    && (forall i, j :: 0 <= i < j < |items| ==> starts[i] + CmsgLen(h, |items[i].data|) <= starts[j])
  }

  /**
   * `items` are exactly the messages of `whole` from `base` on: in bounds at word-aligned offsets, disjoint
   * and ascending, and where the last one ends no further message starts.
   */
  ghost predicate Laid(h: Host, whole: seq<byte>, base: nat, items: seq<Item>, starts: seq<nat>) {
    && Placed(h, whole, base, items, starts)
    && Disjoint(h, base, items, starts)
    && var end := StartOf(h, whole, base, items, starts, |items|);
       end <= |whole| && NoMessageAt(h, whole, end)
  }

  lemma StartShifts(h: Host, whole: seq<byte>, base: nat, item: Item, next: nat, items: seq<Item>, starts: seq<nat>, i: nat)
    requires |items| == |starts| && i <= |items|
    requires next == Min(base + Align(h, CmsgLen(h, |item.data|)), |whole|)
    ensures StartOf(h, whole, base, [item] + items, [base] + starts, i + 1) == StartOf(h, whole, next, items, starts, i)
  {
    hide Align;
    if i > 0 {
      assert ([item] + items)[i] == items[i - 1] && ([base] + starts)[i] == starts[i - 1];
    }
  }

  lemma PlacedCons(h: Host, whole: seq<byte>, base: nat, item: Item, next: nat, items: seq<Item>, starts: seq<nat>)
    requires Located(h, whole, base, item)
    requires next == Min(base + Align(h, CmsgLen(h, |item.data|)), |whole|)
    requires Placed(h, whole, next, items, starts)
    ensures Placed(h, whole, base, [item] + items, [base] + starts)
  {
    hide Located, Align, StartOf;
    var items1, starts1 := [item] + items, [base] + starts;
    forall i | 0 <= i < |items1|
      ensures starts1[i] == StartOf(h, whole, base, items1, starts1, i) && Located(h, whole, starts1[i], items1[i])
    {
      if i > 0 {
        StartShifts(h, whole, base, item, next, items, starts, i - 1);
        assert items1[i] == items[i - 1] && starts1[i] == starts[i - 1];
      } else {
        FirstStart(h, whole, base, items1, starts1);
      }
    }
  }

  lemma DisjointCons(h: Host, base: nat, item: Item, next: nat, items: seq<Item>, starts: seq<nat>)
    requires base + CmsgLen(h, |item.data|) <= next && Disjoint(h, next, items, starts)
    ensures Disjoint(h, base, [item] + items, [base] + starts)
  {
    hide CmsgLen;
    assert base <= next by {
      CmsgLenPositive(h, |item.data|);
    }
  }

  lemma CmsgLenPositive(h: Host, n: nat)
    ensures CmsgLen(h, n) > n
  {
  }

  lemma LaidCons(h: Host, whole: seq<byte>, base: nat, item: Item, next: nat, items: seq<Item>, starts: seq<nat>)
    requires Located(h, whole, base, item) && base + CmsgLen(h, |item.data|) <= next
    requires next == Min(base + Align(h, CmsgLen(h, |item.data|)), |whole|)
    requires Laid(h, whole, next, items, starts)
    ensures Laid(h, whole, base, [item] + items, [base] + starts)
  {
    hide Located, NoMessageAt, Align, StartOf, Placed, Disjoint;
    SameLength(h, whole, next, items, starts);
    PlacedCons(h, whole, base, item, next, items, starts);
    DisjointCons(h, base, item, next, items, starts);
    StartShifts(h, whole, base, item, next, items, starts, |items|);
  }

  lemma SameLength(h: Host, whole: seq<byte>, base: nat, items: seq<Item>, starts: seq<nat>)
    requires Placed(h, whole, base, items, starts)
    ensures |items| == |starts|
  {
  }

  lemma FirstStart(h: Host, whole: seq<byte>, base: nat, items: seq<Item>, starts: seq<nat>)
    requires |items| == |starts|
    ensures StartOf(h, whole, base, items, starts, 0) == base
  {
  }

  /** On any bytes at all, iteration finds exactly the messages laid out there and never leaves the buffer. */
  lemma {:induction false} IterationIsSafe(h: Host, whole: seq<byte>, base: nat)
    requires base <= |whole| && (Aligned(h, base) || base == |whole|)
    ensures Laid(h, whole, base, Items(h, whole[base..]), Starts(h, whole[base..], base))
    decreases |whole| - base
  {
    hide FromNe, Align, Step, Located, NoMessageAt, Laid;
    var buf := whole[base..];
    var r := Step(h, buf);
    StepStops(h, whole, base);
    if r.Some? {
      StepIsSafe(h, whole, base);
      var (item, rest) := r.value;
      var next := |whole| - |rest|;
      IterationIsSafe(h, whole, next);
      LaidCons(h, whole, base, item, next, Items(h, rest), Starts(h, rest, next));
    } else {
      LaidNil(h, whole, base);
    }
  }

  lemma LaidNil(h: Host, whole: seq<byte>, base: nat)
    requires base <= |whole| && NoMessageAt(h, whole, base)
    ensures Laid(h, whole, base, [], [])
  {
  }

  /** Each item costs at least a header: at most `len / HDR_LEN` items are produced. */
  lemma {:induction false} ItemCount(h: Host, buf: seq<byte>)
    ensures h.word == 4 ==> HdrLen(h) == 12 && |Items(h, buf)| <= |buf| / 12
    ensures h.word == 8 ==> HdrLen(h) == 16 && |Items(h, buf)| <= |buf| / 16
    decreases |buf|
  {
    var r := Step(h, buf);
    if r.Some? {
      ItemCount(h, r.value.1);
    }
  }

  // -- the two messages the crate exchanges with the kernel ----------------------------------

  /** The control buffer `send_msg` builds, as the kernel reads it back: one SNDINFO, network-order PPID. */
  method SendControl(h: Host, info: SendInfo) returns (control: array<byte>)
    ensures |Items(h, control[..])| == 1
    ensures var item := Items(h, control[..])[0];
      && item.level == 132 && item.ty == 2 && |item.data| == 16
      && U16Of(h.endian, item.data[0..2]) == info.sid
      && U16Of(h.endian, item.data[2..4]) == info.flags
      && item.data[4..8] == U32Bytes(Big, info.ppid.id)
      && U32Of(h.endian, item.data[8..12]) == info.context
      && I32Of(h.endian, item.data[12..16]) == info.assocId
    ensures fresh(control)
  {
    hide FromNe, Align, Items, U16Of, U32Of, I32Of, U32Bytes;
    var item := Item(IPPROTO_SCTP, SCTP_CMSG_SNDINFO, SndInfoBytes(h.endian, info));
    SmallFits(h, item);
    control := new byte[Space(h, 16)](_ => 0);
    var clen := Write(h, control, 0, item);
    assert control[..] == control[0..clen] == EncodedList(h, [item]) + [];
    IterationRoundTrip(h, [item], 0);
    assert EncodedList(h, [item])[..|EncodedList(h, [item])|] == EncodedList(h, [item]);
    SndInfoFields(h.endian, info);
  }

  lemma SmallFits(h: Host, item: Item)
    requires |item.data| <= 1000
    ensures Fits(h, item)
  {
    Widths();
    assert Pow256(5) == 256 * Pow256(4) && Pow256(6) == 256 * Pow256(5);
    assert Pow256(7) == 256 * Pow256(6) && Pow256(8) == 256 * Pow256(7);
  }

  predicate IsRcvInfo(item: Item) {
    item.level == IPPROTO_SCTP && item.ty == SCTP_CMSG_RCVINFO && |item.data| >= RCVINFO_LEN
  }

  /** The last sufficiently long RCVINFO in a list of control messages. */
  ghost function LastRcvInfo(items: seq<Item>): (r: Option<Item>)
    ensures r.Some? ==> IsRcvInfo(r.value)
  {
    if items == [] then None
    else
      var last := items[|items| - 1];
      if IsRcvInfo(last) then Some(last) else LastRcvInfo(items[..|items| - 1])
  }

  /** The metadata `recv_msg` reports for a control buffer. */
  ghost function InfoOf(h: Host, control: seq<byte>): Option<RcvInfo> {
    var last := LastRcvInfo(Items(h, control));
    if last.None? then None else Some(RcvInfoOf(h.endian, last.value.data))
  }

  lemma LastRcvInfoSnoc(items: seq<Item>, c: Item)
    ensures LastRcvInfo(items + [c]) == if IsRcvInfo(c) then Some(c) else LastRcvInfo(items)
  {
    assert (items + [c])[..|items|] == items;
  }

  /** The loop of `recv_msg` that overwrites `info` with every RCVINFO it meets. */
  method ScanRcvInfo(h: Host, control: seq<byte>) returns (info: Option<RcvInfo>)
    ensures info == InfoOf(h, control)
  {
    hide Items, FromNe;
    info := None;
    var it := new Iter(h, control);
    var items := it.Collect();
    ghost var last := None;
    for i := 0 to |items|
      invariant last == LastRcvInfo(items[..i])
      invariant info == if last.None? then None else Some(RcvInfoOf(h.endian, last.value.data))
    {
      LastRcvInfoSnoc(items[..i], items[i]);
      assert items[..i + 1] == items[..i] + [items[i]];
      if IsRcvInfo(items[i]) {
        info := Some(RcvInfoOf(h.endian, items[i].data));
        last := Some(items[i]);
      }
    }
    assert items[..|items|] == items;
  }

  lemma {:induction false} LastIsBehindOthers(before: seq<Item>, mine: Item, after: seq<Item>)
    requires IsRcvInfo(mine) && forall item :: item in after ==> !IsRcvInfo(item)
    ensures LastRcvInfo(before + [mine] + after) == Some(mine)
    decreases |after|
  {
    hide IsRcvInfo;
    if after == [] {
      assert before + [mine] + after == before + [mine];
      LastRcvInfoSnoc(before, mine);
    } else {
      var front, last := after[..|after| - 1], after[|after| - 1];
      LastIsBehindOthers(before, mine, front);
      assert before + [mine] + after == before + [mine] + front + [last];
      LastRcvInfoSnoc(before + [mine] + front, last);
    }
  }

  lemma {:induction false} NoRcvInfoAmong(items: seq<Item>)
    requires forall item :: item in items ==> !IsRcvInfo(item)
    ensures LastRcvInfo(items).None?
  {
    if items != [] {
      assert items[|items| - 1] in items;
      NoRcvInfoAmong(items[..|items| - 1]);
    }
  }

  /**
   * The metadata is what the last RCVINFO of any control buffer holds, and only that: a message of another
   * level or type, or too short, is never taken for it.
   */
  lemma InfoIsTheLastRcvInfo(h: Host, control: seq<byte>)
    ensures var items := Items(h, control);
      var info := InfoOf(h, control);
      && (info.None? <==>
            forall i :: 0 <= i < |items| ==> !(items[i].level == 132 && items[i].ty == 3 && |items[i].data| >= 28))
      && (info.Some? ==>
            exists i :: 0 <= i < |items| && items[i].level == 132 && items[i].ty == 3 && |items[i].data| >= 28
                        && info.value == RcvInfoOf(h.endian, items[i].data)
                        && forall j :: i < j < |items| ==>
                             !(items[j].level == 132 && items[j].ty == 3 && |items[j].data| >= 28))
  {
    hide Items, RcvInfoOf;
    LastRcvInfoAt(Items(h, control));
  }

  lemma {:induction false} LastRcvInfoAt(items: seq<Item>)
    ensures LastRcvInfo(items).None? <==> forall i :: 0 <= i < |items| ==> !IsRcvInfo(items[i])
    ensures LastRcvInfo(items).Some? ==>
      exists i :: 0 <= i < |items| && items[i] == LastRcvInfo(items).value
                  && forall j :: i < j < |items| ==> !IsRcvInfo(items[j])
  {
    hide IsRcvInfo;
    if items != [] {
      var n := |items| - 1;
      var front := items[..n];
      LastRcvInfoAt(front);
      if !IsRcvInfo(items[n]) && LastRcvInfo(front).Some? {
        var i :| 0 <= i < n && front[i] == LastRcvInfo(front).value && forall j :: i < j < n ==> !IsRcvInfo(front[j]);
        assert items[i] == LastRcvInfo(items).value;
        forall j | i < j < |items|
          ensures !IsRcvInfo(items[j])
        {
          if j < n {
            assert items[j] == front[j];
          }
        }
      } else if !IsRcvInfo(items[n]) {
        forall i | 0 <= i < |items|
          ensures !IsRcvInfo(items[i])
        {
          if i < n {
            assert items[i] == front[i];
          }
        }
      } else {
        assert items[n] == LastRcvInfo(items).value;
      }
    }
  }

  /** What the kernel attaches is what the caller sees, whatever other control messages stand around it. */
  lemma RcvInfoDelivered(h: Host, before: seq<Item>, r: RcvInfo, pad: seq<byte>, after: seq<Item>)
    requires |pad| == 2
    requires forall item :: item in before + after ==> Fits(h, item)
    requires forall item :: item in after ==> !(item.level == 132 && item.ty == 3 && |item.data| >= 28)
    ensures var mine := Item(132, 3, RcvInfoBytes(h.endian, r, pad));
      InfoOf(h, EncodedList(h, before + [mine] + after)) == Some(r)
  {
    hide FromNe, ToNe, Items, EncodedList, RcvInfoOf, RcvInfoBytes, LastRcvInfo, Fits;
    var mine := Item(132, 3, RcvInfoBytes(h.endian, r, pad));
    var items := before + [mine] + after;
    SmallFits(h, mine);
    ListDecodes(h, items);
    LastIsBehindOthers(before, mine, after);
    RcvInfoRoundTrip(h.endian, r, pad, []);
    assert mine.data + [] == mine.data;
  }

  /** Without an RCVINFO among them the caller sees no metadata. */
  lemma NoRcvInfoNoMetadata(h: Host, items: seq<Item>)
    requires forall item :: item in items ==> Fits(h, item)
    requires forall item :: item in items ==> !(item.level == 132 && item.ty == 3 && |item.data| >= 28)
    ensures InfoOf(h, EncodedList(h, items)).None?
  {
    hide FromNe, ToNe, Items, EncodedList, LastRcvInfo, Fits;
    ListDecodes(h, items);
    NoRcvInfoAmong(items);
  }

  lemma ListDecodes(h: Host, items: seq<Item>)
    requires forall item :: item in items ==> Fits(h, item)
    ensures Items(h, EncodedList(h, items)) == items
  {
    hide Items, EncodedList, Fits;
    IterationRoundTrip(h, items, 0);
    var all := EncodedList(h, items);
    assert all[..|all|] == all;
  }
}
