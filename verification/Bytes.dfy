/** Fixed-width integers and their byte representations on hosts of either endianness. */
module Bytes {

  type byte = b: int | 0 <= b < 0x100
  type u16 = v: int | 0 <= v < 0x1_0000
  type u32 = v: int | 0 <= v < 0x1_0000_0000
  type i32 = v: int | -0x8000_0000 <= v < 0x8000_0000

  datatype Endian = Little | Big

  /** What the build target fixes: byte order and `size_of::<usize>()`. */
  datatype Target = Target(endian: Endian, word: nat)

  type Host = t: Target | t.word == 4 || t.word == 8 witness Target(Little, 8)

  function Pow256(n: nat): (r: nat)
    ensures r > 0
  {
    if n == 0 then 1 else 256 * Pow256(n - 1)
  }

  function ToLe(v: nat, n: nat): (s: seq<byte>)
    ensures |s| == n
  {
    if n == 0 then [] else [v % 256] + ToLe(v / 256, n - 1)
  }

  function FromLe(s: seq<byte>): nat {
    if s == [] then 0 else s[0] + 256 * FromLe(s[1..])
  }

  function ToBe(v: nat, n: nat): (s: seq<byte>)
    ensures |s| == n
  {
    if n == 0 then [] else ToBe(v / 256, n - 1) + [v % 256]
  }

  function FromBe(s: seq<byte>): nat {
    if s == [] then 0 else 256 * FromBe(s[..|s| - 1]) + s[|s| - 1]
  }

  /** `to_ne_bytes` of an `n`-byte unsigned integer. */
  function ToNe(e: Endian, v: nat, n: nat): (s: seq<byte>)
    ensures |s| == n
  {
    if e.Little? then ToLe(v, n) else ToBe(v, n)
  }

  /** `from_ne_bytes`. */
  function FromNe(e: Endian, s: seq<byte>): nat {
    if e.Little? then FromLe(s) else FromBe(s)
  }

  lemma {:induction false} LeRoundTrip(v: nat, n: nat)
    requires v < Pow256(n)
    ensures FromLe(ToLe(v, n)) == v
  {
    if n > 0 {
      LeRoundTrip(v / 256, n - 1);
      assert ToLe(v, n)[1..] == ToLe(v / 256, n - 1);
    }
  }

  lemma LowByte(low: byte, high: nat)
    ensures (low + 256 * high) % 256 == low && (low + 256 * high) / 256 == high
  {
  }

  lemma {:induction false} LeUnique(s: seq<byte>)
    ensures FromLe(s) < Pow256(|s|)
    ensures ToLe(FromLe(s), |s|) == s
  {
    if s != [] {
      LeUnique(s[1..]);
      LowByte(s[0], FromLe(s[1..]));
      assert [s[0]] + s[1..] == s;
    }
  }

  lemma {:induction false} BeRoundTrip(v: nat, n: nat)
    requires v < Pow256(n)
    ensures FromBe(ToBe(v, n)) == v
  {
    if n > 0 {
      BeRoundTrip(v / 256, n - 1);
      assert ToBe(v, n)[..n - 1] == ToBe(v / 256, n - 1);
    }
  }

  lemma {:induction false} BeUnique(s: seq<byte>)
    ensures FromBe(s) < Pow256(|s|)
    ensures ToBe(FromBe(s), |s|) == s
  {
    if s != [] {
      var front, last := s[..|s| - 1], s[|s| - 1];
      BeUnique(front);
      LowByte(last, FromBe(front));
      assert front + [last] == s;
    }
  }

  /** Decoding inverts encoding on every value that fits. */
  lemma NeRoundTrip(e: Endian, v: nat, n: nat)
    requires v < Pow256(n)
    ensures FromNe(e, ToNe(e, v, n)) == v
  {
    LeRoundTrip(v, n);
    BeRoundTrip(v, n);
  }

  /** Every byte string is the encoding of the value it decodes to. */
  lemma NeUnique(e: Endian, s: seq<byte>)
    ensures FromNe(e, s) < Pow256(|s|)
    ensures ToNe(e, FromNe(e, s), |s|) == s
  {
    LeUnique(s);
    BeUnique(s);
  }

  // -- the widths the crate uses ---------------------------------------------

  lemma Widths()
    ensures Pow256(2) == 0x1_0000 && Pow256(4) == 0x1_0000_0000
  {
    assert Pow256(3) == 0x100_0000;
  }

  function U16Bytes(e: Endian, v: u16): (s: seq<byte>)
    ensures |s| == 2
  {
    ToNe(e, v, 2)
  }

  function U32Bytes(e: Endian, v: u32): (s: seq<byte>)
    ensures |s| == 4
  {
    ToNe(e, v, 4)
  }

  function U16Of(e: Endian, s: seq<byte>): u16
    requires |s| == 2
  {
    NeUnique(e, s);
    Widths();
    FromNe(e, s)
  }

  function U32Of(e: Endian, s: seq<byte>): u32
    requires |s| == 4
  {
    NeUnique(e, s);
    Widths();
    FromNe(e, s)
  }

  /** `u32 as i32`: two's complement reinterpretation. */
  function AsI32(v: u32): i32 {
    if v < 0x8000_0000 then v else v - 0x1_0000_0000
  }

  function AsU32(v: i32): u32 {
    if v >= 0 then v else v + 0x1_0000_0000
  }

  function I32Bytes(e: Endian, v: i32): (s: seq<byte>)
    ensures |s| == 4
  {
    U32Bytes(e, AsU32(v))
  }

  function I32Of(e: Endian, s: seq<byte>): i32
    requires |s| == 4
  {
    AsI32(U32Of(e, s))
  }

  lemma U16RoundTrip(e: Endian, v: u16)
    ensures U16Of(e, U16Bytes(e, v)) == v
  {
    Widths();
    NeRoundTrip(e, v, 2);
  }

  lemma U32RoundTrip(e: Endian, v: u32)
    ensures U32Of(e, U32Bytes(e, v)) == v
  {
    Widths();
    NeRoundTrip(e, v, 4);
  }

  lemma I32RoundTrip(e: Endian, v: i32)
    ensures I32Of(e, I32Bytes(e, v)) == v
  {
    U32RoundTrip(e, AsU32(v));
  }

  lemma U16Unique(e: Endian, s: seq<byte>)
    requires |s| == 2
    ensures U16Bytes(e, U16Of(e, s)) == s
  {
    NeUnique(e, s);
  }

  lemma U32Unique(e: Endian, s: seq<byte>)
    requires |s| == 4
    ensures U32Bytes(e, U32Of(e, s)) == s
  {
    NeUnique(e, s);
  }

  lemma I32Unique(e: Endian, s: seq<byte>)
    requires |s| == 4
    ensures I32Bytes(e, I32Of(e, s)) == s
  {
    U32Unique(e, s);
  }

  // -- byte swapping -----------------------------------------------------------

  /** `swap_bytes` of an `n`-byte integer. */
  function SwapBytes(v: nat, n: nat): (r: nat)
    ensures r < Pow256(n)
  {
    LeUnique(ToBe(v, n));
    FromLe(ToBe(v, n))
  }

  /** `u16::to_be`, which is also `u16::from_be`. */
  function Be16(e: Endian, v: u16): u16 {
    Widths();
    if e.Big? then v else SwapBytes(v, 2)
  }

  /** `u32::to_be`, which is also `u32::from_be`. */
  function Be32(e: Endian, v: u32): u32 {
    Widths();
    if e.Big? then v else SwapBytes(v, 4)
  }

  /** Reading the same bytes in the two orders: what one side builds from the front the other strips there. */
  lemma {:induction false} LittleReadsBig(v: nat, n: nat)
    requires v < Pow256(n)
    ensures ToBe(FromLe(ToBe(v, n)), n) == ToLe(v, n)
  {
    LeIsMirror(v, n);
    LeUnique(ToBe(v, n));
    LeIsMirror(FromLe(ToBe(v, n)), n);
    var be, le := ToBe(v, n), ToLe(v, n);
    var back := ToBe(FromLe(be), n);
    assert back == le by {
      forall i | 0 <= i < n
        ensures back[i] == le[i]
      {
        assert back[i] == ToLe(FromLe(be), n)[n - 1 - i] == be[n - 1 - i];
        assert be[n - 1 - i] == le[i];
      }
    }
  }

  lemma {:induction false} LeIsMirror(v: nat, n: nat)
    ensures forall i :: 0 <= i < n ==> ToBe(v, n)[i] == ToLe(v, n)[n - 1 - i]
    ensures forall i :: 0 <= i < n ==> ToLe(v, n)[i] == ToBe(v, n)[n - 1 - i]
  {
    if n > 0 {
      LeIsMirror(v / 256, n - 1);
    }
  }

  lemma SwapTwice(v: nat, n: nat)
    requires v < Pow256(n)
    ensures SwapBytes(SwapBytes(v, n), n) == v
    ensures ToLe(SwapBytes(v, n), n) == ToBe(v, n)
  {
    LeUnique(ToBe(v, n));
    LittleReadsBig(v, n);
    LeRoundTrip(v, n);
  }

  /** On every host the stored bytes of `to_be(v)` are `v` in network order, and the swap undoes itself. */
  lemma Be16IsNetworkOrder(e: Endian, v: u16)
    ensures U16Bytes(e, Be16(e, v)) == U16Bytes(Big, v)
    ensures Be16(e, Be16(e, v)) == v
  {
    Widths();
    SwapTwice(v, 2);
  }

  lemma Be32IsNetworkOrder(e: Endian, v: u32)
    ensures U32Bytes(e, Be32(e, v)) == U32Bytes(Big, v)
    ensures Be32(e, Be32(e, v)) == v
  {
    Widths();
    SwapTwice(v, 4);
  }

  function Zeros(n: nat): (s: seq<byte>)
    ensures |s| == n && forall i :: 0 <= i < n ==> s[i] == 0
  {
    seq(n, _ => 0)
  }

  function Min(a: int, b: int): int {
    if a <= b then a else b
  }

  function Max(a: int, b: int): int {
    if a >= b then a else b
  }
}
