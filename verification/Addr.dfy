/** Linux `sockaddr_in` / `sockaddr_in6` and lists of them packed back to back. */
module Addr {
  import opened Bytes
  import opened Types

  type Octets4 = s: seq<byte> | |s| == 4 witness [0, 0, 0, 0]
  type Octets16 = s: seq<byte> | |s| == 16 witness Zeros(16)

  datatype SocketAddr =
    | V4(ip4: Octets4, port: u16)
    | V6(ip6: Octets16, port: u16, flowinfo: u32, scopeId: u32)

  const AF_INET: u16 := 2
  const AF_INET6: u16 := 10
  const SOCKADDR_IN_LEN := 16
  const SOCKADDR_IN6_LEN := 28

  function Len(a: SocketAddr): nat {
    if a.V4? then SOCKADDR_IN_LEN else SOCKADDR_IN6_LEN
  }

  /** The layout, field by field: family and flow/scope in host order, port in network order. */
  function Layout(e: Endian, a: SocketAddr): (s: seq<byte>)
    ensures |s| == Len(a)
  {
    match a
    case V4(ip, port) => U16Bytes(e, AF_INET) + U16Bytes(Big, port) + ip + Zeros(8)
    case V6(ip, port, flow, scope) =>
      U16Bytes(e, AF_INET6) + U16Bytes(Big, port) + U32Bytes(e, flow) + ip + U32Bytes(e, scope)
  }

  /** `slice[at..at + |data|].copy_from_slice(data)`. */
  method CopyInto(out: array<byte>, at: nat, data: seq<byte>)
    requires at + |data| <= out.Length
    modifies out
    ensures out[..] == Splice(old(out[..]), at, data)
  {
    forall i | 0 <= i < |data| {
      out[at + i] := data[i];
    }
  }

  ghost function Splice(s: seq<byte>, at: nat, data: seq<byte>): seq<byte>
    requires at + |data| <= |s|
  {
    s[..at] + data + s[at + |data|..]
  }

  /** `done` is written, the next `gap` bytes are zero, `tail` is not to be touched. */
  ghost predicate Filled(s: seq<byte>, done: seq<byte>, gap: nat, tail: seq<byte>) {
    s == done + (Zeros(gap) + tail)
  }

  /** Zeroes the bytes that are about to be written. */
  method ZeroOut(out: array<byte>, at: nat, n: nat)
    requires at + n <= out.Length
    modifies out
    ensures Filled(out[..], old(out[..at]), n, old(out[at + n..]))
  {
    CopyInto(out, at, Zeros(n));
  }

  /** Copies the next field to the front of the zeroed gap. */
  method PutNext(out: array<byte>, at: nat, data: seq<byte>, ghost done: seq<byte>, ghost gap: nat, ghost tail: seq<byte>)
    requires Filled(out[..], done, gap, tail) && at == |done| && |data| <= gap
    modifies out
    ensures Filled(out[..], done + data, gap - |data|, tail)
  {
    assert |out[..]| == out.Length == |done| + gap + |tail|;
    CopyInto(out, at, data);
  }

  lemma FilledUp(s: seq<byte>, done: seq<byte>, gap: nat, tail: seq<byte>)
    requires Filled(s, done, gap, tail)
    ensures s == done + Zeros(gap) + tail
  {
  }

  method WriteV4(e: Endian, a: SocketAddr, out: array<byte>)
    requires a.V4? && SOCKADDR_IN_LEN <= out.Length
    modifies out
    ensures out[..] == Layout(e, a) + old(out[SOCKADDR_IN_LEN..])
  {
    hide U16Bytes, U32Bytes, Filled;
    ghost var tail := out[SOCKADDR_IN_LEN..];
    var family, port := U16Bytes(e, AF_INET), U16Bytes(Big, a.port);
    ZeroOut(out, 0, SOCKADDR_IN_LEN);
    PutNext(out, 0, family, [], 16, tail);
    assert [] + family == family;
    PutNext(out, 2, port, family, 14, tail);
    PutNext(out, 4, a.ip4, family + port, 12, tail);
    FilledUp(out[..], family + port + a.ip4, 8, tail);
  }

  method WriteV6(e: Endian, a: SocketAddr, out: array<byte>)
    requires a.V6? && SOCKADDR_IN6_LEN <= out.Length
    modifies out
    ensures out[..] == Layout(e, a) + old(out[SOCKADDR_IN6_LEN..])
  {
    hide U16Bytes, U32Bytes, Filled;
    ghost var tail := out[SOCKADDR_IN6_LEN..];
    var family, port := U16Bytes(e, AF_INET6), U16Bytes(Big, a.port);
    var flow, scope := U32Bytes(e, a.flowinfo), U32Bytes(e, a.scopeId);
    ZeroOut(out, 0, SOCKADDR_IN6_LEN);
    PutNext(out, 0, family, [], 28, tail);
    assert [] + family == family;
    PutNext(out, 2, port, family, 26, tail);
    PutNext(out, 4, flow, family + port, 24, tail);
    PutNext(out, 8, a.ip6, family + port + flow, 20, tail);
    PutNext(out, 24, scope, family + port + flow + a.ip6, 4, tail);
    FilledUp(out[..], Layout(e, a), 0, tail);
    assert Layout(e, a) + Zeros(0) == Layout(e, a);
  }

  /** Writes the sockaddr at the head of `out`, touching nothing after it. */
  method WriteSockaddr(e: Endian, a: SocketAddr, out: array<byte>) returns (n: nat)
    requires Len(a) <= out.Length
    modifies out
    ensures n == Len(a)
    ensures out[..] == Layout(e, a) + old(out[n..])
  {
    if a.V4? {
      WriteV4(e, a, out);
      n := SOCKADDR_IN_LEN;
    } else {
      WriteV6(e, a, out);
      n := SOCKADDR_IN6_LEN;
    }
  }

  function ReadSockaddr(e: Endian, buf: seq<byte>): (r: Option<(SocketAddr, nat)>)
    ensures r.Some? ==> r.value.1 == Len(r.value.0) <= |buf|
  {
    if |buf| < 2 then None
    else
      var family := U16Of(e, buf[0..2]);
      if family == AF_INET && |buf| >= SOCKADDR_IN_LEN then
        Some((V4(buf[4..8], U16Of(Big, buf[2..4])), SOCKADDR_IN_LEN))
      else if family == AF_INET6 && |buf| >= SOCKADDR_IN6_LEN then
        Some((V6(buf[8..24], U16Of(Big, buf[2..4]), U32Of(e, buf[4..8]), U32Of(e, buf[24..28])), SOCKADDR_IN6_LEN))
      else None
  }

  /** An address is read exactly if the family is one of the two known ones and its layout is all there. */
  lemma ReadsIff(e: Endian, buf: seq<byte>)
    ensures ReadSockaddr(e, buf).Some? <==>
      && |buf| >= 2
      && var family := U16Of(e, buf[0..2]);
         (family == 2 && |buf| >= 16) || (family == 10 && |buf| >= 28)
    ensures ReadSockaddr(e, buf).Some? ==>
      (ReadSockaddr(e, buf).value.0.V4? <==> U16Of(e, buf[0..2]) == 2)
  {
    hide U16Of, U32Of;
  }

  /** Reading back a written address restores it, whatever follows. */
  lemma SockaddrRoundTrip(e: Endian, a: SocketAddr, more: seq<byte>)
    ensures ReadSockaddr(e, Layout(e, a) + more) == Some((a, Len(a)))
  {
    hide U16Bytes, U32Bytes, U16Of, U32Of;
    var buf := Layout(e, a) + more;
    assert buf[2..4] == U16Bytes(Big, a.port);
    U16RoundTrip(Big, a.port);
    match a
    case V4(ip, _) =>
      assert buf[0..2] == U16Bytes(e, AF_INET);
      U16RoundTrip(e, AF_INET);
      assert buf[4..8] == ip;
    case V6(ip, _, flow, scope) =>
      assert buf[0..2] == U16Bytes(e, AF_INET6);
      U16RoundTrip(e, AF_INET6);
      assert buf[4..8] == U32Bytes(e, flow);
      U32RoundTrip(e, flow);
      assert buf[8..24] == ip;
      assert buf[24..28] == U32Bytes(e, scope);
      U32RoundTrip(e, scope);
  }

  // -- lists ---------------------------------------------------------------------

  function Packed(e: Endian, addrs: seq<SocketAddr>): seq<byte> {
    if addrs == [] then [] else Layout(e, addrs[0]) + Packed(e, addrs[1..])
  }

  lemma {:induction false} PackedAppend(e: Endian, addrs: seq<SocketAddr>, a: SocketAddr)
    ensures Packed(e, addrs + [a]) == Packed(e, addrs) + Layout(e, a)
  {
    hide Layout;
    var all := addrs + [a];
    if addrs == [] {
      assert all == [a] && all[1..] == [];
    } else {
      PackedAppend(e, addrs[1..], a);
      var first, middle, last := Layout(e, addrs[0]), Packed(e, addrs[1..]), Layout(e, a);
      assert all[1..] == addrs[1..] + [a] && all[0] == addrs[0];
      assert first + (middle + last) == first + middle + last;
    }
  }

  /** One 28-byte scratch array is reused for every entry; no entry's bytes survive into the next. */
  method PackAddrList(e: Endian, addrs: seq<SocketAddr>) returns (out: seq<byte>)
    ensures out == Packed(e, addrs)
  {
    hide Layout;
    out := [];
    var tmp := new byte[SOCKADDR_IN6_LEN](_ => 0);
    for i := 0 to |addrs|
      invariant out == Packed(e, addrs[..i])
    {
      PackedAppend(e, addrs[..i], addrs[i]);
      assert addrs[..i + 1] == addrs[..i] + [addrs[i]];
      var n := WriteSockaddr(e, addrs[i], tmp);
      ghost var layout := Layout(e, addrs[i]);
      assert tmp[..n] == tmp[..][..n] == layout;
      out := out + tmp[..n];
    }
    assert addrs[..|addrs|] == addrs;
  }

  /** `addrs` can be read off the front of `buf`, one after the other. */
  ghost predicate Decodes(e: Endian, buf: seq<byte>, addrs: seq<SocketAddr>)
    decreases |addrs|
  {
    addrs == [] ||
    var r := ReadSockaddr(e, buf);
    r.Some? && r.value.0 == addrs[0] && Decodes(e, buf[r.value.1..], addrs[1..])
  }

  /** What is left of `buf` after reading `addrs` off it. */
  ghost function After(e: Endian, buf: seq<byte>, addrs: seq<SocketAddr>): (rest: seq<byte>)
    requires Decodes(e, buf, addrs)
    ensures |buf| >= |rest| + SOCKADDR_IN_LEN * |addrs|
    decreases |addrs|
  {
    if addrs == [] then buf else After(e, buf[ReadSockaddr(e, buf).value.1..], addrs[1..])
  }

  lemma {:induction false} DecodesSnoc(e: Endian, buf: seq<byte>, addrs: seq<SocketAddr>, a: SocketAddr, n: nat)
    requires Decodes(e, buf, addrs)
    requires ReadSockaddr(e, After(e, buf, addrs)) == Some((a, n))
    ensures Decodes(e, buf, addrs + [a])
    ensures After(e, buf, addrs + [a]) == After(e, buf, addrs)[n..]
    decreases |addrs|
  {
    if addrs == [] {
      assert (addrs + [a])[1..] == [];
    } else {
      DecodesSnoc(e, buf[ReadSockaddr(e, buf).value.1..], addrs[1..], a, n);
      assert (addrs + [a])[1..] == addrs[1..] + [a];
    }
  }

  /** Reading is deterministic: two runs off the same bytes agree as far as both go. */
  lemma {:induction false} DecodesAgree(e: Endian, buf: seq<byte>, short: seq<SocketAddr>, long: seq<SocketAddr>)
    requires Decodes(e, buf, short) && Decodes(e, buf, long)
    requires |short| <= |long|
    ensures short <= long
    decreases |short|
  {
    if short != [] {
      DecodesAgree(e, buf[ReadSockaddr(e, buf).value.1..], short[1..], long[1..]);
    }
  }

  lemma {:induction false} StuckRunIsLongest(e: Endian, buf: seq<byte>, run: seq<SocketAddr>, other: seq<SocketAddr>)
    requires Decodes(e, buf, run) && ReadSockaddr(e, After(e, buf, run)).None?
    requires Decodes(e, buf, other)
    ensures |other| <= |run|
    decreases |run|
  {
    if run != [] && other != [] {
      StuckRunIsLongest(e, buf[ReadSockaddr(e, buf).value.1..], run[1..], other[1..]);
    }
  }

  /** The capacity `read_addr_list` reserves: it does not trust the count. */
  function Reserve(len: nat, count: nat): nat {
    Min(count, len / SOCKADDR_IN_LEN)
  }

  /** On arbitrary bytes: the longest decodable run of at most `count` entries, within the reserved capacity. */
  method ReadAddrList(e: Endian, input: seq<byte>, count: nat) returns (out: seq<SocketAddr>)
    ensures Decodes(e, input, out) && |out| <= count
    ensures forall other :: Decodes(e, input, other) && |other| <= count ==> other <= out
    ensures |out| <= Reserve(|input|, count)
  {
    out := [];
    var buf := input;
    var i := 0;
    while i < count
      invariant 0 <= i == |out| <= count
      invariant Decodes(e, input, out) && buf == After(e, input, out)
    {
      var r := ReadSockaddr(e, buf);
      if r.None? {
        break;
      }
      DecodesSnoc(e, input, out, r.value.0, r.value.1);
      out := out + [r.value.0];
      buf := buf[r.value.1..];
      i := i + 1;
    }
    forall other | Decodes(e, input, other) && |other| <= count
      ensures other <= out
    {
      if i < count {
        StuckRunIsLongest(e, input, out, other);
      }
      DecodesAgree(e, input, other, out);
    }
  }

  lemma PackedStep(e: Endian, addrs: seq<SocketAddr>, more: seq<byte>)
    requires addrs != []
    ensures ReadSockaddr(e, Packed(e, addrs) + more) == Some((addrs[0], Len(addrs[0])))
    ensures (Packed(e, addrs) + more)[Len(addrs[0])..] == Packed(e, addrs[1..]) + more
  {
    hide Layout;
    var first, rest := Layout(e, addrs[0]), Packed(e, addrs[1..]);
    SockaddrRoundTrip(e, addrs[0], rest + more);
    assert first + (rest + more) == first + rest + more;
    assert (first + (rest + more))[|first|..] == rest + more;
  }

  /** A packed list decodes to its own prefixes, whatever bytes follow, and leaves exactly those bytes. */
  lemma {:induction false} PackedDecodes(e: Endian, addrs: seq<SocketAddr>, more: seq<byte>, n: nat)
    requires n <= |addrs|
    ensures Decodes(e, Packed(e, addrs) + more, addrs[..n])
    ensures n == |addrs| ==> After(e, Packed(e, addrs) + more, addrs[..n]) == more
    decreases n
  {
    hide Layout;
    var buf := Packed(e, addrs) + more;
    if n == 0 {
      if addrs == [] {
        assert buf == more;
      }
    } else {
      PackedStep(e, addrs, more);
      PackedDecodes(e, addrs[1..], more, n - 1);
      assert addrs[..n][1..] == addrs[1..][..n - 1];
    }
  }

  /** Any list with the properties `ReadAddrList` promises, read off a packed list, is that list's prefix. */
  lemma ReadingPackedList(e: Endian, addrs: seq<SocketAddr>, more: seq<byte>, count: nat, out: seq<SocketAddr>)
    requires count <= |addrs|
    requires Decodes(e, Packed(e, addrs) + more, out) && |out| <= count
    requires forall other :: Decodes(e, Packed(e, addrs) + more, other) && |other| <= count ==> other <= out
    ensures out == addrs[..count]
  {
    PackedDecodes(e, addrs, more, count);
    assert addrs[..count] <= out;
  }

  lemma PackedPrefixIsWhole(e: Endian, a: seq<SocketAddr>, b: seq<SocketAddr>)
    requires Packed(e, a) == Packed(e, b) && |a| <= |b|
    ensures a == b
  {
    hide Layout;
    PackedDecodes(e, a, [], |a|);
    PackedDecodes(e, b, [], |b|);
    assert Packed(e, a) + [] == Packed(e, b) + [] == Packed(e, a);
    assert a[..|a|] == a && b[..|b|] == b;
    DecodesAgree(e, Packed(e, a), a, b);
    assert ReadSockaddr(e, []) == None;
    StuckRunIsLongest(e, Packed(e, a), a, b);
  }

  /** Different lists have different packed forms. */
  lemma PackingIsInjective(e: Endian, a: seq<SocketAddr>, b: seq<SocketAddr>)
    requires Packed(e, a) == Packed(e, b)
    ensures a == b
  {
    if |a| <= |b| {
      PackedPrefixIsWhole(e, a, b);
    } else {
      PackedPrefixIsWhole(e, b, a);
    }
  }
}
