/** Which byte strings the parser accepts, and exactly which notification each of them denotes. */
module NotificationCodec {
  import opened Bytes
  import opened Types
  import opened Addr
  import opened Notifications

  // -- a reference encoder ---------------------------------------------------------

  /**
   * Everything in a notification's bytes that the parser does not report: header flags (where the variant
   * ignores them), `sn_length`, reserved fields, address storage padding and surplus trailing bytes.
   */
  datatype Slack = Slack(
    headerFlags: u16, length: u32, storage: seq<byte>, legacy: bool, pad: seq<byte>, pad2: seq<byte>,
    trailing: seq<byte>)

  function StateRaw(s: AssocChangeState): u16 {
    match s
    case CommUp => 0
    case CommLost => 1
    case Restart => 2
    case ShutdownComplete => 3
    case CantStartAssoc => 4
    case UnknownState(v) => v
  }

  function PathRaw(s: PeerAddrChangeState): i32 {
    match s
    case Available => 0
    case Unreachable => 1
    case Removed => 2
    case Added => 3
    case MadePrimary => 4
    case Confirmed => 5
    case PotentiallyFailed => 6
    case UnknownPathState(v) => v
  }

  predicate KnownType(t: u16) {
    SCTP_ASSOC_CHANGE <= t <= SCTP_SEND_FAILED_EVENT
  }

  function Header(e: Endian, t: u16, flags: u16, length: u32): (s: seq<byte>)
    ensures |s| == 8
  {
    U16Bytes(e, t) + U16Bytes(e, flags) + U32Bytes(e, length)
  }

  function StreamBytes(e: Endian, streams: seq<u16>): (s: seq<byte>)
    ensures |s| == 2 * |streams|
  {
    if streams == [] then [] else U16Bytes(e, streams[0]) + StreamBytes(e, streams[1..])
  }

  function TypeOf(n: Notification, x: Slack): u16 {
    match n
    case AssocChange(_, _, _, _, _, _) => SCTP_ASSOC_CHANGE
    case PeerAddrChange(_, _, _, _) => SCTP_PEER_ADDR_CHANGE
    case RemoteError(_, _, _) => SCTP_REMOTE_ERROR
    case SendFailed(_, _, _, _, _, _, _) => if x.legacy then SCTP_SEND_FAILED else SCTP_SEND_FAILED_EVENT
    case Shutdown(_) => SCTP_SHUTDOWN_EVENT
    case PartialDelivery(_, _, _, _) => SCTP_PARTIAL_DELIVERY_EVENT
    case AdaptationIndication(_, _) => SCTP_ADAPTATION_INDICATION
    case Authentication(_, _, _, _) => SCTP_AUTHENTICATION_EVENT
    case SenderDry(_) => SCTP_SENDER_DRY_EVENT
    case StreamReset(_, _, _) => SCTP_STREAM_RESET_EVENT
    case AssocReset(_, _, _, _) => SCTP_ASSOC_RESET_EVENT
    case StreamChange(_, _, _, _) => SCTP_STREAM_CHANGE_EVENT
    case Unknown(t, _, _) => t
  }

  /** The bytes after the eight-byte header, field by field as `<uapi/linux/sctp.h>` lays them out. */
  function Body(e: Endian, n: Notification, x: Slack): seq<byte> {
    match n
    case AssocChange(state, error, outbound, inbound, id, info) =>
      U16Bytes(e, StateRaw(state)) + U16Bytes(e, error) + U16Bytes(e, outbound) + U16Bytes(e, inbound)
      + I32Bytes(e, id) + info
    case PeerAddrChange(_, path, error, id) =>
      x.storage + I32Bytes(e, PathRaw(path)) + I32Bytes(e, error) + I32Bytes(e, id) + x.trailing
    case RemoteError(error, id, data) => U16Bytes(Big, error) + x.pad + I32Bytes(e, id) + data
    case SendFailed(_, error, sid, ppid, context, id, payload) =>
      U32Bytes(e, error) + U16Bytes(e, sid) + x.pad + U32Bytes(Big, ppid.id) + U32Bytes(e, context) + x.pad2
      + I32Bytes(e, id) + payload
    case Shutdown(id) => I32Bytes(e, id) + x.trailing
    case PartialDelivery(indication, id, stream, seqNo) =>
      U32Bytes(e, indication) + I32Bytes(e, id) + U32Bytes(e, stream) + U32Bytes(e, seqNo) + x.trailing
    case AdaptationIndication(indication, id) => U32Bytes(e, indication) + I32Bytes(e, id) + x.trailing
    case Authentication(key, altKey, indication, id) =>
      U16Bytes(e, key) + U16Bytes(e, altKey) + U32Bytes(e, indication) + I32Bytes(e, id) + x.trailing
    case SenderDry(id) => I32Bytes(e, id) + x.trailing
    case StreamReset(_, id, streams) => I32Bytes(e, id) + StreamBytes(e, streams) + x.trailing
    case AssocReset(_, id, local, remote) =>
      I32Bytes(e, id) + U32Bytes(e, local) + U32Bytes(e, remote) + x.trailing
    case StreamChange(_, id, instrms, outstrms) =>
      I32Bytes(e, id) + U16Bytes(e, instrms) + U16Bytes(e, outstrms) + x.trailing
    case Unknown(_, _, _) => x.trailing
  }

  function Encode(e: Endian, n: Notification, x: Slack): seq<byte> {
    if n.Unknown? then n.raw else Header(e, TypeOf(n, x), x.headerFlags, x.length) + Body(e, n, x)
  }

  /** `n` is a value the parser can produce and `x` has the sizes `n`'s layout calls for. */
  predicate Fit(e: Endian, n: Notification, x: Slack) {
    match n
    case AssocChange(state, _, _, _, _, _) => AssocStateOf(StateRaw(state)) == state
    case PeerAddrChange(address, path, _, _) =>
      && |x.storage| == 128 && PathStateOf(PathRaw(path)) == path
      && var found := ReadSockaddr(e, x.storage);
         address == if found.Some? then Some(found.value.0) else None
    case RemoteError(_, _, _) => |x.pad| == 2
    case SendFailed(unsent, _, _, _, _, _, _) =>
      && (unsent <==> x.headerFlags == SCTP_DATA_UNSENT)
      && (if x.legacy then |x.pad| == 6 && |x.pad2| == 16 else |x.pad| == 2 && |x.pad2| == 4)
    case StreamReset(flags, _, _) => flags == x.headerFlags && |x.trailing| <= 1
    case AssocReset(flags, _, _, _) => flags == x.headerFlags
    case StreamChange(flags, _, _, _) => flags == x.headerFlags
    case Unknown(t, flags, data) =>
      !KnownType(t) && |data| >= 4 && data[0..2] == U16Bytes(e, t) && data[2..4] == U16Bytes(e, flags)
    case _ => true
  }

  lemma HeaderReads(e: Endian, t: u16, flags: u16, length: u32, body: seq<byte>)
    ensures var buf := Header(e, t, flags, length) + body;
      U16At(e, buf, 0) == Ok(t) && U16At(e, buf, 2) == Ok(flags) && buf[8..] == body
  {
    hide U16Bytes, U32Bytes, U16Of;
    var buf := Header(e, t, flags, length) + body;
    assert buf[0..2] == U16Bytes(e, t) && buf[2..4] == U16Bytes(e, flags);
    U16RoundTrip(e, t);
    U16RoundTrip(e, flags);
  }

  lemma ReadsU16(e: Endian, buf: seq<byte>, off: nat, v: u16)
    requires off + 2 <= |buf| && buf[off..off + 2] == U16Bytes(e, v)
    ensures U16At(e, buf, off) == Ok(v)
  {
    U16RoundTrip(e, v);
  }

  lemma ReadsU32(e: Endian, buf: seq<byte>, off: nat, v: u32)
    requires off + 4 <= |buf| && buf[off..off + 4] == U32Bytes(e, v)
    ensures U32At(e, buf, off) == Ok(v)
  {
    U32RoundTrip(e, v);
  }

  lemma ReadsI32(e: Endian, buf: seq<byte>, off: nat, v: i32)
    requires off + 4 <= |buf| && buf[off..off + 4] == I32Bytes(e, v)
    ensures I32At(e, buf, off) == Ok(v)
  {
    I32RoundTrip(e, v);
  }

  lemma ReadsBe16(e: Endian, buf: seq<byte>, off: nat, v: u16)
    requires off + 2 <= |buf| && buf[off..off + 2] == U16Bytes(Big, v)
    ensures U16At(e, buf, off).Ok? && Be16(e, U16At(e, buf, off).value) == v
  {
    Be16IsNetworkOrder(e, v);
    U16RoundTrip(e, Be16(e, v));
  }

  lemma ReadsPpid(e: Endian, buf: seq<byte>, off: nat, p: Ppid)
    requires off + 4 <= |buf| && buf[off..off + 4] == U32Bytes(Big, p.id)
    ensures U32At(e, buf, off).Ok? && Ppid.FromWire(e, U32At(e, buf, off).value) == p
  {
    PpidOnTheWire(e, p);
  }

  lemma {:induction false} StreamsRoundTrip(e: Endian, streams: seq<u16>, odd: seq<byte>)
    requires |odd| <= 1
    ensures StreamIds(e, StreamBytes(e, streams) + odd) == streams
  {
    if streams != [] {
      StreamsRoundTrip(e, streams[1..], odd);
      var s := StreamBytes(e, streams) + odd;
      assert s[0..2] == U16Bytes(e, streams[0]);
      assert s[2..] == StreamBytes(e, streams[1..]) + odd;
      U16RoundTrip(e, streams[0]);
    }
  }

  // -- parse inverts the encoder, variant by variant --------------------------------

  lemma AssocChangeParses(e: Endian, n: Notification, x: Slack)
    requires n.AssocChange? && Fit(e, n, x)
    ensures Parse(e, Encode(e, n, x)) == Ok(n)
  {
    hide U16At, U32At, I32At, U16Bytes, U32Bytes, I32Bytes, Header;
    var body, buf := Body(e, n, x), Encode(e, n, x);
    HeaderReads(e, TypeOf(n, x), x.headerFlags, x.length, body);
    ReadsU16(e, buf, 8, StateRaw(n.state));
    ReadsU16(e, buf, 10, n.sacError);
    ReadsU16(e, buf, 12, n.outbound);
    ReadsU16(e, buf, 14, n.inbound);
    ReadsI32(e, buf, 16, n.assocId);
    assert Tail(buf, 20) == n.info;
  }

  lemma PeerAddrChangeParses(e: Endian, n: Notification, x: Slack)
    requires n.PeerAddrChange? && Fit(e, n, x)
    ensures Parse(e, Encode(e, n, x)) == Ok(n)
  {
    hide U16At, U32At, I32At, U16Bytes, U32Bytes, I32Bytes, Header, ReadSockaddr;
    var body, buf := Body(e, n, x), Encode(e, n, x);
    HeaderReads(e, TypeOf(n, x), x.headerFlags, x.length, body);
    assert buf[8..136] == x.storage;
    ReadsI32(e, buf, 136, PathRaw(n.path));
    ReadsI32(e, buf, 140, n.spcError);
    ReadsI32(e, buf, 144, n.assocId);
  }

  lemma RemoteErrorParses(e: Endian, n: Notification, x: Slack)
    requires n.RemoteError? && Fit(e, n, x)
    ensures Parse(e, Encode(e, n, x)) == Ok(n)
  {
    hide U16At, U32At, I32At, U16Bytes, U32Bytes, I32Bytes, Header, Be16;
    var body, buf := Body(e, n, x), Encode(e, n, x);
    HeaderReads(e, TypeOf(n, x), x.headerFlags, x.length, body);
    ReadsBe16(e, buf, 8, n.sreError);
    ReadsI32(e, buf, 12, n.assocId);
    assert Tail(buf, 16) == n.data;
  }

  lemma LegacySendFailedParses(e: Endian, n: Notification, x: Slack)
    requires n.SendFailed? && x.legacy && Fit(e, n, x)
    ensures Parse(e, Encode(e, n, x)) == Ok(n)
  {
    hide U16At, U32At, I32At, U16Bytes, U32Bytes, I32Bytes, Header, Be32;
    var body, buf := Body(e, n, x), Encode(e, n, x);
    HeaderReads(e, TypeOf(n, x), x.headerFlags, x.length, body);
    ReadsU32(e, buf, 8, n.ssfError);
    ReadsU16(e, buf, 12, n.sid);
    ReadsPpid(e, buf, 20, n.ppid);
    assert buf[24..28] == U32Bytes(e, n.context) && buf[44..48] == I32Bytes(e, n.assocId);
    ReadsU32(e, buf, 24, n.context);
    ReadsI32(e, buf, 44, n.assocId);
    assert Tail(buf, 48) == n.payload;
  }

  lemma SendFailedEventParses(e: Endian, n: Notification, x: Slack)
    requires n.SendFailed? && !x.legacy && Fit(e, n, x)
    ensures Parse(e, Encode(e, n, x)) == Ok(n)
  {
    hide U16At, U32At, I32At, U16Bytes, U32Bytes, I32Bytes, Header, Be32;
    var body, buf := Body(e, n, x), Encode(e, n, x);
    HeaderReads(e, TypeOf(n, x), x.headerFlags, x.length, body);
    ReadsU32(e, buf, 8, n.ssfError);
    ReadsU16(e, buf, 12, n.sid);
    ReadsPpid(e, buf, 16, n.ppid);
    assert buf[20..24] == U32Bytes(e, n.context) && buf[28..32] == I32Bytes(e, n.assocId);
    ReadsU32(e, buf, 20, n.context);
    ReadsI32(e, buf, 28, n.assocId);
    assert Tail(buf, 32) == n.payload;
  }

  lemma IdOnlyParses(e: Endian, n: Notification, x: Slack)
    requires (n.Shutdown? || n.SenderDry?) && Fit(e, n, x)
    ensures Parse(e, Encode(e, n, x)) == Ok(n)
  {
    hide U16At, U32At, I32At, U16Bytes, U32Bytes, I32Bytes, Header;
    var body, buf := Body(e, n, x), Encode(e, n, x);
    HeaderReads(e, TypeOf(n, x), x.headerFlags, x.length, body);
    ReadsI32(e, buf, 8, n.assocId);
  }

  lemma PartialDeliveryParses(e: Endian, n: Notification, x: Slack)
    requires n.PartialDelivery? && Fit(e, n, x)
    ensures Parse(e, Encode(e, n, x)) == Ok(n)
  {
    hide U16At, U32At, I32At, U16Bytes, U32Bytes, I32Bytes, Header;
    var body, buf := Body(e, n, x), Encode(e, n, x);
    HeaderReads(e, TypeOf(n, x), x.headerFlags, x.length, body);
    ReadsU32(e, buf, 8, n.indication);
    ReadsI32(e, buf, 12, n.assocId);
    ReadsU32(e, buf, 16, n.stream);
    ReadsU32(e, buf, 20, n.seqNo);
  }

  lemma AdaptationParses(e: Endian, n: Notification, x: Slack)
    requires n.AdaptationIndication? && Fit(e, n, x)
    ensures Parse(e, Encode(e, n, x)) == Ok(n)
  {
    hide U16At, U32At, I32At, U16Bytes, U32Bytes, I32Bytes, Header;
    var body, buf := Body(e, n, x), Encode(e, n, x);
    HeaderReads(e, TypeOf(n, x), x.headerFlags, x.length, body);
    ReadsU32(e, buf, 8, n.indication);
    ReadsI32(e, buf, 12, n.assocId);
  }

  lemma AuthenticationParses(e: Endian, n: Notification, x: Slack)
    requires n.Authentication? && Fit(e, n, x)
    ensures Parse(e, Encode(e, n, x)) == Ok(n)
  {
    hide U16At, U32At, I32At, U16Bytes, U32Bytes, I32Bytes, Header;
    var body, buf := Body(e, n, x), Encode(e, n, x);
    HeaderReads(e, TypeOf(n, x), x.headerFlags, x.length, body);
    ReadsU16(e, buf, 8, n.key);
    ReadsU16(e, buf, 10, n.altKey);
    ReadsU32(e, buf, 12, n.indication);
    ReadsI32(e, buf, 16, n.assocId);
  }

  lemma StreamResetParses(e: Endian, n: Notification, x: Slack)
    requires n.StreamReset? && Fit(e, n, x)
    ensures Parse(e, Encode(e, n, x)) == Ok(n)
  {
    hide U16At, U32At, I32At, U16Bytes, U32Bytes, I32Bytes, Header, StreamIds, StreamBytes;
    var body, buf := Body(e, n, x), Encode(e, n, x);
    HeaderReads(e, TypeOf(n, x), x.headerFlags, x.length, body);
    ReadsI32(e, buf, 8, n.assocId);
    assert Tail(buf, 12) == StreamBytes(e, n.streams) + x.trailing;
    StreamsRoundTrip(e, n.streams, x.trailing);
  }

  lemma ReconfigParses(e: Endian, n: Notification, x: Slack)
    requires (n.AssocReset? || n.StreamChange?) && Fit(e, n, x)
    ensures Parse(e, Encode(e, n, x)) == Ok(n)
  {
    hide U16At, U32At, I32At, U16Bytes, U32Bytes, I32Bytes, Header;
    var body, buf := Body(e, n, x), Encode(e, n, x);
    HeaderReads(e, TypeOf(n, x), x.headerFlags, x.length, body);
    ReadsI32(e, buf, 8, n.assocId);
    if n.AssocReset? {
      ReadsU32(e, buf, 12, n.localTsn);
      ReadsU32(e, buf, 16, n.remoteTsn);
    } else {
      ReadsU16(e, buf, 12, n.instrms);
      ReadsU16(e, buf, 14, n.outstrms);
    }
  }

  lemma UnknownParses(e: Endian, n: Notification, x: Slack)
    requires n.Unknown? && Fit(e, n, x)
    ensures Parse(e, Encode(e, n, x)) == Ok(n)
  {
    hide U16At, U16Bytes;
    ReadsU16(e, n.raw, 0, n.snType);
    ReadsU16(e, n.raw, 2, n.flags);
  }

  /** Whatever the unreported bytes are, the parser recovers every field of every variant. */
  lemma ParseInvertsEncode(e: Endian, n: Notification, x: Slack)
    requires Fit(e, n, x)
    ensures Parse(e, Encode(e, n, x)) == Ok(n)
  {
    hide Parse, Encode, Fit;
    match n
    case AssocChange(_, _, _, _, _, _) => AssocChangeParses(e, n, x);
    case PeerAddrChange(_, _, _, _) => PeerAddrChangeParses(e, n, x);
    case RemoteError(_, _, _) => RemoteErrorParses(e, n, x);
    case SendFailed(_, _, _, _, _, _, _) =>
      if x.legacy {
        LegacySendFailedParses(e, n, x);
      } else {
        SendFailedEventParses(e, n, x);
      }
    case Shutdown(_) => IdOnlyParses(e, n, x);
    case PartialDelivery(_, _, _, _) => PartialDeliveryParses(e, n, x);
    case AdaptationIndication(_, _) => AdaptationParses(e, n, x);
    case Authentication(_, _, _, _) => AuthenticationParses(e, n, x);
    case SenderDry(_) => IdOnlyParses(e, n, x);
    case StreamReset(_, _, _) => StreamResetParses(e, n, x);
    case AssocReset(_, _, _, _) => ReconfigParses(e, n, x);
    case StreamChange(_, _, _, _) => ReconfigParses(e, n, x);
    case Unknown(_, _, _) => UnknownParses(e, n, x);
  }

  /** Where the two send-failure layouts keep the PPID and the payload. */
  lemma SendFailureOffsets(e: Endian, f: Notification, x: Slack)
    requires f.SendFailed? && Fit(e, f, x)
    ensures var (ppidAt, payloadAt) := if x.legacy then (20, 48) else (16, 32);
      && |Encode(e, f, x)| == payloadAt + |f.payload|
      && Encode(e, f, x)[ppidAt..ppidAt + 4] == U32Bytes(Big, f.ppid.id)
      && Encode(e, f, x)[payloadAt..] == f.payload
  {
    hide U16Bytes, U32Bytes, I32Bytes, Header;
    var before := Header(e, TypeOf(f, x), x.headerFlags, x.length)
                  + (U32Bytes(e, f.ssfError) + U16Bytes(e, f.sid) + x.pad);
    var ppid := U32Bytes(Big, f.ppid.id);
    var middle := U32Bytes(e, f.context) + x.pad2 + I32Bytes(e, f.assocId);
    assert Encode(e, f, x) == before + ppid + middle + f.payload;
  }

  /** The legacy and the new send-failure layout of one failed message parse to the same value. */
  lemma SendFailureLayoutsAgree(e: Endian, f: Notification, legacy: Slack, modern: Slack)
    requires f.SendFailed? && legacy.legacy && !modern.legacy
    requires Fit(e, f, legacy) && Fit(e, f, modern)
    ensures Parse(e, Encode(e, f, legacy)) == Parse(e, Encode(e, f, modern)) == Ok(f)
    ensures |Encode(e, f, legacy)| == |Encode(e, f, modern)| + 16 >= 48
    ensures Encode(e, f, legacy)[20..24] == Encode(e, f, modern)[16..20] == U32Bytes(Big, f.ppid.id)
    ensures Encode(e, f, legacy)[48..] == Encode(e, f, modern)[32..] == f.payload
  {
    hide Parse, Encode, Fit;
    ParseInvertsEncode(e, f, legacy);
    ParseInvertsEncode(e, f, modern);
    SendFailureOffsets(e, f, legacy);
    SendFailureOffsets(e, f, modern);
  }

  // -- arbitrary bytes ------------------------------------------------------------------

  /** `sizeof` of each notification struct up to its variable part. */
  function FixedSize(t: u16): nat {
    if t == SCTP_ASSOC_CHANGE then 20
    else if t == SCTP_PEER_ADDR_CHANGE then 148
    else if t == SCTP_REMOTE_ERROR then 16
    else if t == SCTP_SEND_FAILED then 48
    else if t == SCTP_SEND_FAILED_EVENT then 32
    else if t == SCTP_SHUTDOWN_EVENT then 12
    else if t == SCTP_PARTIAL_DELIVERY_EVENT then 24
    else if t == SCTP_ADAPTATION_INDICATION then 16
    else if t == SCTP_AUTHENTICATION_EVENT then 20
    else if t == SCTP_SENDER_DRY_EVENT then 12
    else if t == SCTP_STREAM_RESET_EVENT then 12
    else if t == SCTP_ASSOC_RESET_EVENT then 20
    else if t == SCTP_STREAM_CHANGE_EVENT then 16
    else 4
  }

  /** Parsing succeeds exactly when the length reaches the type's fixed size; otherwise it is InvalidData. */
  lemma ParseSucceedsIff(e: Endian, buf: seq<byte>)
    ensures Parse(e, buf).Ok? <==> |buf| >= 4 && |buf| >= FixedSize(U16Of(e, buf[0..2]))
    ensures Parse(e, buf).Err? ==> Parse(e, buf).error.InvalidData?
  {
    hide U16Of, U32Of, ReadSockaddr, StreamIds, Be16, Be32, AssocStateOf, PathStateOf;
  }

  /** Which type code gives which variant, and which state code announces what (section 6.1 of RFC 6458). */
  lemma TypeDeterminesVariant(e: Endian, buf: seq<byte>)
    requires Parse(e, buf).Ok?
    ensures var n, t := Parse(e, buf).value, U16Of(e, buf[0..2]);
      && (n.AssocChange? <==> t == 0x8001) && (n.PeerAddrChange? <==> t == 0x8002)
      && (n.SendFailed? <==> t == 0x8003 || t == 0x800d) && (n.RemoteError? <==> t == 0x8004)
      && (n.Shutdown? <==> t == 0x8005) && (n.PartialDelivery? <==> t == 0x8006)
      && (n.AdaptationIndication? <==> t == 0x8007) && (n.Authentication? <==> t == 0x8008)
      && (n.SenderDry? <==> t == 0x8009) && (n.StreamReset? <==> t == 0x800a)
      && (n.AssocReset? <==> t == 0x800b) && (n.StreamChange? <==> t == 0x800c)
      && (n.AssocChange? ==>
            var code := U16Of(e, buf[8..10]);
            && (n.state == CommUp <==> code == 0) && (n.state == CommLost <==> code == 1)
            && (n.state == Restart <==> code == 2) && (n.state == ShutdownComplete <==> code == 3)
            && (n.state == CantStartAssoc <==> code == 4))
      && (n.SendFailed? ==> (n.unsent <==> U16Of(e, buf[2..4]) == 0))
  {
    hide U16Of, U32Of, ReadSockaddr, StreamIds, Be16, Be32, PathStateOf;
  }

  /** The unreported bytes of an accepted buffer. */
  function SlackOf(e: Endian, buf: seq<byte>): Slack
    requires Parse(e, buf).Ok?
  {
    ParseSucceedsIff(e, buf);
    var t := U16Of(e, buf[0..2]);
    var flags := U16Of(e, buf[2..4]);
    var length := if |buf| >= 8 then U32Of(e, buf[4..8]) else 0;
    var size := FixedSize(t);
    var none := Slack(flags, length, [], false, [], [], buf[size..]);
    if t == SCTP_PEER_ADDR_CHANGE then none.(storage := buf[8..136])
    else if t == SCTP_REMOTE_ERROR then none.(pad := buf[10..12])
    else if t == SCTP_SEND_FAILED then none.(legacy := true, pad := buf[14..20], pad2 := buf[28..44])
    else if t == SCTP_SEND_FAILED_EVENT then none.(pad := buf[14..16], pad2 := buf[24..28])
    else if t == SCTP_STREAM_RESET_EVENT then none.(trailing := buf[12 + (|buf| - 12) / 2 * 2..])
    else none
  }

  lemma {:induction false} StreamBytesOfIds(e: Endian, s: seq<byte>)
    ensures StreamBytes(e, StreamIds(e, s)) + s[|s| / 2 * 2..] == s
    ensures |StreamIds(e, s)| == |s| / 2
  {
    hide U16Of, U16Bytes;
    if |s| >= 2 {
      StreamBytesOfIds(e, s[2..]);
      U16Unique(e, s[0..2]);
      var rest := s[2..];
      assert StreamIds(e, s)[1..] == StreamIds(e, rest);
      assert StreamBytes(e, StreamIds(e, s)) == s[0..2] + StreamBytes(e, StreamIds(e, rest));
      assert s[|s| / 2 * 2..] == rest[|rest| / 2 * 2..];
      assert s == s[0..2] + rest;
    }
  }

  lemma HeaderOf(e: Endian, buf: seq<byte>)
    requires |buf| >= 8
    ensures buf == Header(e, U16Of(e, buf[0..2]), U16Of(e, buf[2..4]), U32Of(e, buf[4..8])) + buf[8..]
  {
    hide U16Bytes, U32Bytes, U16Of, U32Of;
    U16Unique(e, buf[0..2]);
    U16Unique(e, buf[2..4]);
    U32Unique(e, buf[4..8]);
  }

  lemma Be16Stored(e: Endian, s: seq<byte>)
    requires |s| == 2
    ensures U16Bytes(Big, Be16(e, U16Of(e, s))) == s
  {
    var w := U16Of(e, s);
    Be16IsNetworkOrder(e, Be16(e, w));
    Be16IsNetworkOrder(e, w);
    U16Unique(e, s);
  }

  lemma PpidStored(e: Endian, s: seq<byte>)
    requires |s| == 4
    ensures U32Bytes(Big, Ppid.FromWire(e, U32Of(e, s)).id) == s
  {
    var w := U32Of(e, s);
    Be32IsNetworkOrder(e, Be32(e, w));
    Be32IsNetworkOrder(e, w);
    U32Unique(e, s);
  }

  /** The goal of the variant lemmas below: an accepted buffer is an encoding of what it parsed to. */
  predicate Recovered(e: Endian, buf: seq<byte>)
    requires Parse(e, buf).Ok?
  {
    var n, x := Parse(e, buf).value, SlackOf(e, buf);
    Fit(e, n, x) && Encode(e, n, x) == buf
  }

  lemma StatesAreCanonical(v: u16, w: i32)
    ensures StateRaw(AssocStateOf(v)) == v && PathRaw(PathStateOf(w)) == w
  {
  }

  lemma AssocChangeRecovered(e: Endian, buf: seq<byte>)
    requires Parse(e, buf).Ok? && Parse(e, buf).value.AssocChange?
    ensures Recovered(e, buf)
  {
    hide U16Bytes, U32Bytes, U16Of, U32Of, I32Bytes, Header, ReadSockaddr, StreamIds, Be16, Be32, AssocStateOf, StateRaw;
    HeaderOf(e, buf);
    StatesAreCanonical(U16Of(e, buf[8..10]), 0);
    U16Unique(e, buf[8..10]);
    U16Unique(e, buf[10..12]);
    U16Unique(e, buf[12..14]);
    U16Unique(e, buf[14..16]);
    I32Unique(e, buf[16..20]);
    assert buf[8..] == buf[8..10] + buf[10..12] + buf[12..14] + buf[14..16] + buf[16..20] + buf[20..];
  }

  lemma PeerAddrChangeParts(e: Endian, buf: seq<byte>)
    requires Parse(e, buf).Ok? && Parse(e, buf).value.PeerAddrChange?
    ensures |buf| >= 148 && U16Of(e, buf[0..2]) == SCTP_PEER_ADDR_CHANGE
    ensures var found := ReadSockaddr(e, buf[8..136]);
      Parse(e, buf).value == PeerAddrChange(if found.Some? then Some(found.value.0) else None,
                                            PathStateOf(I32Of(e, buf[136..140])), I32Of(e, buf[140..144]),
                                            I32Of(e, buf[144..148]))
    ensures SlackOf(e, buf).headerFlags == U16Of(e, buf[2..4]) && SlackOf(e, buf).length == U32Of(e, buf[4..8])
    ensures SlackOf(e, buf).storage == buf[8..136] && SlackOf(e, buf).trailing == buf[148..]
  {
    hide U16Of, U32Of, ReadSockaddr, StreamIds, Be16, Be32, AssocStateOf, PathStateOf;
  }

  lemma PeerAddrChangeRecovered(e: Endian, buf: seq<byte>)
    requires Parse(e, buf).Ok? && Parse(e, buf).value.PeerAddrChange?
    ensures Recovered(e, buf)
  {
    hide U16Bytes, U32Bytes, U16Of, U32Of, I32Bytes, I32Of, Header, Parse, SlackOf, ReadSockaddr, PathStateOf, PathRaw;
    PeerAddrChangeParts(e, buf);
    HeaderOf(e, buf);
    StatesAreCanonical(0, I32Of(e, buf[136..140]));
    I32Unique(e, buf[136..140]);
    I32Unique(e, buf[140..144]);
    I32Unique(e, buf[144..148]);
    assert buf[8..] == buf[8..136] + buf[136..140] + buf[140..144] + buf[144..148] + buf[148..];
  }

  lemma RemoteErrorRecovered(e: Endian, buf: seq<byte>)
    requires Parse(e, buf).Ok? && Parse(e, buf).value.RemoteError?
    ensures Recovered(e, buf)
  {
    hide U16Bytes, U32Bytes, U16Of, U32Of, I32Bytes, Header, ReadSockaddr, StreamIds, Be16, Be32;
    HeaderOf(e, buf);
    Be16Stored(e, buf[8..10]);
    I32Unique(e, buf[12..16]);
    assert buf[8..] == buf[8..10] + buf[10..12] + buf[12..16] + buf[16..];
  }

  lemma LegacySendFailedRecovered(e: Endian, buf: seq<byte>)
    requires Parse(e, buf).Ok? && Parse(e, buf).value.SendFailed? && U16Of(e, buf[0..2]) == SCTP_SEND_FAILED
    ensures Recovered(e, buf)
  {
    hide U16Bytes, U32Bytes, U16Of, U32Of, I32Bytes, Header, ReadSockaddr, StreamIds, Be16, Be32;
    HeaderOf(e, buf);
    U32Unique(e, buf[8..12]);
    U16Unique(e, buf[12..14]);
    PpidStored(e, buf[20..24]);
    U32Unique(e, buf[24..28]);
    I32Unique(e, buf[44..48]);
    assert buf[8..] == buf[8..12] + buf[12..14] + buf[14..20] + buf[20..24] + buf[24..28] + buf[28..44]
                       + buf[44..48] + buf[48..];
  }

  lemma SendFailedEventRecovered(e: Endian, buf: seq<byte>)
    requires Parse(e, buf).Ok? && Parse(e, buf).value.SendFailed? && U16Of(e, buf[0..2]) != SCTP_SEND_FAILED
    ensures Recovered(e, buf)
  {
    hide U16Bytes, U32Bytes, U16Of, U32Of, I32Bytes, Header, ReadSockaddr, StreamIds, Be16, Be32;
    HeaderOf(e, buf);
    U32Unique(e, buf[8..12]);
    U16Unique(e, buf[12..14]);
    PpidStored(e, buf[16..20]);
    U32Unique(e, buf[20..24]);
    I32Unique(e, buf[28..32]);
    assert buf[8..] == buf[8..12] + buf[12..14] + buf[14..16] + buf[16..20] + buf[20..24] + buf[24..28]
                       + buf[28..32] + buf[32..];
  }

  lemma IdOnlyRecovered(e: Endian, buf: seq<byte>)
    requires Parse(e, buf).Ok? && (Parse(e, buf).value.Shutdown? || Parse(e, buf).value.SenderDry?)
    ensures Recovered(e, buf)
  {
    hide U16Bytes, U32Bytes, U16Of, U32Of, I32Bytes, Header, ReadSockaddr, StreamIds, StreamBytes, Be16, Be32, AssocStateOf,
         PathStateOf, StateRaw, PathRaw, Ppid.FromWire;
    HeaderOf(e, buf);
    I32Unique(e, buf[8..12]);
    assert buf[8..] == buf[8..12] + buf[12..];
  }

  lemma IndicationRecovered(e: Endian, buf: seq<byte>)
    requires Parse(e, buf).Ok? && (Parse(e, buf).value.PartialDelivery? || Parse(e, buf).value.AdaptationIndication?)
    ensures Recovered(e, buf)
  {
    hide U16Bytes, U32Bytes, U16Of, U32Of, I32Bytes, Header, ReadSockaddr, StreamIds, StreamBytes, Be16, Be32, AssocStateOf,
         PathStateOf, StateRaw, PathRaw, Ppid.FromWire;
    HeaderOf(e, buf);
    U32Unique(e, buf[8..12]);
    I32Unique(e, buf[12..16]);
    if Parse(e, buf).value.PartialDelivery? {
      U32Unique(e, buf[16..20]);
      U32Unique(e, buf[20..24]);
      assert buf[8..] == buf[8..12] + buf[12..16] + buf[16..20] + buf[20..24] + buf[24..];
    } else {
      assert buf[8..] == buf[8..12] + buf[12..16] + buf[16..];
    }
  }

  lemma AuthenticationRecovered(e: Endian, buf: seq<byte>)
    requires Parse(e, buf).Ok? && Parse(e, buf).value.Authentication?
    ensures Recovered(e, buf)
  {
    hide U16Bytes, U32Bytes, U16Of, U32Of, I32Bytes, Header, ReadSockaddr, StreamIds, Be16, Be32;
    HeaderOf(e, buf);
    U16Unique(e, buf[8..10]);
    U16Unique(e, buf[10..12]);
    U32Unique(e, buf[12..16]);
    I32Unique(e, buf[16..20]);
    assert buf[8..] == buf[8..10] + buf[10..12] + buf[12..16] + buf[16..20] + buf[20..];
  }

  lemma TailIsSlice(buf: seq<byte>, off: nat)
    requires off <= |buf|
    ensures Tail(buf, off) == buf[off..]
  {
  }

  lemma TailOfTail(buf: seq<byte>, a: nat, b: nat)
    requires a + b <= |buf|
    ensures buf[a..][b..] == buf[a + b..]
  {
  }

  /** What parsing and its slack are for a stream-reset event. */
  lemma StreamResetParts(e: Endian, buf: seq<byte>)
    requires Parse(e, buf).Ok? && Parse(e, buf).value.StreamReset?
    ensures |buf| >= 12 && U16Of(e, buf[0..2]) == SCTP_STREAM_RESET_EVENT
    ensures Parse(e, buf).value == StreamReset(U16Of(e, buf[2..4]), I32Of(e, buf[8..12]), StreamIds(e, buf[12..]))
    ensures SlackOf(e, buf).headerFlags == U16Of(e, buf[2..4]) && SlackOf(e, buf).length == U32Of(e, buf[4..8])
    ensures SlackOf(e, buf).trailing == buf[12..][|buf[12..]| / 2 * 2..]
  {
    hide U16Of, U32Of, ReadSockaddr, StreamIds, Be16, Be32, AssocStateOf, PathStateOf, Tail;
    ParseSucceedsIff(e, buf);
    assert Tail(buf, 12) == buf[12..] by {
      TailIsSlice(buf, 12);
    }
    TailOfTail(buf, 12, (|buf| - 12) / 2 * 2);
  }

  lemma StreamResetRecovered(e: Endian, buf: seq<byte>)
    requires Parse(e, buf).Ok? && Parse(e, buf).value.StreamReset?
    ensures Recovered(e, buf)
  {
    hide U16Bytes, U32Bytes, U16Of, U32Of, I32Bytes, Header, Parse, SlackOf, StreamIds, StreamBytes;
    StreamResetParts(e, buf);
    HeaderOf(e, buf);
    I32Unique(e, buf[8..12]);
    var list := buf[12..];
    StreamBytesOfIds(e, list);
    var id, ids, odd := buf[8..12], StreamBytes(e, StreamIds(e, list)), list[|list| / 2 * 2..];
    assert buf[8..] == id + list;
    assert id + (ids + odd) == id + ids + odd;
  }

  lemma ReconfigRecovered(e: Endian, buf: seq<byte>)
    requires Parse(e, buf).Ok? && (Parse(e, buf).value.AssocReset? || Parse(e, buf).value.StreamChange?)
    ensures Recovered(e, buf)
  {
    hide U16Bytes, U32Bytes, U16Of, U32Of, I32Bytes, Header, ReadSockaddr, StreamIds, StreamBytes, Be16, Be32, AssocStateOf,
         PathStateOf, StateRaw, PathRaw, Ppid.FromWire;
    HeaderOf(e, buf);
    I32Unique(e, buf[8..12]);
    if Parse(e, buf).value.AssocReset? {
      U32Unique(e, buf[12..16]);
      U32Unique(e, buf[16..20]);
      assert buf[8..] == buf[8..12] + buf[12..16] + buf[16..20] + buf[20..];
    } else {
      U16Unique(e, buf[12..14]);
      U16Unique(e, buf[14..16]);
      assert buf[8..] == buf[8..12] + buf[12..14] + buf[14..16] + buf[16..];
    }
  }

  lemma UnknownRecovered(e: Endian, buf: seq<byte>)
    requires Parse(e, buf).Ok? && Parse(e, buf).value.Unknown?
    ensures Recovered(e, buf)
  {
    hide U16Bytes, U32Bytes, U16Of, U32Of, I32Bytes, Header, ReadSockaddr, StreamIds, Be16, Be32;
    U16Unique(e, buf[0..2]);
    U16Unique(e, buf[2..4]);
  }

  /** Nothing else is lost: an accepted buffer is exactly an encoding of the value it parses to. */
  lemma EncodeInvertsParse(e: Endian, buf: seq<byte>)
    requires Parse(e, buf).Ok?
    ensures Recovered(e, buf)
  {
    hide Parse, Recovered;
    match Parse(e, buf).value
    case AssocChange(_, _, _, _, _, _) => AssocChangeRecovered(e, buf);
    case PeerAddrChange(_, _, _, _) => PeerAddrChangeRecovered(e, buf);
    case RemoteError(_, _, _) => RemoteErrorRecovered(e, buf);
    case SendFailed(_, _, _, _, _, _, _) =>
      ParseSucceedsIff(e, buf);
      if U16Of(e, buf[0..2]) == SCTP_SEND_FAILED {
        LegacySendFailedRecovered(e, buf);
      } else {
        SendFailedEventRecovered(e, buf);
      }
    case Shutdown(_) => IdOnlyRecovered(e, buf);
    case PartialDelivery(_, _, _, _) => IndicationRecovered(e, buf);
    case AdaptationIndication(_, _) => IndicationRecovered(e, buf);
    case Authentication(_, _, _, _) => AuthenticationRecovered(e, buf);
    case SenderDry(_) => IdOnlyRecovered(e, buf);
    case StreamReset(_, _, _) => StreamResetRecovered(e, buf);
    case AssocReset(_, _, _, _) => ReconfigRecovered(e, buf);
    case StreamChange(_, _, _, _) => ReconfigRecovered(e, buf);
    case Unknown(_, _, _) => UnknownRecovered(e, buf);
  }

  /** The parser's meaning in one line: `buf` parses to `n` if and only if `buf` encodes `n`. */
  lemma ParseCharacterized(e: Endian, buf: seq<byte>, n: Notification)
    ensures Parse(e, buf) == Ok(n) <==> exists x :: Fit(e, n, x) && Encode(e, n, x) == buf
  {
    hide Parse, Encode, Fit;
    if Parse(e, buf) == Ok(n) {
      EncodeInvertsParse(e, buf);
    }
    forall x | Fit(e, n, x) && Encode(e, n, x) == buf
      ensures Parse(e, buf) == Ok(n)
    {
      ParseInvertsEncode(e, n, x);
    }
  }

  /** `n` after `more` bytes were appended to the buffer it was parsed from. */
  function Extended(e: Endian, n: Notification, x: Slack, more: seq<byte>): Notification {
    match n
    case AssocChange(_, _, _, _, _, _) => n.(info := n.info + more)
    case RemoteError(_, _, _) => n.(data := n.data + more)
    case SendFailed(_, _, _, _, _, _, _) => n.(payload := n.payload + more)
    case StreamReset(_, _, _) => n.(streams := n.streams + StreamIds(e, x.trailing + more))
    case Unknown(_, _, _) => n.(raw := n.raw + more)
    case _ => n
  }

  lemma {:induction false} StreamIdsContinue(e: Endian, s: seq<byte>, more: seq<byte>)
    ensures StreamIds(e, s + more) == StreamIds(e, s) + StreamIds(e, s[|s| / 2 * 2..] + more)
  {
    if |s| >= 2 {
      var rest := s[2..];
      StreamIdsContinue(e, rest, more);
      assert (s + more)[0..2] == s[0..2] && (s + more)[2..] == rest + more;
      assert s[|s| / 2 * 2..] == rest[|rest| / 2 * 2..];
    } else {
      assert s[|s| / 2 * 2..] == s;
    }
  }

  lemma FixedPartUnchanged(buf: seq<byte>, more: seq<byte>, size: nat)
    requires size <= |buf|
    ensures forall i, j :: 0 <= i <= j <= size ==> (buf + more)[i..j] == buf[i..j]
    ensures (buf + more)[size..] == buf[size..] + more
  {
  }

  lemma FixedExtends(e: Endian, buf: seq<byte>, more: seq<byte>)
    requires Parse(e, buf).Ok? && !Parse(e, buf).value.StreamReset?
    ensures Parse(e, buf + more) == Ok(Extended(e, Parse(e, buf).value, SlackOf(e, buf), more))
  {
    hide U16Of, U32Of, ReadSockaddr, StreamIds, Be16, Be32, AssocStateOf, PathStateOf, Ppid.FromWire, SlackOf;
    ParseSucceedsIff(e, buf);
    FixedPartUnchanged(buf, more, FixedSize(U16Of(e, buf[0..2])));
  }

  lemma StreamResetExtends(e: Endian, buf: seq<byte>, more: seq<byte>)
    requires Parse(e, buf).Ok? && Parse(e, buf).value.StreamReset?
    ensures Parse(e, buf + more) == Ok(Extended(e, Parse(e, buf).value, SlackOf(e, buf), more))
  {
    hide U16Of, U32Of, ReadSockaddr, StreamIds, Be16, Be32, AssocStateOf, PathStateOf, Ppid.FromWire, SlackOf;
    StreamResetParts(e, buf);
    FixedPartUnchanged(buf, more, 12);
    StreamIdsContinue(e, buf[12..], more);
  }

  /** Extra bytes only extend the tail, the stream list or the raw copy. */
  lemma ExtraBytesOnlyExtend(e: Endian, buf: seq<byte>, more: seq<byte>)
    requires Parse(e, buf).Ok?
    ensures Parse(e, buf + more) == Ok(Extended(e, Parse(e, buf).value, SlackOf(e, buf), more))
  {
    hide Parse, Extended, SlackOf;
    if Parse(e, buf).value.StreamReset? {
      StreamResetExtends(e, buf, more);
    } else {
      FixedExtends(e, buf, more);
    }
  }
}
