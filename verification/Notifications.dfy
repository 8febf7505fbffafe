/** Parsing of SCTP notifications: section 6.1 of RFC 6458 and section 6.1 of RFC 6525. */
module Notifications {
  import opened Bytes
  import opened Types
  import opened Addr

  const SCTP_ASSOC_CHANGE: u16 := 0x8001
  const SCTP_PEER_ADDR_CHANGE: u16 := 0x8002
  const SCTP_SEND_FAILED: u16 := 0x8003
  const SCTP_REMOTE_ERROR: u16 := 0x8004
  const SCTP_SHUTDOWN_EVENT: u16 := 0x8005
  const SCTP_PARTIAL_DELIVERY_EVENT: u16 := 0x8006
  const SCTP_ADAPTATION_INDICATION: u16 := 0x8007
  const SCTP_AUTHENTICATION_EVENT: u16 := 0x8008
  const SCTP_SENDER_DRY_EVENT: u16 := 0x8009
  const SCTP_STREAM_RESET_EVENT: u16 := 0x800a
  const SCTP_ASSOC_RESET_EVENT: u16 := 0x800b
  const SCTP_STREAM_CHANGE_EVENT: u16 := 0x800c
  const SCTP_SEND_FAILED_EVENT: u16 := 0x800d
  const SCTP_DATA_UNSENT: u16 := 0

  datatype AssocChangeState =
    | CommUp | CommLost | Restart | ShutdownComplete | CantStartAssoc | UnknownState(raw: u16)

  datatype PeerAddrChangeState =
    | Available | Unreachable | Removed | Added | MadePrimary | Confirmed | PotentiallyFailed
    | UnknownPathState(rawPath: i32)

  datatype Notification =
    | AssocChange(state: AssocChangeState, sacError: u16, outbound: u16, inbound: u16, assocId: AssocId,
                  info: seq<byte>)
    | PeerAddrChange(address: Option<SocketAddr>, path: PeerAddrChangeState, spcError: i32, assocId: AssocId)
    | RemoteError(sreError: u16, assocId: AssocId, data: seq<byte>)
    | SendFailed(unsent: bool, ssfError: u32, sid: u16, ppid: Ppid, context: u32, assocId: AssocId,
                 payload: seq<byte>)
    | Shutdown(assocId: AssocId)
    | PartialDelivery(indication: u32, assocId: AssocId, stream: u32, seqNo: u32)
    | AdaptationIndication(indication: u32, assocId: AssocId)
    | Authentication(key: u16, altKey: u16, indication: u32, assocId: AssocId)
    | SenderDry(assocId: AssocId)
    | StreamReset(flags: u16, assocId: AssocId, streams: seq<u16>)
    | AssocReset(flags: u16, assocId: AssocId, localTsn: u32, remoteTsn: u32)
    | StreamChange(flags: u16, assocId: AssocId, instrms: u16, outstrms: u16)
    | Unknown(snType: u16, flags: u16, raw: seq<byte>)

  function AssocStateOf(v: u16): AssocChangeState {
    if v == 0 then CommUp
    else if v == 1 then CommLost
    else if v == 2 then Restart
    else if v == 3 then ShutdownComplete
    else if v == 4 then CantStartAssoc
    else UnknownState(v)
  }

  function PathStateOf(v: i32): PeerAddrChangeState {
    if v == 0 then Available
    else if v == 1 then Unreachable
    else if v == 2 then Removed
    else if v == 3 then Added
    else if v == 4 then MadePrimary
    else if v == 5 then Confirmed
    else if v == 6 then PotentiallyFailed
    else UnknownPathState(v)
  }

  const Truncated := InvalidData("sctp notification: truncated")
  const TruncatedPath := InvalidData("sctp notification: truncated paddr_change")

  function U16At(e: Endian, buf: seq<byte>, off: nat): Result<u16> {
    if off + 2 <= |buf| then Ok(U16Of(e, buf[off..off + 2])) else Err(Truncated)
  }

  function U32At(e: Endian, buf: seq<byte>, off: nat): Result<u32> {
    if off + 4 <= |buf| then Ok(U32Of(e, buf[off..off + 4])) else Err(Truncated)
  }

  function I32At(e: Endian, buf: seq<byte>, off: nat): Result<i32> {
    var v :- U32At(e, buf, off);
    Ok(AsI32(v))
  }

  function Tail(buf: seq<byte>, off: nat): seq<byte> {
    if off <= |buf| then buf[off..] else []
  }

  /** The stream ids a reset event lists: whole pairs of bytes, a last odd byte ignored. */
  function StreamIds(e: Endian, s: seq<byte>): seq<u16> {
    if |s| < 2 then [] else [U16Of(e, s[0..2])] + StreamIds(e, s[2..])
  }

  lemma {:induction false} StreamIdsSnoc(e: Endian, s: seq<byte>, pair: seq<byte>)
    requires |s| % 2 == 0 && |pair| == 2
    ensures StreamIds(e, s + pair) == StreamIds(e, s) + [U16Of(e, pair)]
  {
    if s == [] {
      assert s + pair == pair && pair[0..2] == pair && pair[2..] == [];
    } else {
      StreamIdsSnoc(e, s[2..], pair);
      assert (s + pair)[0..2] == s[0..2] && (s + pair)[2..] == s[2..] + pair;
    }
  }

  lemma OddTailIgnored(e: Endian, s: seq<byte>, last: seq<byte>)
    requires |s| % 2 == 0 && |last| <= 1
    ensures StreamIds(e, s + last) == StreamIds(e, s)
    decreases |s|
  {
    if s == [] {
      assert s + last == last;
    } else {
      OddTailIgnored(e, s[2..], last);
      assert (s + last)[0..2] == s[0..2] && (s + last)[2..] == s[2..] + last;
    }
  }

  /** The loop of the stream-reset branch. */
  method CollectStreams(e: Endian, buf: seq<byte>) returns (streams: seq<u16>)
    ensures streams == StreamIds(e, Tail(buf, 12))
  {
    streams := [];
    var off := 12;
    while off + 2 <= |buf|
      invariant off % 2 == 0 && off >= 12
      invariant off == 12 || off <= |buf|
      invariant off <= |buf| ==> streams == StreamIds(e, buf[12..off])
      invariant off > |buf| ==> streams == []
    {
      StreamIdsSnoc(e, buf[12..off], buf[off..off + 2]);
      assert buf[12..off] + buf[off..off + 2] == buf[12..off + 2];
      streams := streams + [U16Of(e, buf[off..off + 2])];
      off := off + 2;
    }
    if 12 <= |buf| {
      OddTailIgnored(e, buf[12..off], buf[off..]);
      assert buf[12..off] + buf[off..] == buf[12..];
    }
  }

  /** Parses one complete notification. */
  function Parse(e: Endian, buf: seq<byte>): Result<Notification> {
    var snType :- U16At(e, buf, 0);
    var snFlags :- U16At(e, buf, 2);
    if snType == SCTP_ASSOC_CHANGE then
      var state :- U16At(e, buf, 8);
      var error :- U16At(e, buf, 10);
      var outbound :- U16At(e, buf, 12);
      var inbound :- U16At(e, buf, 14);
      var id :- I32At(e, buf, 16);
      Ok(AssocChange(AssocStateOf(state), error, outbound, inbound, id, Tail(buf, 20)))
    else if snType == SCTP_PEER_ADDR_CHANGE then
      if |buf| < 136 then Err(TruncatedPath)
      else
        var found := ReadSockaddr(e, buf[8..136]);
        var state :- I32At(e, buf, 136);
        var error :- I32At(e, buf, 140);
        var id :- I32At(e, buf, 144);
        Ok(PeerAddrChange(if found.Some? then Some(found.value.0) else None, PathStateOf(state), error, id))
    else if snType == SCTP_REMOTE_ERROR then
      var error :- U16At(e, buf, 8);
      var id :- I32At(e, buf, 12);
      Ok(RemoteError(Be16(e, error), id, Tail(buf, 16)))
    else if snType == SCTP_SEND_FAILED then
      var error :- U32At(e, buf, 8);
      var sid :- U16At(e, buf, 12);
      var ppid :- U32At(e, buf, 20);
      var context :- U32At(e, buf, 24);
      var id :- I32At(e, buf, 44);
      Ok(SendFailed(snFlags == SCTP_DATA_UNSENT, error, sid, Ppid.FromWire(e, ppid), context, id, Tail(buf, 48)))
    else if snType == SCTP_SEND_FAILED_EVENT then
      var error :- U32At(e, buf, 8);
      var sid :- U16At(e, buf, 12);
      var ppid :- U32At(e, buf, 16);
      var context :- U32At(e, buf, 20);
      var id :- I32At(e, buf, 28);
      Ok(SendFailed(snFlags == SCTP_DATA_UNSENT, error, sid, Ppid.FromWire(e, ppid), context, id, Tail(buf, 32)))
    else if snType == SCTP_SHUTDOWN_EVENT then
      var id :- I32At(e, buf, 8);
      Ok(Shutdown(id))
    else if snType == SCTP_PARTIAL_DELIVERY_EVENT then
      var indication :- U32At(e, buf, 8);
      var id :- I32At(e, buf, 12);
      var stream :- U32At(e, buf, 16);
      var seqNo :- U32At(e, buf, 20);
      Ok(PartialDelivery(indication, id, stream, seqNo))
    else if snType == SCTP_ADAPTATION_INDICATION then
      var indication :- U32At(e, buf, 8);
      var id :- I32At(e, buf, 12);
      Ok(AdaptationIndication(indication, id))
    else if snType == SCTP_AUTHENTICATION_EVENT then
      var key :- U16At(e, buf, 8);
      var altKey :- U16At(e, buf, 10);
      var indication :- U32At(e, buf, 12);
      var id :- I32At(e, buf, 16);
      Ok(Authentication(key, altKey, indication, id))
    else if snType == SCTP_SENDER_DRY_EVENT then
      var id :- I32At(e, buf, 8);
      Ok(SenderDry(id))
    else if snType == SCTP_STREAM_RESET_EVENT then
      var streams := StreamIds(e, Tail(buf, 12));
      var id :- I32At(e, buf, 8);
      Ok(StreamReset(snFlags, id, streams))
    else if snType == SCTP_ASSOC_RESET_EVENT then
      var id :- I32At(e, buf, 8);
      var local :- U32At(e, buf, 12);
      var remote :- U32At(e, buf, 16);
      Ok(AssocReset(snFlags, id, local, remote))
    else if snType == SCTP_STREAM_CHANGE_EVENT then
      var id :- I32At(e, buf, 8);
      var instrms :- U16At(e, buf, 12);
      var outstrms :- U16At(e, buf, 14);
      Ok(StreamChange(snFlags, id, instrms, outstrms))
    else
      Ok(Unknown(snType, snFlags, buf))
  }
}
