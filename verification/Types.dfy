/** The crate's public values, as far as the receive and connect paths use them. */
module Types {
  import opened Bytes

  datatype Option<+T> = None | Some(value: T)

  /** The `io::Error`s the modelled code can return. */
  datatype IoError =
    | WouldBlock
    | Os(errno: int)
    | InvalidInput(message: string)
    | InvalidData(message: string)
    | TimedOut(message: string)
    | ConnectionRefused(message: string)
    | ConnectionReset(message: string)

  datatype Result<+T> = Ok(value: T) | Err(error: IoError) {
    predicate IsFailure() {
      Err?
    }

    function PropagateFailure<U>(): Result<U>
      requires Err?
    {
      Err(error)
    }

    function Extract(): T
      requires Ok?
    {
      value
    }
  }

  const EINPROGRESS := 115
  const ENOMEM := 12
  const EINVAL := 22

  type AssocId = i32

  /** Payload protocol identifier, in host byte order. */
  datatype Ppid = Ppid(id: u32) {
    function ToWire(e: Endian): u32 {
      Be32(e, id)
    }

    static function FromWire(e: Endian, v: u32): Ppid {
      Ppid(Be32(e, v))
    }
  }

  /** The PPID field's bytes are network order on every host, and reading them back restores the PPID. */
  lemma PpidOnTheWire(e: Endian, ppid: Ppid)
    ensures U32Bytes(e, ppid.ToWire(e)) == U32Bytes(Big, ppid.id)
    ensures Ppid.FromWire(e, U32Of(e, U32Bytes(Big, ppid.id))) == ppid
    ensures Ppid.FromWire(e, ppid.ToWire(e)) == ppid
  {
    Be32IsNetworkOrder(e, ppid.id);
    U32RoundTrip(e, ppid.ToWire(e));
  }

  // -- per-message metadata -------------------------------------------------

  const IPPROTO_SCTP: i32 := 132
  const SCTP_CMSG_SNDINFO: i32 := 2
  const SCTP_CMSG_RCVINFO: i32 := 3

  datatype SendInfo = SendInfo(sid: u16, flags: u16, ppid: Ppid, context: u32, assocId: AssocId)

  datatype RcvInfo = RcvInfo(
    sid: u16, ssn: u16, flags: u16, ppid: Ppid, tsn: u32, cumtsn: u32, context: u32, assocId: AssocId)

  /** Bytes of the `struct sctp_sndinfo` made by `SendInfo::to_sys`. */
  function SndInfoBytes(e: Endian, s: SendInfo): (r: seq<byte>)
    ensures |r| == 16
  {
    U16Bytes(e, s.sid) + U16Bytes(e, s.flags) + U32Bytes(e, s.ppid.ToWire(e)) + U32Bytes(e, s.context)
    + I32Bytes(e, s.assocId)
  }

  /** Where `struct sctp_sndinfo` keeps each field. */
  lemma SndInfoFields(e: Endian, s: SendInfo)
    ensures var b := SndInfoBytes(e, s);
      && U16Of(e, b[0..2]) == s.sid && U16Of(e, b[2..4]) == s.flags
      && b[4..8] == U32Bytes(Big, s.ppid.id)
      && U32Of(e, b[8..12]) == s.context && I32Of(e, b[12..16]) == s.assocId
  {
    hide U16Bytes, U32Bytes, I32Bytes, U16Of, U32Of, I32Of;
    var b := SndInfoBytes(e, s);
    assert b[0..2] == U16Bytes(e, s.sid) && b[2..4] == U16Bytes(e, s.flags);
    assert b[4..8] == U32Bytes(e, s.ppid.ToWire(e));
    assert b[8..12] == U32Bytes(e, s.context) && b[12..16] == I32Bytes(e, s.assocId);
    U16RoundTrip(e, s.sid);
    U16RoundTrip(e, s.flags);
    PpidOnTheWire(e, s.ppid);
    U32RoundTrip(e, s.context);
    I32RoundTrip(e, s.assocId);
  }

  const RCVINFO_LEN := 28

  /** `RcvInfo::from_sys` applied to the leading bytes of a control-message payload. */
  function RcvInfoOf(e: Endian, b: seq<byte>): RcvInfo
    requires |b| >= RCVINFO_LEN
  {
    RcvInfo(U16Of(e, b[0..2]), U16Of(e, b[2..4]), U16Of(e, b[4..6]), Ppid.FromWire(e, U32Of(e, b[8..12])),
            U32Of(e, b[12..16]), U32Of(e, b[16..20]), U32Of(e, b[20..24]), I32Of(e, b[24..28]))
  }

  /** How the kernel lays out a `struct sctp_rcvinfo`: two padding bytes follow `rcv_flags`. */
  function RcvInfoBytes(e: Endian, r: RcvInfo, pad: seq<byte>): (b: seq<byte>)
    requires |pad| == 2
    ensures |b| == RCVINFO_LEN
  {
    U16Bytes(e, r.sid) + U16Bytes(e, r.ssn) + U16Bytes(e, r.flags) + pad + U32Bytes(Big, r.ppid.id)
    + U32Bytes(e, r.tsn) + U32Bytes(e, r.cumtsn) + U32Bytes(e, r.context) + I32Bytes(e, r.assocId)
  }

  lemma RcvInfoRoundTrip(e: Endian, r: RcvInfo, pad: seq<byte>, more: seq<byte>)
    requires |pad| == 2
    ensures RcvInfoOf(e, RcvInfoBytes(e, r, pad) + more) == r
  {
    hide U16Bytes, U32Bytes, I32Bytes, U16Of, U32Of, I32Of;
    var b := RcvInfoBytes(e, r, pad) + more;
    assert b[0..2] == U16Bytes(e, r.sid);
    assert b[2..4] == U16Bytes(e, r.ssn);
    assert b[4..6] == U16Bytes(e, r.flags);
    assert b[8..12] == U32Bytes(Big, r.ppid.id);
    assert b[12..16] == U32Bytes(e, r.tsn);
    assert b[16..20] == U32Bytes(e, r.cumtsn);
    assert b[20..24] == U32Bytes(e, r.context);
    assert b[24..28] == I32Bytes(e, r.assocId);
    U16RoundTrip(e, r.sid);
    U16RoundTrip(e, r.ssn);
    U16RoundTrip(e, r.flags);
    PpidOnTheWire(e, r.ppid);
    U32RoundTrip(e, r.tsn);
    U32RoundTrip(e, r.cumtsn);
    U32RoundTrip(e, r.context);
    I32RoundTrip(e, r.assocId);
  }
}
