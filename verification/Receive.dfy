/** The receive path: `recv_msg` and `reassemble_notification` of src/imp/kernel.rs. */
module Receive {
  import opened Bytes
  import opened Types
  import opened Cmsg
  import opened Notifications
  import opened Kernel

  const MAX_NOTIFICATION := 0x10_0000
  const SCRATCH := 4096

  const Desynchronized := InvalidData("sctp notification reassembly desynchronized")
  const Oversized := InvalidData("sctp notification larger than 1 MiB discarded")

  /** What one receive attempt yields; for data this includes the bytes left in the caller's buffer. */
  datatype Outcome =
    | Data(bytes: seq<byte>, info: Option<RcvInfo>, eor: bool)
    | Notified(n: Notification)
    | Failed(error: IoError)

  function Verdict(r: Result<Notification>): Outcome {
    if r.Ok? then Notified(r.value) else Failed(r.error)
  }

  // -- the code as it runs, on any kernel state -------------------------------------------

  /** The reassembly loop from its head, with `out` and `oversized` as the loop holds them. */
  ghost function Reassemble(k: Kernel, out: seq<byte>, oversized: bool): (Kernel, Result<seq<byte>>)
    decreases Weight(Future(k))
  {
    var (k1, reading) := SysRecvmsg(k, SCRATCH);
    match reading
    case Refused(error) => (k1, Err(error))
    case Got(bytes, notification, eor, _) =>
      if !notification then (k1, Err(Desynchronized))
      else
        var big := |out| + |bytes| > MAX_NOTIFICATION;
        var out1 := if big then out else out + bytes;
        if eor then (k1, if oversized || big then Err(Oversized) else Ok(out1))
        else
          RecvShrinks(k, SCRATCH);
          Reassemble(k1, out1, oversized || big)
  }

  /** One call of `recv_msg` with a buffer of `cap` bytes. */
  ghost function Attempt(k: Kernel, cap: nat): (Kernel, Outcome) {
    var e := k.host.endian;
    var (k1, reading) := SysRecvmsg(k, cap);
    match reading
    case Refused(error) => (k1, Failed(error))
    case Got(bytes, notification, eor, control) =>
      if notification && !eor then
        var (k2, whole) := Reassemble(k1, bytes, false);
        (k2, if whole.Ok? then Verdict(Parse(e, whole.value)) else Failed(whole.error))
      else if notification then (k1, Verdict(Parse(e, bytes)))
      else (k1, Data(bytes, InfoOf(k.host, control), eor))
  }

  /** `RecvMsg` as the crate returns it: data payloads are in the caller's buffer. */
  datatype RecvMsg =
    | DataMsg(len: nat, info: Option<RcvInfo>, eor: bool)
    | NotificationMsg(n: Notification)

  /** A returned value and the buffer contents together report an outcome. */
  ghost predicate Reports(r: Result<RecvMsg>, buf: seq<byte>, o: Outcome) {
    match o
    case Data(bytes, info, eor) => r == Ok(DataMsg(|bytes|, info, eor)) && bytes <= buf
    case Notified(n) => r == Ok(NotificationMsg(n))
    case Failed(error) => r == Err(error)
  }

  class Socket {
    var kernel: Kernel

    constructor (k: Kernel)
      ensures kernel == k
    {
      kernel := k;
    }

    /** The system call; received bytes go to the front of `buf`. */
    method Recvmsg(buf: array<byte>) returns (r: Reading)
      modifies this, buf
      ensures (kernel, r) == SysRecvmsg(old(kernel), buf.Length)
      ensures r.Got? ==> |r.bytes| <= buf.Length && r.bytes <= buf[..] && buf[|r.bytes|..] == old(buf[|r.bytes|..])
      ensures r.Refused? ==> buf[..] == old(buf[..])
    {
      var (k, reading) := SysRecvmsg(kernel, buf.Length);
      kernel, r := k, reading;
      if r.Got? {
        forall i | 0 <= i < |r.bytes| {
          buf[i] := r.bytes[i];
        }
      }
    }

    /** Behaves as `Reassemble` and never buffers more than the first fragment or the cap. */
    method ReassembleNotification(first: seq<byte>) returns (r: Result<seq<byte>>, ghost buffered: seq<byte>)
      modifies this
      ensures (kernel, r) == Reassemble(old(kernel), first, false)
      ensures |buffered| <= Max(|first|, MAX_NOTIFICATION)
      ensures r.Ok? ==> r.value == buffered
    {
      var out := first;
      var oversized := false;
      var scratch := new byte[SCRATCH](_ => 0);
      while true
        invariant Reassemble(kernel, out, oversized) == Reassemble(old(kernel), first, false)
        invariant |out| <= Max(|first|, MAX_NOTIFICATION)
        decreases Weight(Future(kernel))
      {
        label before:
        assert kernel == old@before(kernel);
        var reading := Recvmsg(scratch);
        match reading
        case Refused(error) =>
          return Err(error), out;
        case Got(bytes, notification, eor, _) =>
          if !notification {
            return Err(Desynchronized), out;
          }
          RecvShrinks(old@before(kernel), SCRATCH);
          var n := |bytes|;
          if |out| + n > MAX_NOTIFICATION {
            oversized := true;
          } else {
            out := out + scratch[..n];
            assert scratch[..n] == bytes;
          }
          if eor {
            return if oversized then Err(Oversized) else Ok(out), out;
          }
      }
    }

    method RecvMsg(buf: array<byte>) returns (r: Result<RecvMsg>)
      modifies this, buf
      ensures kernel == Attempt(old(kernel), buf.Length).0
      ensures Reports(r, buf[..], Attempt(old(kernel), buf.Length).1)
      ensures r.Ok? && r.value.DataMsg? ==> r.value.len <= buf.Length && buf[r.value.len..] == old(buf[r.value.len..])
    {
      var host := kernel.host;
      var reading := Recvmsg(buf);
      match reading
      case Refused(error) =>
        return Err(error);
      case Got(bytes, notification, eor, control) =>
        var n := |bytes|;
        assert buf[..n] == bytes;
        if notification {
          if !eor {
            var assembled, _ := ReassembleNotification(buf[..n]);
            if assembled.Err? {
              return Err(assembled.error);
            }
            var parsed := Parse(host.endian, assembled.value);
            return if parsed.Ok? then Ok(NotificationMsg(parsed.value)) else Err(parsed.error);
          }
          var parsed := Parse(host.endian, buf[..n]);
          return if parsed.Ok? then Ok(NotificationMsg(parsed.value)) else Err(parsed.error);
        }
        var info := ScanRcvInfo(host, control);
        return Ok(DataMsg(n, info, eor));
    }
  }

  // -- what it should do ---------------------------------------------------------------------

  /** The reader is not in the middle of a notification, and only the head may be partly read. */
  ghost predicate InSync(k: Kernel) {
    && (forall i :: 1 <= i < |k.queue| ==> k.queue[i].off == 0)
    && (k.queue != [] && k.queue[0].Notice? ==> k.queue[0].off == 0)
  }

  /** How a whole notification is reported to a caller with a `cap`-byte buffer. */
  function Judge(e: Endian, payload: seq<byte>, cap: nat): Outcome {
    if |payload| <= cap || |payload| <= MAX_NOTIFICATION then Verdict(Parse(e, payload)) else Failed(Oversized)
  }

  /** Further kernel reads needed for the `rest` bytes that did not fit the caller's buffer. */
  function MoreReads(rest: nat): nat {
    if rest == 0 then 0 else 1 + MoreReads(rest - Min(rest, SCRATCH))
  }

  /** The reference: take the head entry; a notification is taken and judged whole. */
  ghost function Deliver(k0: Kernel, cap: nat): (Kernel, Outcome) {
    var k := Arrive(k0);
    if k.queue == [] then
      var (k1, reading) := ReadIdle(k);
      (k1, if reading.Refused? then Failed(reading.error) else Data([], None, false))
    else if k.queue[0].Notice? then
      var payload := k.queue[0].payload;
      (ArriveTimes(k.(queue := k.queue[1..]), MoreReads(Max(0, |payload| - cap))), Judge(k.host.endian, payload, cap))
    else
      var (left, r) := ReadHead(k.queue[0], cap);
      (k.(queue := left + k.queue[1..]), Data(r.bytes, InfoOf(k.host, r.control), r.eor))
  }

  /** The head entry while a notification of `payload` is being read and `off` bytes are gone. */
  ghost predicate Inside(k: Kernel, payload: seq<byte>, off: nat) {
    k.queue != [] && off < |payload| && k.queue[0] == Notice(payload, off)
  }

  /** One read inside a notification, whatever arrives behind it. */
  lemma ReadInside(k: Kernel, payload: seq<byte>, off: nat, cap: nat)
    requires Inside(k, payload, off)
    ensures var n, after := Min(cap, |payload| - off), Arrive(k.(queue := k.queue[1..]));
      && SysRecvmsg(k, cap).1 == Got(payload[off..off + n], true, off + n == |payload|, [])
      && SysRecvmsg(k, cap).0 == if off + n < |payload|
         then after.(queue := [Notice(payload, off + n)] + after.queue) else after
  {
    hide Arrive;
    var rest := k.(queue := k.queue[1..]);
    assert [k.queue[0]] + rest.queue == k.queue;
    ArriveCommutes(rest, [k.queue[0]]);
    assert rest.(queue := [k.queue[0]] + rest.queue) == k;
    var q := Arrive(k).queue;
    assert q == [k.queue[0]] + Arrive(rest).queue;
    assert q[1..] == Arrive(rest).queue;
  }

  /**
   * Inside a notification the loop always reaches its end, leaves exactly what was behind it, never meets
   * user data, an error or an empty queue, and keeps the whole payload unless it exceeds the cap.
   */
  lemma {:induction false} ReassembleFinishes(k: Kernel, payload: seq<byte>, off: nat, out: seq<byte>, oversized: bool)
    requires Inside(k, payload, off)
    ensures var rest := |payload| - off;
      Reassemble(k, out, oversized)
      == (ArriveTimes(k.(queue := k.queue[1..]), MoreReads(rest)),
          if oversized || |out| + rest > MAX_NOTIFICATION then Err(Oversized) else Ok(out + payload[off..]))
    decreases |payload| - off
  {
    hide Arrive, SysRecvmsg, Future;
    var rest := |payload| - off;
    ReadInside(k, payload, off, SCRATCH);
    var n := Min(SCRATCH, rest);
    var chunk := payload[off..off + n];
    var big := |out| + n > MAX_NOTIFICATION;
    var out1 := if big then out else out + chunk;
    var after := Arrive(k.(queue := k.queue[1..]));
    assert ArriveTimes(k.(queue := k.queue[1..]), MoreReads(rest)) == ArriveTimes(after, MoreReads(rest - n));
    assert out + chunk + payload[off + n..] == out + payload[off..];
    if off + n < |payload| {
      var k1 := SysRecvmsg(k, SCRATCH).0;
      assert k1.(queue := k1.queue[1..]) == after;
      ReassembleFinishes(k1, payload, off + n, out1, oversized || big);
    } else {
      assert payload[off + n..] == [] && chunk == payload[off..];
      assert MoreReads(0) == 0 && ArriveTimes(after, 0) == after;
    }
  }

  /** A notification that fits the caller's buffer is read at once. */
  lemma NoticeFits(k0: Kernel, cap: nat)
    requires Arrive(k0).queue != [] && Arrive(k0).queue[0].Notice? && Arrive(k0).queue[0].off == 0
    requires |Arrive(k0).queue[0].payload| <= cap
    ensures Attempt(k0, cap) == Deliver(k0, cap)
  {
    hide Arrive, Reassemble, Parse, InfoOf;
    var k := Arrive(k0);
    ArriveOnlyAppends(k0);
    var payload := k.queue[0].payload;
    assert payload[0..|payload|] == payload;
    assert [] + k.queue[1..] == k.queue[1..];
    assert MoreReads(0) == 0;
  }

  /** One that does not is read up to the buffer's size and then reassembled. */
  lemma NoticeReassembled(k0: Kernel, cap: nat)
    requires Arrive(k0).queue != [] && Arrive(k0).queue[0].Notice? && Arrive(k0).queue[0].off == 0
    requires |Arrive(k0).queue[0].payload| > cap
    ensures Attempt(k0, cap) == Deliver(k0, cap)
  {
    hide Arrive, Reassemble, Parse, InfoOf, ArriveTimes, MoreReads;
    var k := Arrive(k0);
    ArriveOnlyAppends(k0);
    var payload, k1 := k.queue[0].payload, SysRecvmsg(k0, cap).0;
    assert Inside(k1, payload, cap);
    assert k1.(queue := k1.queue[1..]) == k.(queue := k.queue[1..]);
    ReassembleFinishes(k1, payload, cap, payload[..cap], false);
    assert payload[..cap] + payload[cap..] == payload;
  }

  lemma AttemptOnNotice(k0: Kernel, cap: nat)
    requires Arrive(k0).queue != [] && Arrive(k0).queue[0].Notice? && Arrive(k0).queue[0].off == 0
    ensures Attempt(k0, cap) == Deliver(k0, cap)
  {
    hide Arrive, Attempt, Deliver;
    if |Arrive(k0).queue[0].payload| <= cap {
      NoticeFits(k0, cap);
    } else {
      NoticeReassembled(k0, cap);
    }
  }

  lemma AttemptOnData(k0: Kernel, cap: nat)
    requires Arrive(k0).queue != [] && Arrive(k0).queue[0].UserData?
    ensures Attempt(k0, cap) == Deliver(k0, cap)
  {
    hide Arrive, Reassemble, Parse, InfoOf;
    ArriveOnlyAppends(k0);
  }

  lemma AttemptOnIdle(k0: Kernel, cap: nat)
    requires Arrive(k0).queue == []
    ensures Attempt(k0, cap) == Deliver(k0, cap)
  {
    hide Arrive, Reassemble, Parse;
    ArriveOnlyAppends(k0);
    assert Items(k0.host, []) == [];
  }

  lemma ArriveKeepsSync(k: Kernel)
    requires InSync(k)
    ensures InSync(Arrive(k))
  {
    hide PhaseAll, ErrorAll;
    if k.schedule != [] {
      EmittedAreFresh(k.host.endian, k.subs, k.phase, k.schedule[0]);
    }
  }

  lemma {:induction false} EmittedAreFresh(e: Endian, subs: set<EventType>, phase: Phase, hs: seq<Happening>)
    ensures forall i :: 0 <= i < |EmitAll(e, subs, phase, hs)| ==> EmitAll(e, subs, phase, hs)[i].off == 0
    decreases |hs|
  {
    if hs != [] {
      EmittedAreFresh(e, subs, PhaseStep(phase, hs[0]), hs[1..]);
      assert forall i :: 0 <= i < |Emit(e, subs, phase, hs[0])| ==> Emit(e, subs, phase, hs[0])[i].off == 0;
    }
  }

  /** Reassemble-then-parse refines "take the whole message and parse it", for every buffer size. */
  lemma AttemptRefinesDeliver(k: Kernel, cap: nat)
    requires InSync(k)
    ensures Attempt(k, cap) == Deliver(k, cap)
  {
    hide Arrive, Attempt, Deliver;
    ArriveKeepsSync(k);
    if Arrive(k).queue == [] {
      AttemptOnIdle(k, cap);
    } else if Arrive(k).queue[0].Notice? {
      AttemptOnNotice(k, cap);
    } else {
      AttemptOnData(k, cap);
    }
  }

  /** After any attempt, successful or not, the reader is again between notifications and never desynchronized. */
  lemma AttemptKeepsSync(k: Kernel, cap: nat)
    requires InSync(k)
    ensures InSync(Attempt(k, cap).0)
    ensures Attempt(k, cap).1 != Failed(Desynchronized)
    ensures Attempt(k, cap).0.host == k.host
  {
    hide Arrive, Attempt, Parse, InfoOf;
    AttemptRefinesDeliver(k, cap);
    ArriveKeepsSync(k);
    ArriveOnlyAppends(k);
    var k1 := Arrive(k);
    if k1.queue != [] && k1.queue[0].Notice? {
      var payload := k1.queue[0].payload;
      var rest := k1.(queue := k1.queue[1..]);
      TimesKeepsSync(rest, MoreReads(Max(0, |payload| - cap)));
      ParseErrors(k.host.endian, payload);
    }
  }

  lemma ParseErrors(e: Endian, buf: seq<byte>)
    ensures Parse(e, buf).Err? ==> Parse(e, buf).error == Truncated || Parse(e, buf).error == TruncatedPath
  {
    hide U16Of, U32Of, Addr.ReadSockaddr, StreamIds, Be16, Be32, AssocStateOf, PathStateOf;
  }

  lemma {:induction false} TimesKeepsSync(k: Kernel, n: nat)
    requires InSync(k)
    ensures InSync(ArriveTimes(k, n)) && ArriveTimes(k, n).host == k.host
    decreases n
  {
    hide Arrive, InSync;
    if n > 0 {
      ArriveKeepsSync(k);
      ArriveOnlyAppends(k);
      TimesKeepsSync(Arrive(k), n - 1);
    }
  }

  // -- the caller's buffer -----------------------------------------------------------------------

  /** A notification is kept whole iff it fits the buffer or the cap; otherwise it is drained and reported. */
  lemma ExactCap(k: Kernel, cap: nat)
    requires InSync(k) && Arrive(k).queue != [] && Arrive(k).queue[0].Notice?
    ensures var payload := Arrive(k).queue[0].payload;
      && (Attempt(k, cap).1 == Failed(Oversized) <==> |payload| > cap && |payload| > 1024 * 1024)
      && (|payload| <= cap || |payload| <= 1024 * 1024 ==>
            Attempt(k, cap).1 == Verdict(Parse(k.host.endian, payload)))
      && Future(k) == [Arrive(k).queue[0]] + Future(Attempt(k, cap).0)
  {
    hide Arrive, Attempt, Parse, Coming;
    AttemptRefinesDeliver(k, cap);
    ArriveOnlyAppends(k);
    var k1 := Arrive(k);
    var payload := k1.queue[0].payload;
    var rest := k1.(queue := k1.queue[1..]);
    ArriveTimesKeepsFuture(rest, MoreReads(Max(0, |payload| - cap)));
    SameComing(k1, rest);
    ParseErrors(k.host.endian, payload);
  }

  lemma SameComing(a: Kernel, b: Kernel)
    requires b == a.(queue := b.queue)
    ensures Coming(a) == Coming(b)
  {
  }

  /** The size of the caller's buffer does not matter for a notification within the cap. */
  lemma BufferSizeIndependence(k: Kernel, cap1: nat, cap2: nat)
    requires InSync(k) && Arrive(k).queue != [] && Arrive(k).queue[0].Notice?
    requires |Arrive(k).queue[0].payload| <= MAX_NOTIFICATION
    ensures Attempt(k, cap1).1 == Attempt(k, cap2).1 == Verdict(Parse(k.host.endian, Arrive(k).queue[0].payload))
    ensures Future(Attempt(k, cap1).0) == Future(Attempt(k, cap2).0)
    ensures k.schedule == [] ==> Attempt(k, cap1).0 == Attempt(k, cap2).0
  {
    hide Attempt, Future, Parse;
    ExactCap(k, cap1);
    ExactCap(k, cap2);
    assert Future(Attempt(k, cap1).0) == Future(k)[1..] == Future(Attempt(k, cap2).0);
    if k.schedule == [] {
      AttemptRefinesDeliver(k, cap1);
      AttemptRefinesDeliver(k, cap2);
      QuietTimes(k.(queue := k.queue[1..]), MoreReads(Max(0, |k.queue[0].payload| - cap1)));
      QuietTimes(k.(queue := k.queue[1..]), MoreReads(Max(0, |k.queue[0].payload| - cap2)));
    }
  }

  lemma {:induction false} QuietTimes(k: Kernel, n: nat)
    requires k.schedule == []
    ensures ArriveTimes(k, n) == k
    decreases n
  {
    if n > 0 {
      QuietTimes(k, n - 1);
    }
  }
}
