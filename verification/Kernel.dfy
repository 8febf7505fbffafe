/** Notification classes subscribable through `SCTP_EVENT`. */
module Events {
  datatype EventType =
    | AssocChange | PeerAddrChange | SendFailed | RemoteError | Shutdown | PartialDelivery
    | AdaptationIndication | Authentication | SenderDry | StreamReset | AssocReset | StreamChange
    | SendFailedEvent
}

/**
 * The environment: one socket's kernel-side state. The peer and the network are a schedule of happenings,
 * one batch of which takes effect before each system call; a theorem for every schedule is a theorem for
 * every interleaving of the program with its environment.
 */
module Kernel {
  import opened Bytes
  import opened Types
  import opened Notifications
  import opened NotificationCodec
  import Events

  type EventType = Events.EventType

  /**
   * One unit of the receive queue, of which `off` bytes have been read. A notification is queued whole;
   * user data may be queued in fragments, of which only the last ends its message.
   */
  datatype RawEntry =
    | UserData(payload: seq<byte>, off: nat, eom: bool, control: seq<byte>)
    | Notice(payload: seq<byte>, off: nat)

  type Entry = e: RawEntry | e.off <= |e.payload| witness Notice([], 0)

  /** `Down` after a failed setup, `Gone` once an established association has ended. */
  datatype Phase = Closed | Handshaking | Up | Down | Gone

  predicate HasComeUp(phase: Phase) {
    phase == Up || phase == Gone
  }

  datatype Style = OneToOne | OneToMany

  datatype Happening =
    | CameUp(outbound: u16, inbound: u16, id: AssocId)
    | SetupFailed(lost: bool, cause: u16, id: AssocId, errno: Option<int>)
    | Raised(ev: EventType, payload: seq<byte>)
    | Arrived(payload: seq<byte>, eom: bool, control: seq<byte>)
    | WentAway(lost: bool, cause: u16, id: AssocId, errno: Option<int>)
    | PeerClosed
    | Broken(code: int)

  datatype Kernel = Kernel(
    host: Host,
    style: Style,
    supported: set<EventType>,
    subs: set<EventType>,
    nonblocking: bool,
    phase: Phase,
    soError: Option<int>,
    eof: bool,
    queue: seq<Entry>,
    schedule: seq<seq<Happening>>)

  // -- what happenings do -----------------------------------------------------------

  function AssocChangeBytes(e: Endian, state: AssocChangeState, cause: u16, outbound: u16, inbound: u16, id: AssocId)
    : seq<byte>
  {
    Encode(e, Notification.AssocChange(state, cause, outbound, inbound, id, []),
           Slack(0, 20, [], false, [], [], []))
  }

  /** The payload parses as an `SCTP_COMM_UP`. */
  predicate AnnouncesUp(e: Endian, payload: seq<byte>) {
    var r := Parse(e, payload);
    r.Ok? && r.value.AssocChange? && r.value.state == CommUp
  }

  function PhaseStep(phase: Phase, h: Happening): Phase {
    if phase == Handshaking && h.CameUp? then Up
    else if phase == Handshaking && h.SetupFailed? then Down
    else if phase == Up && h.WentAway? then Gone
    else phase
  }

  /** A notification is queued only if its class is subscribed at that moment. */
  function Post(subs: set<EventType>, ev: EventType, payload: seq<byte>): seq<Entry> {
    if ev in subs then [Notice(payload, 0)] else []
  }

  /** What one happening appends to the queue. User data arrives only on an established association. */
  function Emit(e: Endian, subs: set<EventType>, phase: Phase, h: Happening): seq<Entry> {
    match h
    case CameUp(outbound, inbound, id) =>
      if phase == Handshaking
      then Post(subs, Events.AssocChange, AssocChangeBytes(e, CommUp, 0, outbound, inbound, id)) else []
    case SetupFailed(lost, cause, id, _) =>
      if phase == Handshaking
      then Post(subs, Events.AssocChange, AssocChangeBytes(e, if lost then CommLost else CantStartAssoc, cause, 0, 0, id))
      else []
    case Raised(ev, payload) => if phase == Closed || AnnouncesUp(e, payload) then [] else Post(subs, ev, payload)
    case Arrived(payload, eom, control) => if phase == Up then [UserData(payload, 0, eom, control)] else []
    case WentAway(lost, cause, id, _) =>
      if phase == Up
      then Post(subs, Events.AssocChange,
                AssocChangeBytes(e, if lost then CommLost else ShutdownComplete, cause, 0, 0, id))
      else []
    case PeerClosed => []
    case Broken(_) => []
  }

  function ErrorStep(phase: Phase, err: Option<int>, h: Happening): Option<int> {
    match h
    case SetupFailed(_, _, _, errno) => if phase == Handshaking && errno.Some? then errno else err
    case WentAway(_, _, _, errno) => if phase == Up && errno.Some? then errno else err
    case Broken(code) => if phase == Closed then err else Some(code)
    case _ => err
  }

  function PhaseAll(phase: Phase, hs: seq<Happening>): Phase
    decreases |hs|
  {
    if hs == [] then phase else PhaseAll(PhaseStep(phase, hs[0]), hs[1..])
  }

  function EmitAll(e: Endian, subs: set<EventType>, phase: Phase, hs: seq<Happening>): seq<Entry>
    decreases |hs|
  {
    if hs == [] then [] else Emit(e, subs, phase, hs[0]) + EmitAll(e, subs, PhaseStep(phase, hs[0]), hs[1..])
  }

  function ErrorAll(phase: Phase, err: Option<int>, hs: seq<Happening>): Option<int>
    decreases |hs|
  {
    if hs == [] then err else ErrorAll(PhaseStep(phase, hs[0]), ErrorStep(phase, err, hs[0]), hs[1..])
  }

  /** The environment's move before a system call. */
  function Arrive(k: Kernel): Kernel {
    if k.schedule == [] then k
    else
      var hs := k.schedule[0];
      k.(schedule := k.schedule[1..],
         queue := k.queue + EmitAll(k.host.endian, k.subs, k.phase, hs),
         phase := PhaseAll(k.phase, hs),
         soError := ErrorAll(k.phase, k.soError, hs),
         eof := k.eof || (k.phase != Closed && PeerClosed in hs))
  }

  function ArriveTimes(k: Kernel, n: nat): Kernel
    decreases n
  {
    if n == 0 then k else ArriveTimes(Arrive(k), n - 1)
  }

  // -- system calls --------------------------------------------------------------------

  datatype Reading =
    | Got(bytes: seq<byte>, notification: bool, eor: bool, control: seq<byte>)
    | Refused(error: IoError)

  /** Reading at most `cap` bytes of the head entry; what is not read stays at the head. */
  function ReadHead(h: Entry, cap: nat): (r: (seq<Entry>, Reading))
    ensures r.1.Got? && |r.1.bytes| <= cap
  {
    var n := Min(cap, |h.payload| - h.off);
    var chunk := h.payload[h.off..h.off + n];
    var control := if h.UserData? then h.control else [];
    if h.off + n < |h.payload|
    then ([h.(off := h.off + n)], Got(chunk, h.Notice?, false, control))
    else ([], Got(chunk, h.Notice?, h.Notice? || h.eom, control))
  }

  /** `recvmsg(2)` on a socket with nothing queued: a pending error, end of association, or nothing yet. */
  function ReadIdle(k: Kernel): (Kernel, Reading) {
    if k.soError.Some? then (k.(soError := None), Refused(Os(k.soError.value)))
    else if k.eof then (k, Got([], false, false, []))
    else (k, Refused(WouldBlock))
  }

  function SysRecvmsg(k0: Kernel, cap: nat): (Kernel, Reading) {
    var k := Arrive(k0);
    if k.queue == [] then ReadIdle(k)
    else
      var (left, r) := ReadHead(k.queue[0], cap);
      (k.(queue := left + k.queue[1..]), r)
  }

  /** `getsockopt(SO_ERROR)`: reports and clears the pending error. */
  function SysTakeError(k0: Kernel): (Kernel, Option<int>) {
    var k := Arrive(k0);
    (k.(soError := None), k.soError)
  }

  /** `setsockopt(SCTP_EVENT)`; fails on an event class this kernel does not know. */
  function SysSubscribe(k0: Kernel, ev: EventType, on: bool): (Kernel, Result<()>) {
    var k := Arrive(k0);
    if ev !in k.supported then (k, Err(Os(EINVAL)))
    else (k.(subs := if on then k.subs + {ev} else k.subs - {ev}), Ok(()))
  }

  function SysSetNonblocking(k0: Kernel, on: bool): Kernel {
    Arrive(k0).(nonblocking := on)
  }

  const EISCONN := 106
  const ECONNREFUSED := 111

  /** The errno of a connect that was not started; EINPROGRESS means that it was. */
  type Refusal = c: int | c != EINPROGRESS witness ECONNREFUSED

  /**
   * `SCTP_SOCKOPT_CONNECTX3`; `None` is success. `refusal` is an immediate failure such as an unroutable
   * address. A blocking socket waits (one batch of happenings) and reports EINPROGRESS if its send timeout
   * expires first.
   */
  function SysConnectx(k0: Kernel, refusal: Option<Refusal>): (Kernel, Option<int>) {
    var k := Arrive(k0);
    if refusal.Some? then (k, refusal)
    else if k.phase != Closed then (k, Some(EISCONN))
    else
      var started := k.(phase := Handshaking);
      if k.nonblocking then (started, Some(EINPROGRESS))
      else
        var waited := Arrive(started);
        if HasComeUp(waited.phase) then (waited, None)
        else if waited.phase == Down then (waited, Some(ECONNREFUSED))
        else (waited, Some(EINPROGRESS))
  }

  // -- what the schedule still holds ------------------------------------------------------

  function Flatten(batches: seq<seq<Happening>>): seq<Happening> {
    if batches == [] then [] else batches[0] + Flatten(batches[1..])
  }

  /** Entries the remaining schedule will append if nothing is subscribed or unsubscribed meanwhile. */
  function Coming(k: Kernel): seq<Entry> {
    EmitAll(k.host.endian, k.subs, k.phase, Flatten(k.schedule))
  }

  /** Everything there is and will be to read. */
  function Future(k: Kernel): seq<Entry> {
    k.queue + Coming(k)
  }

  lemma {:induction false} EmitAllAppend(e: Endian, subs: set<EventType>, phase: Phase, a: seq<Happening>, b: seq<Happening>)
    ensures EmitAll(e, subs, phase, a + b) == EmitAll(e, subs, phase, a) + EmitAll(e, subs, PhaseAll(phase, a), b)
    decreases |a|
  {
    hide Emit;
    if a == [] {
      assert a + b == b;
    } else {
      EmitAllAppend(e, subs, PhaseStep(phase, a[0]), a[1..], b);
      assert (a + b)[1..] == a[1..] + b;
    }
  }

  /** Arrivals append at the tail and only move entries from the future into the queue. */
  lemma ArriveOnlyAppends(k: Kernel)
    ensures k.queue <= Arrive(k).queue
    ensures Future(Arrive(k)) == Future(k)
    ensures Arrive(k).host == k.host && Arrive(k).subs == k.subs
    ensures |Arrive(k).schedule| == if k.schedule == [] then 0 else |k.schedule| - 1
  {
    hide EmitAll;
    if k.schedule != [] {
      EmitAllAppend(k.host.endian, k.subs, k.phase, k.schedule[0], Flatten(k.schedule[1..]));
    }
  }

  /** Arrivals do not look at the queue: removing a prefix of it commutes with them. */
  lemma ArriveCommutes(k: Kernel, q: seq<Entry>)
    ensures Arrive(k.(queue := q + k.queue)) == Arrive(k).(queue := q + Arrive(k).queue)
  {
    hide EmitAll, PhaseAll, ErrorAll;
    if k.schedule != [] {
      var more := EmitAll(k.host.endian, k.subs, k.phase, k.schedule[0]);
      assert (q + k.queue) + more == q + (k.queue + more);
    }
  }

  lemma {:induction false} ArriveTimesKeepsFuture(k: Kernel, n: nat)
    ensures Future(ArriveTimes(k, n)) == Future(k)
    ensures ArriveTimes(k, n).host == k.host
    ensures k.queue <= ArriveTimes(k, n).queue
    ensures |ArriveTimes(k, n).schedule| <= |k.schedule|
    decreases n
  {
    hide Arrive, Future;
    if n > 0 {
      ArriveOnlyAppends(k);
      ArriveTimesKeepsFuture(Arrive(k), n - 1);
    }
  }

  // -- measuring the queue -------------------------------------------------------------------

  function Weight(q: seq<Entry>): nat {
    if q == [] then 0 else |q[0].payload| - q[0].off + 1 + Weight(q[1..])
  }

  lemma {:induction false} WeightAppend(a: seq<Entry>, b: seq<Entry>)
    ensures Weight(a + b) == Weight(a) + Weight(b)
  {
    if a == [] {
      assert a + b == b;
    } else {
      WeightAppend(a[1..], b);
      assert (a + b)[1..] == a[1..] + b;
    }
  }

  /** A read that finds an entry replaces the head by what is left of it and touches nothing else. */
  lemma RecvConsumesHead(k0: Kernel, cap: nat)
    requires Arrive(k0).queue != []
    ensures var k, k1 := Arrive(k0), SysRecvmsg(k0, cap).0;
      && Future(k0) == k.queue + Coming(k)
      && Future(k1) == ReadHead(k.queue[0], cap).0 + k.queue[1..] + Coming(k)
      && k1.host == k0.host && k1.schedule == k.schedule && k1.soError == k.soError
  {
    hide Arrive, EmitAll, ReadHead;
    ArriveOnlyAppends(k0);
  }

  /** A read into a nonempty buffer that finds an entry makes progress. */
  lemma RecvShrinks(k0: Kernel, cap: nat)
    requires Arrive(k0).queue != [] && cap > 0
    ensures Weight(Future(SysRecvmsg(k0, cap).0)) < Weight(Future(k0))
  {
    hide Arrive, SysRecvmsg, Coming;
    RecvConsumesHead(k0, cap);
    var k := Arrive(k0);
    var h, rest := k.queue[0], k.queue[1..] + Coming(k);
    var left := ReadHead(h, cap).0;
    assert k.queue + Coming(k) == [h] + rest;
    assert left + k.queue[1..] + Coming(k) == left + rest;
    WeightAppend([h], rest);
    WeightAppend(left, rest);
    assert Weight([h]) == |h.payload| - h.off + 1 + Weight([h][1..]);
    assert left != [] ==> left[1..] == [];
  }
}
