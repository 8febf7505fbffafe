/** The asynchronous connect protocol: src/net/stream.rs and `connectx` of src/imp/kernel.rs. */
module Connect {
  import opened Bytes
  import opened Types
  import opened Addr
  import opened Notifications
  import opened NotificationCodec
  import Events
  import opened Kernel
  import opened Receive
  import opened Runs
  import opened Async

  // -- Socket::connectx ---------------------------------------------------------------------

  const SetupTimedOut := TimedOut("SCTP association setup timed out (SO_SNDTIMEO)")

  /** `classify_connectx_error`: EINPROGRESS is progress only on a non-blocking socket. */
  function Classify(errno: int, nonblocking: bool): Result<()> {
    if errno != EINPROGRESS then Err(Os(errno))
    else if nonblocking then Ok(())
    else Err(SetupTimedOut)
  }

  /** The crate's `connectx`; the mode is only queried (a further system call) on EINPROGRESS. */
  function Connectx(k: Kernel, addrs: seq<SocketAddr>, refusal: Option<Refusal>): (Kernel, Result<()>) {
    if addrs == [] then (k, Err(InvalidInput("no addresses")))
    else
      var (k1, errno) := SysConnectx(k, refusal);
      if errno.None? then (k1, Ok(()))
      else if errno.value == EINPROGRESS then
        var k2 := Arrive(k1);
        (k2, Classify(EINPROGRESS, k2.nonblocking))
      else (k1, Classify(errno.value, false))
  }

  lemma ArriveKeepsMode(k: Kernel)
    ensures var k1 := Arrive(k);
      && k1.nonblocking == k.nonblocking && k1.subs == k.subs && k1.supported == k.supported && k1.host == k.host
      && k1.style == k.style
      && (k.phase == Closed ==> k1.phase == Closed && k1.queue == k.queue)
      && (k.phase != Closed ==> k1.phase != Closed)
      && (k.phase == Down ==> k1.phase == Down)
      && (HasComeUp(k.phase) ==> HasComeUp(k1.phase))
  {
    hide Emit;
    if k.schedule != [] {
      PhasesProgress(k.host.endian, k.subs, k.phase, k.schedule[0]);
    }
  }

  lemma {:induction false} PhasesProgress(e: Endian, subs: set<EventType>, phase: Phase, hs: seq<Happening>)
    ensures phase == Closed ==> PhaseAll(phase, hs) == Closed && EmitAll(e, subs, phase, hs) == []
    ensures phase != Closed ==> PhaseAll(phase, hs) != Closed
    ensures phase == Down ==> PhaseAll(phase, hs) == Down
    ensures HasComeUp(phase) ==> HasComeUp(PhaseAll(phase, hs))
    decreases |hs|
  {
    if hs != [] {
      PhasesProgress(e, subs, PhaseStep(phase, hs[0]), hs[1..]);
    }
  }

  /**
   * What `connectx` returns on every socket. A blocking one waits: success if and only if the association has
   * come up, a timeout if and only if the handshake is still running, a refusal if and only if setup failed.
   * On a non-blocking one success means that the handshake was started.
   */
  lemma ConnectxMeaning(k: Kernel, addrs: seq<SocketAddr>, refusal: Option<Refusal>)
    ensures var (k1, r) := Connectx(k, addrs, refusal);
      var waited := SysConnectx(k, refusal).0;
      && (addrs == [] ==> k1 == k && r == Err(InvalidInput("no addresses")))
      && (addrs != [] && refusal.Some? ==> k1 == waited && r == Err(Os(refusal.value)))
      && (addrs != [] && refusal.None? && k.phase != Closed ==> k1 == waited && r == Err(Os(EISCONN)))
      && (addrs != [] && refusal.None? && k.phase == Closed && !k.nonblocking ==>
            && (r == Ok(()) <==> HasComeUp(waited.phase))
            && (r.Err? && r.error.TimedOut? <==> waited.phase == Handshaking)
            && (r == Err(Os(ECONNREFUSED)) <==> waited.phase == Down)
            && k1 == if waited.phase == Handshaking then Arrive(waited) else waited)
      && (addrs != [] && refusal.None? && k.phase == Closed && k.nonblocking ==>
            r == Ok(()) && waited.phase == Handshaking && k1 == Arrive(waited))
  {
    hide Arrive;
    ArriveKeepsMode(k);
    var started := Arrive(k).(phase := Handshaking);
    ArriveKeepsMode(started);
    ArriveKeepsMode(SysConnectx(k, refusal).0);
  }

  // -- StreamBuilder::connectx ------------------------------------------------------------------

  /** One connect: its addresses, and how the kernel and the reactor take it. */
  datatype ConnectCall = ConnectCall(addrs: seq<SocketAddr>, refusal: Option<Refusal>, reactor: Option<IoError>)

  /** From the builder to the wait: subscribe if the caller has not, switch to non-blocking, start connecting. */
  function Begin(k: Kernel, subscribed: bool, call: ConnectCall): (Kernel, Result<()>) {
    var (k1, r1) := if subscribed then (k, Ok(())) else SysSubscribe(k, Events.AssocChange, true);
    if r1.Err? then (k1, r1)
    else
      var k2 := SysSetNonblocking(k1, true);
      if call.reactor.Some? then (k2, Err(call.reactor.value)) else Connectx(k2, call.addrs, call.refusal)
  }

  /** Begins and, unless that is refused, waits. */
  ghost function Connecting(k: Kernel, subscribed: bool, call: ConnectCall, wakes: seq<Wakeup>): (Kernel, Progress) {
    var (k1, r1) := Begin(k, subscribed, call);
    if r1.Err? then (k1, Returned(r1)) else Establish(k1, wakes)
  }

  /** The whole of `StreamBuilder::connectx`. */
  ghost function ConnectStream(k: Kernel, subscribed: bool, call: ConnectCall, wakes: seq<Wakeup>): (Kernel, Progress) {
    var (k2, p) := Connecting(k, subscribed, call, wakes);
    if p != Returned(Ok(())) || subscribed then (k2, p)
    else
      var (k3, r3) := SysSubscribe(k2, Events.AssocChange, false);
      (k3, Returned(r3))
  }

  const NotOneToOne := InvalidInput("socket is not one-to-one")

  /** The whole of `SctpStream::connectx_from_socket`: the style is queried first, the subscription is kept. */
  ghost function ConnectFrom(k: Kernel, call: ConnectCall, wakes: seq<Wakeup>): (Kernel, Progress) {
    var k0 := Arrive(k);
    if k0.style != OneToOne then (k0, Returned(Err(NotOneToOne))) else Connecting(k0, false, call, wakes)
  }

  method SubscribeEvent(sock: Socket, ev: EventType, on: bool) returns (r: Result<()>)
    modifies sock
    ensures (sock.kernel, r) == SysSubscribe(old(sock.kernel), ev, on)
  {
    var (k, result) := SysSubscribe(sock.kernel, ev, on);
    sock.kernel := k;
    r := result;
  }

  /**
   * `register`: the socket becomes non-blocking before it reaches the reactor, which may refuse it. No
   * subscription changes, a socket without an association stays untouched, and nothing to read is lost.
   */
  method Register(sock: Socket, reactor: Option<IoError>) returns (r: Result<()>)
    modifies sock
    ensures sock.kernel == SysSetNonblocking(old(sock.kernel), true)
    ensures sock.kernel.nonblocking && Future(sock.kernel) == Future(old(sock.kernel))
    ensures sock.kernel.subs == old(sock.kernel.subs) && sock.kernel.supported == old(sock.kernel.supported)
    ensures sock.kernel.host == old(sock.kernel.host) && sock.kernel.style == old(sock.kernel.style)
    ensures old(sock.kernel.phase) == Closed ==>
      sock.kernel.phase == Closed && sock.kernel.queue == old(sock.kernel.queue)
    ensures r.Ok? <==> reactor.None?
    ensures r.Err? ==> r.error == reactor.value
  {
    ArriveKeepsMode(sock.kernel);
    ArriveOnlyAppends(sock.kernel);
    SameFutureModeless(Arrive(sock.kernel), true);
    sock.kernel := SysSetNonblocking(sock.kernel, true);
    r := if reactor.Some? then Err(reactor.value) else Ok(());
  }

  lemma SameFutureModeless(k: Kernel, on: bool)
    ensures Future(k.(nonblocking := on)) == Future(k)
  {
  }

  method ConnectxSocket(sock: Socket, addrs: seq<SocketAddr>, refusal: Option<Refusal>) returns (r: Result<()>)
    modifies sock
    ensures (sock.kernel, r) == Connectx(old(sock.kernel), addrs, refusal)
  {
    if addrs == [] {
      return Err(InvalidInput("no addresses"));
    }
    var (k, errno) := SysConnectx(sock.kernel, refusal);
    sock.kernel := k;
    if errno.None? {
      return Ok(());
    }
    var nonblocking := false;
    if errno.value == EINPROGRESS {
      sock.kernel := Arrive(sock.kernel);
      nonblocking := sock.kernel.nonblocking;
    }
    r := Classify(errno.value, nonblocking);
  }

  ghost function EventSet(events: seq<EventType>): set<EventType> {
    set ev | ev in events
  }

  /** A socket nothing has happened to yet. */
  ghost predicate Fresh(k: Kernel) {
    k.phase == Closed && k.queue == []
  }

  class StreamBuilder {
    const sock: Socket
    var assocChangeSubscribed: bool
    /** Everything the caller asked for so far. */
    ghost var requested: set<EventType>

    /** The flag says whether the caller subscribed to AssocChange, and the socket agrees. */
    ghost predicate Valid()
      reads this, sock
    {
      && Fresh(sock.kernel)
      && sock.kernel.subs == requested
      && (assocChangeSubscribed <==> Events.AssocChange in sock.kernel.subs)
    }

    constructor (sock: Socket)
      requires Fresh(sock.kernel) && sock.kernel.subs == {}
      ensures Valid() && requested == {} && this.sock == sock
    {
      this.sock := sock;
      assocChangeSubscribed := false;
      requested := {};
    }

    /** Keeps flag and subscriptions in step; fails exactly if some class is unknown to the kernel. */
    method SubscribeEvents(events: seq<EventType>) returns (r: Result<()>)
      requires Valid()
      modifies this, sock
      ensures r.Ok? <==> forall ev :: ev in events ==> ev in old(sock.kernel.supported)
      ensures r.Err? ==>
        && r.error == Os(EINVAL) && unchanged(this)
        && exists i :: 0 <= i < |events| && events[i] !in old(sock.kernel.supported)
                       && sock.kernel.subs == old(sock.kernel.subs) + EventSet(events[..i])
      ensures r.Ok? ==> Valid() && requested == old(requested) + EventSet(events)
      ensures sock.kernel.supported == old(sock.kernel.supported)
    {
      for i := 0 to |events|
        invariant Fresh(sock.kernel) && unchanged(this)
        invariant sock.kernel.supported == old(sock.kernel.supported)
        invariant sock.kernel.subs == old(sock.kernel.subs) + EventSet(events[..i])
        invariant forall ev :: ev in events[..i] ==> ev in sock.kernel.supported
      {
        ArriveKeepsMode(sock.kernel);
        var one := SubscribeEvent(sock, events[i], true);
        if one.Err? {
          return one;
        }
        assert EventSet(events[..i + 1]) == EventSet(events[..i]) + {events[i]} by {
          assert events[..i + 1] == events[..i] + [events[i]];
        }
      }
      assert events[..|events|] == events;
      if Events.AssocChange in events {
        assocChangeSubscribed := true;
      }
      requested := requested + EventSet(events);
      r := Ok(());
    }

    /**
     * The connect itself. Once it has returned successfully the association is established and the
     * subscriptions are exactly what the caller requested.
     */
    method ConnectxStream(call: ConnectCall, wakes: seq<Wakeup>) returns (p: Progress)
      requires Valid()
      modifies sock
      ensures (sock.kernel, p) == ConnectStream(old(sock.kernel), assocChangeSubscribed, call, wakes)
      ensures p == Returned(Ok(())) ==>
        && sock.kernel.subs == requested && sock.kernel.nonblocking && HasComeUp(sock.kernel.phase)
    {
      hide Establish, Arrive;
      ConnectSafety(sock.kernel, assocChangeSubscribed, call, wakes);
      if !assocChangeSubscribed {
        var r := SubscribeEvent(sock, Events.AssocChange, true);
        if r.Err? {
          return Returned(r);
        }
      }
      var r := Register(sock, call.reactor);
      if r.Err? {
        return Returned(r);
      }
      r := ConnectxSocket(sock, call.addrs, call.refusal);
      if r.Err? {
        return Returned(r);
      }
      p := Established(sock, wakes);
      if p == Returned(Ok(())) && !assocChangeSubscribed {
        r := SubscribeEvent(sock, Events.AssocChange, false);
        p := Returned(r);
      }
    }
  }

  ghost function UnionOf(calls: seq<seq<EventType>>): set<EventType> {
    if calls == [] then {} else UnionOf(calls[..|calls| - 1]) + EventSet(calls[|calls| - 1])
  }

  /** Any number of `subscribe_events` calls and then the connect: success leaves exactly their union subscribed. */
  method SubscribeThenConnect(
    sock: Socket, calls: seq<seq<EventType>>, call: ConnectCall, wakes: seq<Wakeup>)
    returns (p: Progress)
    requires Fresh(sock.kernel) && sock.kernel.subs == {}
    modifies sock
    ensures p == Returned(Ok(())) ==> sock.kernel.subs == UnionOf(calls)
  {
    var builder := new StreamBuilder(sock);
    for i := 0 to |calls|
      invariant fresh(builder) && builder.sock == sock && builder.Valid()
      invariant builder.requested == UnionOf(calls[..i])
    {
      var r := builder.SubscribeEvents(calls[i]);
      if r.Err? {
        return Returned(r);
      }
      assert calls[..i + 1][..i] == calls[..i];
    }
    assert calls[..|calls|] == calls;
    p := builder.ConnectxStream(call, wakes);
  }

  /** `SctpStream::connectx_from_socket`: the AssocChange subscription is kept. */
  method ConnectxFromSocket(sock: Socket, call: ConnectCall, wakes: seq<Wakeup>)
    returns (p: Progress)
    requires Plausible(sock.kernel)
    modifies sock
    ensures (sock.kernel, p) == ConnectFrom(old(sock.kernel), call, wakes)
    ensures old(sock.kernel.style) == OneToMany ==> p == Returned(Err(NotOneToOne))
    ensures old(sock.kernel.phase) != Closed ==> p.Returned? && p.r.Err?
    ensures p == Returned(Ok(())) ==>
      && old(sock.kernel.style) == OneToOne && old(sock.kernel.phase) == Closed
      && sock.kernel.subs == old(sock.kernel.subs) + {Events.AssocChange}
      && sock.kernel.nonblocking && HasComeUp(sock.kernel.phase)
  {
    hide Establish, Arrive, ConsumedNotices, UserDataOf;
    FromSocketSafety(sock.kernel, call, wakes);
    ArriveKeepsMode(sock.kernel);
    sock.kernel := Arrive(sock.kernel);
    if sock.kernel.style != OneToOne {
      return Returned(Err(NotOneToOne));
    }
    var r := SubscribeEvent(sock, Events.AssocChange, true);
    if r.Err? {
      return Returned(r);
    }
    r := Register(sock, call.reactor);
    if r.Err? {
      return Returned(r);
    }
    r := ConnectxSocket(sock, call.addrs, call.refusal);
    if r.Err? {
      return Returned(r);
    }
    p := Established(sock, wakes);
  }

  // -- safety --------------------------------------------------------------------------------------

  /** A `CommUp` is queued only once the association has come up. */
  ghost predicate Honest(k: Kernel) {
    && k.phase != Closed
    && (!HasComeUp(k.phase) ==> forall i :: 0 <= i < |k.queue| ==> !IsUp(k.host.endian, k.queue[i]))
  }

  /** The socket is subscribed, non-blocking and its handshake has started on an empty queue. */
  ghost predicate Started(k: Kernel, from: Kernel) {
    && Events.AssocChange in k.subs && k.nonblocking && InSync(k) && Honest(k)
    && k.host == from.host && k.subs == from.subs + {Events.AssocChange} && k.supported == from.supported
    && DataAfterUp(k.host.endian, Future(k))
  }

  /** Every data entry is preceded by a CommUp. */
  ghost predicate DataAfterUp(e: Endian, q: seq<Entry>) {
    forall i :: 0 <= i < |q| && q[i].UserData? ==> exists j :: 0 <= j < i && IsUp(e, q[j])
  }

  lemma AnnouncementParses(e: Endian, state: AssocChangeState, cause: u16, outbound: u16, inbound: u16, id: AssocId)
    requires !state.UnknownState?
    ensures var bytes := AssocChangeBytes(e, state, cause, outbound, inbound, id);
      Judge(e, bytes, ESTABLISH_BUF) == Notified(Notification.AssocChange(state, cause, outbound, inbound, id, []))
  {
    hide U16Bytes, U32Bytes, I32Bytes, Header, Parse;
    ParseInvertsEncode(e, Notification.AssocChange(state, cause, outbound, inbound, id, []),
                       Slack(0, 20, [], false, [], [], []));
  }

  /** What a happening emits is a CommUp only if it is the establishment, and data only if established. */
  lemma EmitFacts(e: Endian, subs: set<EventType>, phase: Phase, h: Happening)
    ensures var out := Emit(e, subs, phase, h);
      && |out| <= 1
      && (out != [] && out[0].UserData? ==> phase == Up)
      && (out != [] && IsUp(e, out[0]) ==> phase == Handshaking && h.CameUp? && Events.AssocChange in subs)
      && (phase == Handshaking && h.CameUp? && Events.AssocChange in subs ==> out != [] && IsUp(e, out[0]))
  {
    hide AssocChangeBytes, Parse;
    match h
    case CameUp(o, i, id) => AnnouncementParses(e, CommUp, 0, o, i, id);
    case SetupFailed(lost, cause, id, _) => AnnouncementParses(e, if lost then CommLost else CantStartAssoc, cause, 0, 0, id);
    case WentAway(lost, cause, id, _) => AnnouncementParses(e, if lost then CommLost else ShutdownComplete, cause, 0, 0, id);
    case _ =>
  }

  lemma {:induction false} NoDataWhenDown(e: Endian, subs: set<EventType>, hs: seq<Happening>)
    ensures forall i :: 0 <= i < |EmitAll(e, subs, Down, hs)| ==> EmitAll(e, subs, Down, hs)[i].Notice?
    decreases |hs|
  {
    hide Emit;
    if hs != [] {
      EmitFacts(e, subs, Down, hs[0]);
      NoDataWhenDown(e, subs, hs[1..]);
    }
  }

  /** Subscribed before the handshake, the queue never shows data without a CommUp in front of it. */
  lemma {:induction false} EmitsDataAfterUp(e: Endian, subs: set<EventType>, hs: seq<Happening>)
    requires Events.AssocChange in subs
    ensures DataAfterUp(e, EmitAll(e, subs, Handshaking, hs))
    decreases |hs|
  {
    hide Emit, IsUp, DataAfterUp;
    if hs == [] {
      NoDataNoUp(e, []);
    } else {
      EmitFacts(e, subs, Handshaking, hs[0]);
      var out, rest := Emit(e, subs, Handshaking, hs[0]), EmitAll(e, subs, PhaseStep(Handshaking, hs[0]), hs[1..]);
      if hs[0].CameUp? {
        UpThenAnything(e, out, rest);
      } else {
        if hs[0].SetupFailed? {
          NoDataWhenDown(e, subs, hs[1..]);
          NoDataNoUp(e, rest);
        } else {
          EmitsDataAfterUp(e, subs, hs[1..]);
        }
        NoticeThenMore(e, out, rest);
      }
    }
  }

  lemma NoDataNoUp(e: Endian, q: seq<Entry>)
    requires forall i :: 0 <= i < |q| ==> q[i].Notice?
    ensures DataAfterUp(e, q)
  {
  }

  lemma UpThenAnything(e: Endian, up: seq<Entry>, more: seq<Entry>)
    requires |up| == 1 && IsUp(e, up[0])
    ensures DataAfterUp(e, up + more)
  {
    hide IsUp;
    var q := up + more;
    assert IsUp(e, q[0]);
    assert q[0].Notice? by {
      UpIsNotice(e, q[0]);
    }
  }

  lemma UpIsNotice(e: Endian, entry: Entry)
    requires IsUp(e, entry)
    ensures entry.Notice?
  {
  }

  lemma NoticeThenMore(e: Endian, out: seq<Entry>, rest: seq<Entry>)
    requires forall i :: 0 <= i < |out| ==> out[i].Notice?
    requires DataAfterUp(e, rest)
    ensures DataAfterUp(e, out + rest)
  {
    hide IsUp;
    var q: seq<Entry> := out + rest;
    forall i | 0 <= i < |q| && q[i].UserData?
      ensures exists j :: 0 <= j < i && IsUp(e, q[j])
    {
      assert i >= |out| && rest[i - |out|].UserData?;
      var j :| 0 <= j < i - |out| && IsUp(e, rest[j]);
      assert IsUp(e, q[j + |out|]);
    }
  }

  /** Nothing emitted by happenings that do not establish the association is a CommUp. */
  lemma {:induction false} NoUpUnlessEstablished(e: Endian, subs: set<EventType>, phase: Phase, hs: seq<Happening>)
    requires !HasComeUp(PhaseAll(phase, hs))
    ensures forall i :: 0 <= i < |EmitAll(e, subs, phase, hs)| ==> !IsUp(e, EmitAll(e, subs, phase, hs)[i])
    decreases |hs|
  {
    hide Emit, IsUp;
    if hs != [] {
      EmitFacts(e, subs, phase, hs[0]);
      PhasesProgress(e, subs, PhaseStep(phase, hs[0]), hs[1..]);
      NoUpUnlessEstablished(e, subs, PhaseStep(phase, hs[0]), hs[1..]);
    }
  }

  lemma ArriveKeepsHonest(k: Kernel)
    requires Honest(k)
    ensures Honest(Arrive(k))
  {
    hide IsUp;
    ArriveKeepsMode(k);
    if k.schedule != [] && !HasComeUp(Arrive(k).phase) {
      NoUpUnlessEstablished(k.host.endian, k.subs, k.phase, k.schedule[0]);
    }
  }

  lemma ArriveKeepsStarted(k: Kernel, from: Kernel)
    requires Started(k, from)
    ensures Started(Arrive(k), from)
  {
    hide Arrive, Future, IsUp, InSync, Honest, DataAfterUp;
    ArriveOnlyAppends(k);
    ArriveKeepsMode(k);
    ArriveKeepsSync(k);
    ArriveKeepsHonest(k);
  }

  lemma FreshArrive(k: Kernel)
    requires Fresh(k)
    ensures Fresh(Arrive(k)) && InSync(Arrive(k))
    ensures Arrive(k).host == k.host && Arrive(k).subs == k.subs && Arrive(k).supported == k.supported
    ensures Arrive(k).nonblocking == k.nonblocking
  {
    hide Arrive;
    ArriveKeepsMode(k);
  }

  /** When the wait begins, the subscription is in place and nothing has been missed. */
  lemma BeginStarts(k: Kernel, subscribed: bool, call: ConnectCall)
    requires Fresh(k)
    requires subscribed ==> Events.AssocChange in k.subs
    ensures Begin(k, subscribed, call).1.Ok? ==> Started(Begin(k, subscribed, call).0, k)
  {
    hide Arrive, Future, IsUp, DataAfterUp;
    FreshArrive(k);
    var k1 := if subscribed then k else SysSubscribe(k, Events.AssocChange, true).0;
    FreshArrive(k1);
    var k2 := SysSetNonblocking(k1, true);
    FreshArrive(k2);
    if Begin(k, subscribed, call).1.Ok? {
      assert k.subs + {Events.AssocChange} == k2.subs;
      var k3 := Arrive(k2).(phase := Handshaking);
      HandshakeOnEmptyQueue(k3);
      ArriveKeepsStarted(k3, k);
    }
  }

  /** Nothing can be queued on a socket that never had an association. */
  ghost predicate Plausible(k: Kernel) {
    k.phase == Closed ==> k.queue == []
  }

  /** Why a connect is refused before it waits: the first of these that applies. */
  function RefusalOf(k: Kernel, subscribed: bool, call: ConnectCall): Option<IoError> {
    if !subscribed && Events.AssocChange !in k.supported then Some(Os(EINVAL))
    else if call.reactor.Some? then call.reactor
    else if call.addrs == [] then Some(InvalidInput("no addresses"))
    else if call.refusal.Some? then Some(Os(call.refusal.value))
    else if k.phase != Closed then Some(Os(EISCONN))
    else None
  }

  /** A connect begins exactly if there is no reason to refuse it, and otherwise fails with that reason. */
  lemma BeginRefusals(k: Kernel, subscribed: bool, call: ConnectCall)
    ensures var why := RefusalOf(k, subscribed, call);
      Begin(k, subscribed, call).1 == if why.Some? then Err(why.value) else Ok(())
  {
    hide Arrive;
    ArriveKeepsMode(k);
    var k1 := if subscribed then k else SysSubscribe(k, Events.AssocChange, true).0;
    ArriveKeepsMode(k1);
    var k2 := SysSetNonblocking(k1, true);
    ConnectxMeaning(k2, call.addrs, call.refusal);
  }

  lemma HandshakeOnEmptyQueue(k: Kernel)
    requires k.queue == [] && k.phase == Handshaking && Events.AssocChange in k.subs
    ensures DataAfterUp(k.host.endian, Future(k))
  {
    hide EmitAll, DataAfterUp;
    EmitsDataAfterUp(k.host.endian, k.subs, Flatten(k.schedule));
    assert [] + Coming(k) == Coming(k);
  }

  lemma AttemptKeepsHonest(k: Kernel, cap: nat)
    requires InSync(k) && Honest(k)
    ensures Honest(Attempt(k, cap).0)
    ensures Attempt(k, cap).0.subs == k.subs && Attempt(k, cap).0.supported == k.supported
    ensures Attempt(k, cap).0.nonblocking == k.nonblocking
  {
    hide Arrive, Attempt, IsUp, Judge;
    AttemptRefinesDeliver(k, cap);
    ArriveKeepsHonest(k);
    ArriveKeepsMode(k);
    var k1 := Arrive(k);
    if k1.queue != [] {
      if k1.queue[0].Notice? {
        TimesKeepsHonest(k1.(queue := k1.queue[1..]), MoreReads(Max(0, |k1.queue[0].payload| - cap)));
      } else {
        DataIsNotUp(k1.host.endian, ReadHead(k1.queue[0], cap).0);
      }
    }
  }

  lemma DataIsNotUp(e: Endian, q: seq<Entry>)
    ensures forall i :: 0 <= i < |q| && q[i].UserData? ==> !IsUp(e, q[i])
  {
  }

  lemma {:induction false} TimesKeepsHonest(k: Kernel, n: nat)
    requires Honest(k)
    ensures var k1 := ArriveTimes(k, n);
      Honest(k1) && k1.subs == k.subs && k1.supported == k.supported && k1.nonblocking == k.nonblocking
    decreases n
  {
    hide Arrive, Honest;
    if n > 0 {
      ArriveKeepsHonest(k);
      ArriveKeepsMode(k);
      TimesKeepsHonest(Arrive(k), n - 1);
    }
  }

  /** `established` returns success only on an association that came up. */
  lemma {:induction false} UpImpliesEstablished(k: Kernel, wakes: seq<Wakeup>)
    requires InSync(k) && Honest(k)
    ensures var (k1, p) := Establish(k, wakes);
      && Honest(k1) && k1.subs == k.subs && k1.supported == k.supported && k1.nonblocking == k.nonblocking
      && (p == Returned(Ok(())) ==> HasComeUp(k1.phase))
    decreases |wakes|
  {
    hide Attempt, Arrive, InSync, Honest, Judge;
    if wakes != [] && wakes[0].Ready? {
      var (k1, o) := Attempt(k, ESTABLISH_BUF);
      AttemptKeepsHonest(k, ESTABLISH_BUF);
      AttemptKeepsSync(k, ESTABLISH_BUF);
      UpImpliesEstablished(k1, wakes[1..]);
      ArriveKeepsHonest(k1);
      ArriveKeepsMode(k1);
      HonestWithoutError(Arrive(k1));
      if o.Notified? && o.n.AssocChange? && o.n.state == CommUp {
        CommUpMeansUp(k);
      }
    }
  }

  lemma HonestWithoutError(k: Kernel)
    requires Honest(k)
    ensures Honest(k.(soError := None))
  {
  }

  lemma CommUpMeansUp(k: Kernel)
    requires InSync(k) && Honest(k)
    requires var o := Attempt(k, ESTABLISH_BUF).1; o.Notified? && o.n.AssocChange? && o.n.state == CommUp
    ensures HasComeUp(Attempt(k, ESTABLISH_BUF).0.phase)
  {
    hide Arrive, Attempt, Parse;
    AttemptRefinesDeliver(k, ESTABLISH_BUF);
    ArriveKeepsHonest(k);
    ArriveOnlyAppends(k);
    var k1 := Arrive(k);
    assert k1.queue != [] && k1.queue[0].Notice?;
    assert IsUp(k1.host.endian, k1.queue[0]);
    assert HasComeUp(k1.phase);
    TimesKeepsUp(k1.(queue := k1.queue[1..]), MoreReads(Max(0, |k1.queue[0].payload| - ESTABLISH_BUF)));
  }

  lemma {:induction false} TimesKeepsUp(k: Kernel, n: nat)
    requires HasComeUp(k.phase)
    ensures HasComeUp(ArriveTimes(k, n).phase)
    decreases n
  {
    hide Arrive;
    if n > 0 {
      ArriveKeepsMode(k);
      TimesKeepsUp(Arrive(k), n - 1);
    }
  }

  /** How many entries were consumed between two states of the same stream. */
  ghost function Consumed(k: Kernel, k1: Kernel): int {
    |Future(k)| - |Future(k1)|
  }

  ghost predicate ShowsUp(e: Endian, q: seq<Entry>) {
    exists i :: 0 <= i < |q| && IsUp(e, q[i])
  }

  /** From `k` to `k1` a prefix of the stream was consumed, all notifications, and its CommUp exactly on success. */
  ghost predicate ConsumedNotices(k: Kernel, k1: Kernel, p: Progress) {
    var m := Consumed(k, k1);
    && 0 <= m <= |Future(k)| && Future(k1) == Future(k)[m..]
    && (forall i :: 0 <= i < m ==> Future(k)[i].Notice?)
    && (ShowsUp(k.host.endian, Future(k)[..m]) <==> p == Returned(Ok(())))
  }

  lemma SkippedAreNotUp(e: Endian, q: seq<Entry>)
    requires AllSkip(e, q)
    ensures forall j :: 0 <= j < |q| ==> q[j].Notice? && !IsUp(e, q[j])
  {
    hide Judge;
    assert forall j :: 0 <= j < |q| ==> Skips(e, q[j]);
  }

  /** A notification decides for success exactly if it announces a CommUp. */
  lemma UpDecides(e: Endian, entry: Entry)
    requires entry.Notice?
    ensures Decision(e, entry) == Ok(()) <==> IsUp(e, entry)
    ensures IsFailure(e, entry) ==> !IsUp(e, entry)
    ensures Remains(entry) == []
  {
    hide Judge;
  }

  /** Whether the entry behind `n` that are not CommUps is one decides whether the prefix up to it shows any. */
  lemma ShowsUpAt(e: Endian, all: seq<Entry>, n: nat)
    requires n <= |all| && forall j :: 0 <= j < n ==> !IsUp(e, all[j])
    ensures !ShowsUp(e, all[..n])
    ensures n < |all| ==> (ShowsUp(e, all[..n + 1]) <==> IsUp(e, all[n]))
  {
    hide IsUp;
    if n < |all| && IsUp(e, all[n]) {
      assert all[..n + 1][n] == all[n];
    }
  }

  /** A wait that meets CommUp before any data consumes notifications only. */
  lemma SkipsOnlyNotices(k: Kernel, n: nat, k1: Kernel, wakes: seq<Wakeup>, p: Progress)
    requires DataAfterUp(k.host.endian, Future(k)) && FoldsTo(k, n, k1, wakes, p)
    ensures ConsumedNotices(k, k1, p)
    ensures p == Returned(Ok(())) ==>
      n < |Future(k)| && IsUp(k.host.endian, Future(k)[n]) && Consumed(k, k1) == n + 1
  {
    hide IsUp, IsFailure, Decision, Remains, ErrorArises, CloseArises, Future, AllSkip, Skips, ShowsUp;
    var e, all := k.host.endian, Future(k);
    SkippedAreNotUp(e, all[..n]);
    assert forall j :: 0 <= j < n ==> all[j] == all[..n][j];
    ShowsUpAt(e, all, n);
    if Future(k1) != all[n..] {
      assert all[n].Notice?;
      UpDecides(e, all[n]);
      assert Future(k1) == [] + all[n..][1..] == all[n + 1..];
    } else if n < |all| && all[n].Notice? {
      UpDecides(e, all[n]);
      assert |all[n..]| != |[] + all[n..][1..]|;
    }
  }

  /** Safety of beginning and waiting, whatever happens to the subscription afterwards. */
  lemma ConnectingSafety(k: Kernel, subscribed: bool, call: ConnectCall, wakes: seq<Wakeup>)
    requires Fresh(k) && Begin(k, subscribed, call).1.Ok?
    requires subscribed ==> Events.AssocChange in k.subs
    ensures var kw := Begin(k, subscribed, call).0;
      var (kd, p) := Establish(kw, wakes);
      var n := Skipped(kw, wakes);
      && kw.host == k.host && kd.host == k.host && InSync(kw) && InSync(kd) && ConsumedNotices(kw, kd, p)
      && kd.subs == k.subs + {Events.AssocChange} && kd.supported == k.supported && kd.nonblocking
      && (p == Returned(Ok(())) ==>
            && n < |Future(kw)| && AllSkip(k.host.endian, Future(kw)[..n]) && IsUp(k.host.endian, Future(kw)[n])
            && Future(kd) == Future(kw)[n + 1..] && HasComeUp(kd.phase))
  {
    hide Begin, Establish, Arrive, Future, Skipped, InSync, Honest, DataAfterUp, AllSkip, IsUp, Ends;
    BeginStarts(k, subscribed, call);
    var kw := Begin(k, subscribed, call).0;
    var (kd, p) := Establish(kw, wakes);
    EstablishRefinesFold(kw, wakes);
    SkipsOnlyNotices(kw, Skipped(kw, wakes), kd, wakes, p);
    UpImpliesEstablished(kw, wakes);
    EstablishKeepsSync(kw, wakes);
  }

  /**
   * Safety in every interleaving. From the moment the wait begins, whatever the outcome, only notifications
   * are consumed, never user data, and a CommUp is consumed exactly if success is returned: then the prefix
   * ending at it is consumed and nothing later, the association has come up, and the subscriptions are those
   * the caller asked for. The result of the connect is the result of the wait, or the reason not to begin it.
   */
  lemma ConnectSafety(k: Kernel, subscribed: bool, call: ConnectCall, wakes: seq<Wakeup>)
    requires Fresh(k)
    requires subscribed <==> Events.AssocChange in k.subs
    ensures var kw := Begin(k, subscribed, call).0;
      var (kd, p) := Establish(kw, wakes);
      var (kf, final) := ConnectStream(k, subscribed, call, wakes);
      var why := RefusalOf(k, subscribed, call);
      && (why.Some? ==> kf == kw && final == Returned(Err(why.value)))
      && (why.None? ==>
            && final == p && ConsumedNotices(kw, kd, p) && InSync(kf)
            && (final != Returned(Ok(())) ==> kf == kd))
      && (final == Returned(Ok(())) ==>
            var n := Skipped(kw, wakes);
            && why.None?
            && n < |Future(kw)| && AllSkip(k.host.endian, Future(kw)[..n]) && IsUp(k.host.endian, Future(kw)[n])
            && Future(kd) == Future(kw)[n + 1..] && kd.queue <= kf.queue
            && kf.subs == k.subs && kf.nonblocking && HasComeUp(kf.phase))
  {
    hide Begin, Establish, Arrive, Future, Skipped, InSync, AllSkip, IsUp, ConsumedNotices;
    BeginRefusals(k, subscribed, call);
    if RefusalOf(k, subscribed, call).None? {
      ConnectingSafety(k, subscribed, call, wakes);
      var kd := Establish(Begin(k, subscribed, call).0, wakes).0;
      SubscribeKeepsSync(kd, Events.AssocChange, false);
      ArriveKeepsMode(kd);
      ArriveOnlyAppends(kd);
      assert kd.subs - {Events.AssocChange} == k.subs - {Events.AssocChange};
    }
  }

  /**
   * The same for a connect on an existing socket: the result is the wait's, or the reason not to begin it;
   * only notifications are consumed, a CommUp exactly on success, no user data is lost, and the subscription
   * stays.
   */
  lemma FromSocketSafety(k: Kernel, call: ConnectCall, wakes: seq<Wakeup>)
    requires Plausible(k)
    ensures var k0 := Arrive(k);
      var kw := Begin(k0, false, call).0;
      var (kf, final) := ConnectFrom(k, call, wakes);
      var why := RefusalOf(k, false, call);
      && (k.style == OneToMany ==> kf == k0 && final == Returned(Err(NotOneToOne)))
      && (k.style == OneToOne && why.Some? ==> kf == kw && final == Returned(Err(why.value)))
      && (k.style == OneToOne && why.None? ==>
            && (kf, final) == Establish(kw, wakes)
            && ConsumedNotices(kw, kf, final) && InSync(kf) && UserDataOf(kf) == UserDataOf(kw)
            && kf.subs == k.subs + {Events.AssocChange} && kf.nonblocking
            && (final == Returned(Ok(())) ==> HasComeUp(kf.phase)))
      && (final == Returned(Ok(())) ==> k.style == OneToOne && why.None? && k.phase == Closed)
  {
    hide Begin, Establish, Arrive, Future, Skipped, InSync, AllSkip, IsUp, ConsumedNotices, UserDataOf;
    ArriveKeepsMode(k);
    var k0 := Arrive(k);
    BeginRefusals(k0, false, call);
    if k.style == OneToOne && RefusalOf(k, false, call).None? {
      FreshArrive(k);
      ConnectingSafety(k0, false, call, wakes);
      var kw := Begin(k0, false, call).0;
      var (kd, p) := Establish(kw, wakes);
      ConsumedNoticesKeepData(kw, kd, p);
    }
  }

  lemma {:induction false} EstablishKeepsSync(k: Kernel, wakes: seq<Wakeup>)
    requires InSync(k)
    ensures InSync(Establish(k, wakes).0) && Establish(k, wakes).0.host == k.host
    decreases |wakes|
  {
    hide Attempt, Arrive, InSync;
    if wakes != [] && wakes[0].Ready? {
      var k1 := Attempt(k, ESTABLISH_BUF).0;
      AttemptKeepsSync(k, ESTABLISH_BUF);
      EstablishKeepsSync(k1, wakes[1..]);
      ArriveKeepsSync(k1);
      ArriveOnlyAppends(k1);
      SyncIsOfTheQueue(Arrive(k1), SysTakeError(k1).0);
    }
  }

  lemma SyncIsOfTheQueue(k: Kernel, k1: Kernel)
    requires InSync(k) && k1.queue == k.queue
    ensures InSync(k1)
  {
  }

  lemma SubscribeKeepsSync(k: Kernel, ev: EventType, on: bool)
    requires InSync(k)
    ensures InSync(SysSubscribe(k, ev, on).0)
  {
    hide Arrive, InSync;
    ArriveKeepsSync(k);
    SyncIsOfTheQueue(Arrive(k), SysSubscribe(k, ev, on).0);
  }

  // -- no user data is lost by connecting ------------------------------------------------------------

  lemma {:induction false} NoticesHoldNoData(h: Host, q: seq<Entry>)
    requires forall i :: 0 <= i < |q| ==> q[i].Notice?
    ensures WithoutSignals(Atoms(h, q)) == []
  {
    if q != [] {
      NoticesHoldNoData(h, q[1..]);
      var signal := EntryAtoms(h, q[0]);
      assert signal[1..] == [];
      WithoutSignalsAppend(signal, Atoms(h, q[1..]));
      assert WithoutSignals(signal) == WithoutSignals([]) == [];
    }
  }

  lemma EmittedDataIgnoresSubscriptions(
    h: Host, subs1: set<EventType>, subs2: set<EventType>, phase: Phase, happening: Happening)
    ensures WithoutSignals(Atoms(h, Emit(h.endian, subs1, phase, happening)))
         == WithoutSignals(Atoms(h, Emit(h.endian, subs2, phase, happening)))
  {
    hide AssocChangeBytes, Atoms, WithoutSignals, Parse;
    if !happening.Arrived? {
      NoticesHoldNoData(h, Emit(h.endian, subs1, phase, happening));
      NoticesHoldNoData(h, Emit(h.endian, subs2, phase, happening));
    }
  }

  /** Subscriptions decide which notifications are queued, never which data. */
  lemma {:induction false} DataIgnoresSubscriptions(
    h: Host, subs1: set<EventType>, subs2: set<EventType>, phase: Phase, hs: seq<Happening>)
    ensures WithoutSignals(Atoms(h, EmitAll(h.endian, subs1, phase, hs)))
         == WithoutSignals(Atoms(h, EmitAll(h.endian, subs2, phase, hs)))
    decreases |hs|
  {
    hide Emit, Atoms, WithoutSignals;
    if hs != [] {
      var next, later := PhaseStep(phase, hs[0]), hs[1..];
      var here1, here2 := Emit(h.endian, subs1, phase, hs[0]), Emit(h.endian, subs2, phase, hs[0]);
      DataIgnoresSubscriptions(h, subs1, subs2, next, later);
      AtomsAppend(h, here1, EmitAll(h.endian, subs1, next, later));
      AtomsAppend(h, here2, EmitAll(h.endian, subs2, next, later));
      WithoutSignalsAppend(Atoms(h, here1), Atoms(h, EmitAll(h.endian, subs1, next, later)));
      WithoutSignalsAppend(Atoms(h, here2), Atoms(h, EmitAll(h.endian, subs2, next, later)));
      EmittedDataIgnoresSubscriptions(h, subs1, subs2, phase, hs[0]);
    }
  }

  lemma SubscribeKeepsData(k: Kernel, ev: EventType, on: bool)
    ensures UserDataOf(SysSubscribe(k, ev, on).0) == UserDataOf(k)
    ensures SysSubscribe(k, ev, on).0.host == k.host
  {
    hide Arrive, EmitAll, Atoms;
    ArriveOnlyAppends(k);
    var k1, k2 := Arrive(k), SysSubscribe(k, ev, on).0;
    DataIgnoresSubscriptions(k.host, k1.subs, k2.subs, k1.phase, Flatten(k1.schedule));
    AtomsAppend(k.host, k1.queue, Coming(k1));
    AtomsAppend(k.host, k1.queue, Coming(k2));
    WithoutSignalsAppend(Atoms(k.host, k1.queue), Atoms(k.host, Coming(k1)));
    WithoutSignalsAppend(Atoms(k.host, k1.queue), Atoms(k.host, Coming(k2)));
  }

  lemma ConsumedNoticesKeepData(k: Kernel, k1: Kernel, p: Progress)
    requires ConsumedNotices(k, k1, p) && k1.host == k.host
    ensures UserDataOf(k1) == UserDataOf(k)
  {
    hide Future, Atoms, ShowsUp;
    var all, m := Future(k), Consumed(k, k1);
    assert all == all[..m] + all[m..];
    AtomsAppend(k.host, all[..m], all[m..]);
    WithoutSignalsAppend(Atoms(k.host, all[..m]), Atoms(k.host, all[m..]));
    NoticesHoldNoData(k.host, all[..m]);
  }

  /**
   * Connecting loses no user data, whatever its outcome and the subscriptions it leaves: the data results of
   * any receive operations afterwards, retried and cancelled at will, followed by the data still to come, are
   * all the data there was to come when the wait began.
   */
  lemma ConnectThenReceive(k: Kernel, subscribed: bool, call: ConnectCall, wakes: seq<Wakeup>, ops: seq<Op>)
    requires Fresh(k) && Begin(k, subscribed, call).1.Ok?
    requires subscribed <==> Events.AssocChange in k.subs
    ensures var kf := ConnectStream(k, subscribed, call, wakes).0;
      UserDataOf(Begin(k, subscribed, call).0) == ReceivedBy(Serve(kf, ops).1) + UserDataOf(Serve(kf, ops).0)
  {
    hide Begin, Establish, SysSubscribe, UserDataOf, InSync, Serve, ConsumedNotices, Future;
    var kw := Begin(k, subscribed, call).0;
    var (kd, p) := Establish(kw, wakes);
    var kf := ConnectStream(k, subscribed, call, wakes).0;
    BeginRefusals(k, subscribed, call);
    ConnectingSafety(k, subscribed, call, wakes);
    ConnectSafety(k, subscribed, call, wakes);
    ConsumedNoticesKeepData(kw, kd, p);
    SubscribeKeepsData(kd, Events.AssocChange, false);
    AsyncDataConserved(kf, ops);
  }

  // -- the handshake decides the connect -------------------------------------------------------------

  predicate Decisive(h: Happening) {
    h.CameUp? || h.SetupFailed?
  }

  /** Happenings that neither end the handshake nor break the socket. */
  predicate Benign(e: Endian, h: Happening) {
    h.Arrived? || (h.Raised? && Skips(e, Notice(h.payload, 0)))
  }

  /** The handshake ends, and only benign things happen before; what happens afterwards is arbitrary. */
  ghost predicate Settled(e: Endian, hs: seq<Happening>)
    decreases |hs|
  {
    hs != [] && (Decisive(hs[0]) || (Benign(e, hs[0]) && Settled(e, hs[1..])))
  }

  /** How the handshake ends. */
  function Decider(hs: seq<Happening>): (d: Option<Happening>)
    ensures d.Some? ==> Decisive(d.value)
  {
    if hs == [] then None else if Decisive(hs[0]) then Some(hs[0]) else Decider(hs[1..])
  }

  ghost predicate NothingBreaks(hs: seq<Happening>) {
    forall h :: h in hs ==> !h.Broken?
  }

  predicate Announces(e: Endian, entry: Entry, d: Happening) {
    if d.CameUp? then IsUp(e, entry) else IsFailure(e, entry)
  }

  lemma DeciderAnnounced(e: Endian, subs: set<EventType>, d: Happening)
    requires Decisive(d) && Events.AssocChange in subs
    ensures var out := Emit(e, subs, Handshaking, d);
      |out| == 1 && Announces(e, out[0], d)
  {
    hide AssocChangeBytes, Parse, Judge;
    match d
    case CameUp(o, i, id) => AnnouncementParses(e, CommUp, 0, o, i, id);
    case SetupFailed(lost, cause, id, _) => AnnouncementParses(e, if lost then CommLost else CantStartAssoc, cause, 0, 0, id);
  }

  lemma BenignSkipped(e: Endian, subs: set<EventType>, h: Happening)
    requires Benign(e, h)
    ensures AllSkip(e, Emit(e, subs, Handshaking, h))
    ensures !Decisive(h) && !h.PeerClosed? && PhaseStep(Handshaking, h) == Handshaking
    ensures ErrorStep(Handshaking, None, h) == None
  {
    hide Skips, AssocChangeBytes;
  }

  /** A batch in which the handshake does not end yet. */
  lemma {:induction false} QuietBatch(e: Endian, subs: set<EventType>, hs: seq<Happening>, rest: seq<Happening>)
    requires Settled(e, hs + rest) && Decider(hs).None?
    ensures AllSkip(e, EmitAll(e, subs, Handshaking, hs)) && PeerClosed !in hs
    ensures PhaseAll(Handshaking, hs) == Handshaking && ErrorAll(Handshaking, None, hs) == None
    ensures Settled(e, rest) && Decider(hs + rest) == Decider(rest)
    decreases |hs|
  {
    hide Emit, Skips, Benign;
    if hs == [] {
      assert hs + rest == rest;
    } else {
      assert (hs + rest)[0] == hs[0] && (hs + rest)[1..] == hs[1..] + rest;
      BenignSkipped(e, subs, hs[0]);
      QuietBatch(e, subs, hs[1..], rest);
    }
  }

  lemma {:induction false} DownKeepsError(err: Option<int>, hs: seq<Happening>)
    requires NothingBreaks(hs)
    ensures ErrorAll(Down, err, hs) == err
    decreases |hs|
  {
    if hs != [] {
      assert !hs[0].Broken?;
      DownKeepsError(err, hs[1..]);
    }
  }

  /** The batch in which it ends: the outcome is announced behind nothing but skipped notifications. */
  lemma {:induction false} DecidingBatch(e: Endian, subs: set<EventType>, hs: seq<Happening>, rest: seq<Happening>)
    returns (n: nat)
    requires Settled(e, hs + rest) && Decider(hs).Some? && Events.AssocChange in subs
    ensures var q, d := EmitAll(e, subs, Handshaking, hs), Decider(hs).value;
      && n < |q| && AllSkip(e, q[..n]) && Announces(e, q[n], d)
      && (if d.CameUp? then HasComeUp(PhaseAll(Handshaking, hs)) else PhaseAll(Handshaking, hs) == Down)
      && (d.SetupFailed? && NothingBreaks(hs) ==> ErrorAll(Handshaking, None, hs) == d.errno)
      && Decider(hs + rest) == Some(d)
    decreases |hs|
  {
    hide Emit, Skips, Benign, Announces;
    var h, out := hs[0], Emit(e, subs, Handshaking, hs[0]);
    assert (hs + rest)[0] == h && (hs + rest)[1..] == hs[1..] + rest;
    if Decisive(h) {
      n := 0;
      DeciderAnnounced(e, subs, h);
      PhasesProgress(e, subs, PhaseStep(Handshaking, h), hs[1..]);
      if h.SetupFailed? && NothingBreaks(hs) {
        DownKeepsError(h.errno, hs[1..]);
      }
    } else {
      BenignSkipped(e, subs, h);
      var later := DecidingBatch(e, subs, hs[1..], rest);
      n := |out| + later;
      assert (out + EmitAll(e, subs, Handshaking, hs[1..]))[..n] == out + EmitAll(e, subs, Handshaking, hs[1..])[..later];
    }
  }

  /** The handshake is running, nothing decisive is queued, and it will end with `d`. */
  ghost predicate Undecided(k: Kernel, d: Happening, calm: bool) {
    && k.phase == Handshaking && Events.AssocChange in k.subs && k.soError.None? && !k.eof
    && AllSkip(k.host.endian, k.queue)
    && Settled(k.host.endian, Flatten(k.schedule)) && Decider(Flatten(k.schedule)) == Some(d)
    && (calm ==> NothingBreaks(Flatten(k.schedule)))
  }

  /** Setup has failed; in a calm environment the pending error stays what it is. */
  ghost predicate Failing(k: Kernel, err: Option<int>, calm: bool) {
    && k.phase == Down
    && (calm ==> NothingBreaks(Flatten(k.schedule)) && k.soError == err)
  }

  /** The handshake has ended with `d`, which is announced behind `n` notifications to skip. */
  ghost predicate Decided(k: Kernel, d: Happening, n: nat, calm: bool) {
    && Decisive(d) && n < |k.queue|
    && AllSkip(k.host.endian, k.queue[..n]) && Announces(k.host.endian, k.queue[n], d)
    && (if d.CameUp? then HasComeUp(k.phase) else Failing(k, d.errno, calm))
  }

  ghost predicate Settles(k: Kernel, d: Happening, calm: bool) {
    Undecided(k, d, calm) || exists n: nat :: Decided(k, d, n, calm)
  }

  lemma FailingKeepsError(k: Kernel, err: Option<int>, calm: bool)
    requires Failing(k, err, calm)
    ensures calm ==> k.soError == err
  {
  }

  lemma ArriveKeepsFailing(k: Kernel, err: Option<int>, calm: bool)
    requires Failing(k, err, calm)
    ensures Failing(Arrive(k), err, calm)
  {
    hide EmitAll, PhaseAll;
    ArriveKeepsMode(k);
    if k.schedule != [] && calm {
      ArriveFlattens(k);
      DownKeepsError(err, k.schedule[0]);
    }
  }

  lemma {:induction false} TimesKeepsFailing(k: Kernel, err: Option<int>, calm: bool, m: nat)
    requires Failing(k, err, calm)
    ensures Failing(ArriveTimes(k, m), err, calm)
    decreases m
  {
    hide Arrive, Failing;
    if m > 0 {
      ArriveKeepsFailing(k, err, calm);
      TimesKeepsFailing(Arrive(k), err, calm, m - 1);
    }
  }

  lemma ArriveKeepsDecided(k: Kernel, d: Happening, n: nat, calm: bool)
    requires Decided(k, d, n, calm)
    ensures Decided(Arrive(k), d, n, calm)
  {
    hide Arrive, Failing, Skips, Announces;
    ArriveOnlyAppends(k);
    ArriveKeepsMode(k);
    assert Arrive(k).queue[..n] == k.queue[..n];
    if d.SetupFailed? {
      ArriveKeepsFailing(k, d.errno, calm);
    }
  }

  lemma UndecidedArrives(k: Kernel, d: Happening, calm: bool)
    requires Undecided(k, d, calm)
    ensures Settles(Arrive(k), d, calm)
  {
    hide EmitAll, PhaseAll, ErrorAll, Skips, Announces, Settled;
    assert k.schedule != [] by {
      SettledIsNonempty(k.host.endian, Flatten(k.schedule));
    }
    ArriveFlattens(k);
    var e, hs, rest, k1 := k.host.endian, k.schedule[0], Flatten(Arrive(k).schedule), Arrive(k);
    if Decider(hs).None? {
      QuietBatch(e, k.subs, hs, rest);
      assert Undecided(k1, d, calm);
    } else {
      var later := DecidingBatch(e, k.subs, hs, rest);
      var n := |k.queue| + later;
      var more := EmitAll(e, k.subs, Handshaking, hs);
      assert k1.queue[..n] == k.queue + more[..later] && k1.queue[n] == more[later];
      assert Decided(k1, d, n, calm);
    }
  }

  lemma SettledIsNonempty(e: Endian, hs: seq<Happening>)
    requires Settled(e, hs)
    ensures hs != []
  {
  }

  lemma ArriveKeepsSettles(k: Kernel, d: Happening, calm: bool)
    requires Settles(k, d, calm)
    ensures Settles(Arrive(k), d, calm)
  {
    hide Arrive, Undecided, Decided;
    if Undecided(k, d, calm) {
      UndecidedArrives(k, d, calm);
    } else {
      var n: nat :| Decided(k, d, n, calm);
      ArriveKeepsDecided(k, d, n, calm);
    }
  }

  lemma {:induction false} TimesKeepsSettles(k: Kernel, d: Happening, calm: bool, m: nat)
    requires Settles(k, d, calm)
    ensures Settles(ArriveTimes(k, m), d, calm)
    decreases m
  {
    hide Arrive, Settles;
    if m > 0 {
      ArriveKeepsSettles(k, d, calm);
      TimesKeepsSettles(Arrive(k), d, calm, m - 1);
    }
  }

  /** The head is either skipped, and nothing is decided by that, or it is the announcement. */
  lemma HeadOfSettling(k: Kernel, d: Happening, calm: bool)
    requires Settles(k, d, calm) && k.queue != []
    ensures var rest := k.(queue := k.queue[1..]);
      || (Skips(k.host.endian, k.queue[0]) && Settles(rest, d, calm))
      || (Decisive(d) && Announces(k.host.endian, k.queue[0], d) && (d.SetupFailed? ==> Failing(rest, d.errno, calm)))
  {
    hide Skips, Announces, Settled;
    var rest := k.(queue := k.queue[1..]);
    if Undecided(k, d, calm) {
      assert Skips(k.host.endian, k.queue[0]);
      assert Undecided(rest, d, calm);
    } else {
      var n: nat :| Decided(k, d, n, calm);
      if n > 0 {
        assert Skips(k.host.endian, k.queue[..n][0]);
        assert rest.queue[..n - 1] == k.queue[..n][1..];
        assert Decided(rest, d, n - 1, calm);
      }
    }
  }

  /** With nothing queued, the wait goes on. */
  lemma IdleWhileSettling(k: Kernel, d: Happening, calm: bool)
    requires InSync(k) && Settles(k, d, calm) && Arrive(k).queue == []
    ensures Attempt(k, ESTABLISH_BUF) == (Arrive(k), Failed(WouldBlock))
  {
    hide Arrive, Attempt, Settled, Skips, Announces;
    AttemptOnIdle(k, ESTABLISH_BUF);
    ArriveKeepsSettles(k, d, calm);
    assert Undecided(Arrive(k), d, calm);
  }

  lemma SettlingHasWork(k: Kernel, d: Happening, calm: bool)
    requires Settles(k, d, calm)
    ensures Work(k) > 0
  {
    hide Skips, Announces, Weight, Coming;
    if Undecided(k, d, calm) {
      SettledIsNonempty(k.host.endian, Flatten(k.schedule));
    } else {
      PositiveWeight(Future(k));
    }
  }

  /** The result of a wait on a handshake that ended with `d`. */
  ghost predicate EndedBy(d: Happening, calm: bool, p: Progress) {
    match d
    case CameUp(_, _, _) => p == Returned(Ok(()))
    case SetupFailed(_, _, _, errno) =>
      && p.Returned? && p.r.Err? && (p.r.error.Os? || p.r.error == NotEstablished)
      && (calm ==> p.r.error == if errno.Some? then Os(errno.value) else NotEstablished)
    case _ => false
  }

  /** The attempt that reads the announcement. */
  lemma AnnouncementEnds(k: Kernel, d: Happening, calm: bool, wakes: seq<Wakeup>)
    requires InSync(k) && wakes != [] && wakes[0].Ready? && Decisive(d)
    requires Arrive(k).queue != [] && Announces(k.host.endian, Arrive(k).queue[0], d)
    requires d.SetupFailed? ==> Failing(Arrive(k).(queue := Arrive(k).queue[1..]), d.errno, calm)
    ensures EndedBy(d, calm, Establish(k, wakes).1)
  {
    hide Arrive, Attempt, Parse, Failing;
    AttemptRefinesDeliver(k, ESTABLISH_BUF);
    ArriveOnlyAppends(k);
    var head, rest := Arrive(k).queue[0], Arrive(k).(queue := Arrive(k).queue[1..]);
    var m := MoreReads(Max(0, |head.payload| - ESTABLISH_BUF));
    assert Attempt(k, ESTABLISH_BUF) == (ArriveTimes(rest, m), Judge(k.host.endian, head.payload, ESTABLISH_BUF));
    if d.SetupFailed? {
      TimesKeepsFailing(rest, d.errno, calm, m);
      var k1 := ArriveTimes(rest, m);
      ArriveKeepsFailing(k1, d.errno, calm);
      FailingKeepsError(Arrive(k1), d.errno, calm);
    }
  }

  /**
   * Subscribed before the handshake, the wait returns what the handshake ended with, for every batching of
   * the environment's moves, given enough wakeups: no CommUp and no failure is ever missed.
   */
  lemma {:induction false} WaitReturnsOutcome(k: Kernel, d: Happening, calm: bool, wakes: seq<Wakeup>)
    requires InSync(k) && Settles(k, d, calm)
    requires |wakes| >= Work(k) && forall i :: 0 <= i < |wakes| ==> wakes[i].Ready?
    ensures EndedBy(d, calm, Establish(k, wakes).1)
    decreases |wakes|
  {
    hide Arrive, Attempt, InSync, Settles, Work, Judge, Announces, Failing, EndedBy;
    var e, k1 := k.host.endian, Arrive(k);
    SettlingHasWork(k, d, calm);
    ArriveKeepsSettles(k, d, calm);
    ArriveOnlyAppends(k);
    AttemptKeepsSync(k, ESTABLISH_BUF);
    CallWorks(k, ESTABLISH_BUF);
    if k1.queue == [] {
      IdleWhileSettling(k, d, calm);
      WaitReturnsOutcome(k1, d, calm, wakes[1..]);
    } else {
      HeadOfSettling(k1, d, calm);
      var rest := k1.(queue := k1.queue[1..]);
      if Skips(e, k1.queue[0]) && Settles(rest, d, calm) {
        AttemptRefinesDeliver(k, ESTABLISH_BUF);
        var m := MoreReads(Max(0, |k1.queue[0].payload| - ESTABLISH_BUF));
        TimesKeepsSettles(rest, d, calm, m);
        WaitReturnsOutcome(ArriveTimes(rest, m), d, calm, wakes[1..]);
      } else {
        AnnouncementEnds(k, d, calm, wakes);
      }
    }
  }

  /** The state in which the kernel starts the handshake. */
  function Launch(k: Kernel, subscribed: bool): Kernel {
    var k1 := if subscribed then k else SysSubscribe(k, Events.AssocChange, true).0;
    Arrive(SysSetNonblocking(k1, true)).(phase := Handshaking)
  }

  lemma {:induction false} ClosedKeepsError(err: Option<int>, hs: seq<Happening>)
    ensures ErrorAll(Closed, err, hs) == err
    decreases |hs|
  {
    if hs != [] {
      ClosedKeepsError(err, hs[1..]);
    }
  }

  lemma ClosedStaysCalm(k: Kernel)
    requires Fresh(k)
    ensures Arrive(k).soError == k.soError && Arrive(k).eof == k.eof
  {
    hide EmitAll, PhaseAll, ErrorAll;
    if k.schedule != [] {
      ClosedKeepsError(k.soError, k.schedule[0]);
    }
  }

  lemma LaunchIsCalm(k: Kernel, subscribed: bool)
    requires Fresh(k) && k.soError.None? && !k.eof
    requires Events.AssocChange in k.supported && (subscribed ==> Events.AssocChange in k.subs)
    ensures var k0 := Launch(k, subscribed);
      && k0.phase == Handshaking && k0.queue == [] && k0.soError.None? && !k0.eof && k0.nonblocking
      && Events.AssocChange in k0.subs && k0.host == k.host && k0.supported == k.supported
  {
    hide Arrive;
    FreshArrive(k);
    ClosedStaysCalm(k);
    var k1 := if subscribed then k else SysSubscribe(k, Events.AssocChange, true).0;
    FreshArrive(k1);
    ClosedStaysCalm(k1);
    var k2 := SysSetNonblocking(k1, true);
    FreshArrive(k2);
    ClosedStaysCalm(k2);
  }

  /** The wait begins on the launched handshake, after one more move of the environment. */
  lemma BeginLaunches(k: Kernel, subscribed: bool, call: ConnectCall)
    requires Fresh(k)
    ensures Begin(k, subscribed, call).1.Ok? ==> Begin(k, subscribed, call).0 == Arrive(Launch(k, subscribed))
  {
    hide Arrive;
    FreshArrive(k);
    var k1 := if subscribed then k else SysSubscribe(k, Events.AssocChange, true).0;
    FreshArrive(k1);
    FreshArrive(SysSetNonblocking(k1, true));
    ArriveKeepsMode(Launch(k, subscribed));
  }

  lemma LaunchStarts(k: Kernel, subscribed: bool)
    requires Fresh(k) && (subscribed ==> Events.AssocChange in k.subs)
    requires subscribed || Events.AssocChange in k.supported
    ensures var k0 := Launch(k, subscribed);
      k0.queue == [] && k0.phase == Handshaking && k0.host == k.host && Events.AssocChange in k0.subs
  {
    hide Arrive;
    FreshArrive(k);
    var k1 := if subscribed then k else SysSubscribe(k, Events.AssocChange, true).0;
    FreshArrive(k1);
    FreshArrive(SysSetNonblocking(k1, true));
  }

  /** Beginning and waiting returns what the handshake ends with. */
  lemma ConnectingReturnsOutcome(k: Kernel, subscribed: bool, call: ConnectCall, wakes: seq<Wakeup>)
    requires Fresh(k) && k.soError.None? && !k.eof && RefusalOf(k, subscribed, call).None?
    requires Events.AssocChange in k.supported && (subscribed ==> Events.AssocChange in k.subs)
    requires Settled(k.host.endian, Flatten(Launch(k, subscribed).schedule))
    requires |wakes| >= Work(Launch(k, subscribed)) && forall i :: 0 <= i < |wakes| ==> wakes[i].Ready?
    ensures var hs := Flatten(Launch(k, subscribed).schedule);
      Decider(hs).Some? && EndedBy(Decider(hs).value, NothingBreaks(hs), Connecting(k, subscribed, call, wakes).1)
  {
    hide Arrive, Begin, Establish, Launch, Settled, Skips, InSync, Honest, Weight, Future, DataAfterUp;
    var k0 := Launch(k, subscribed);
    var hs, kw := Flatten(k0.schedule), Arrive(k0);
    LaunchIsCalm(k, subscribed);
    SettledHasDecider(k.host.endian, hs);
    var d, calm := Decider(hs).value, NothingBreaks(hs);
    assert Undecided(k0, d, calm);
    ArriveKeepsSettles(k0, d, calm);
    BeginRefusals(k, subscribed, call);
    BeginLaunches(k, subscribed, call);
    BeginStarts(k, subscribed, call);
    ArriveOnlyAppends(k0);
    WaitReturnsOutcome(kw, d, calm, wakes);
  }

  /**
   * The whole connect returns what the handshake ends with, whether or not the caller subscribed and however
   * the environment's moves fall between the client's: success if it comes up, otherwise an error, and
   * without further socket errors exactly the one the failure left.
   */
  lemma ConnectReturnsOutcome(k: Kernel, subscribed: bool, call: ConnectCall, wakes: seq<Wakeup>)
    requires Fresh(k) && k.soError.None? && !k.eof && RefusalOf(k, subscribed, call).None?
    requires Events.AssocChange in k.supported && (subscribed <==> Events.AssocChange in k.subs)
    requires Settled(k.host.endian, Flatten(Launch(k, subscribed).schedule))
    requires |wakes| >= Work(Launch(k, subscribed)) && forall i :: 0 <= i < |wakes| ==> wakes[i].Ready?
    ensures var hs := Flatten(Launch(k, subscribed).schedule);
      Decider(hs).Some? && EndedBy(Decider(hs).value, NothingBreaks(hs), ConnectStream(k, subscribed, call, wakes).1)
  {
    hide Begin, Establish, Launch, Settled, Work, EndedBy, ConsumedNotices, Fresh;
    ConnectingReturnsOutcome(k, subscribed, call, wakes);
    ConnectSafety(k, subscribed, call, wakes);
    BeginRefusals(k, subscribed, call);
  }

  /** So does a connect on an existing one-to-one socket, from the state after its style was queried. */
  lemma FromSocketReturnsOutcome(k: Kernel, call: ConnectCall, wakes: seq<Wakeup>)
    requires Fresh(k) && k.soError.None? && !k.eof && k.style == OneToOne && RefusalOf(k, false, call).None?
    requires Settled(k.host.endian, Flatten(Launch(Arrive(k), false).schedule))
    requires |wakes| >= Work(Launch(Arrive(k), false)) && forall i :: 0 <= i < |wakes| ==> wakes[i].Ready?
    ensures var hs := Flatten(Launch(Arrive(k), false).schedule);
      Decider(hs).Some? && EndedBy(Decider(hs).value, NothingBreaks(hs), ConnectFrom(k, call, wakes).1)
  {
    hide Arrive, Begin, Establish, Launch, Settled, Work, EndedBy;
    FreshArrive(k);
    ArriveKeepsMode(k);
    ClosedStaysCalm(k);
    ConnectingReturnsOutcome(Arrive(k), false, call, wakes);
  }

  lemma {:induction false} SettledHasDecider(e: Endian, hs: seq<Happening>)
    requires Settled(e, hs)
    ensures Decider(hs).Some?
    decreases |hs|
  {
    if !Decisive(hs[0]) {
      SettledHasDecider(e, hs[1..]);
    }
  }

  /** Subscribed before the handshake, the stream shows a CommUp if and only if the association comes up. */
  lemma {:induction false} EstablishmentShows(e: Endian, subs: set<EventType>, hs: seq<Happening>)
    requires Events.AssocChange in subs
    ensures ShowsUp(e, EmitAll(e, subs, Handshaking, hs)) <==> Decider(hs).Some? && Decider(hs).value.CameUp?
    decreases |hs|
  {
    hide Emit, IsUp;
    if hs != [] {
      var h, next := hs[0], PhaseStep(Handshaking, hs[0]);
      var out, rest := Emit(e, subs, Handshaking, h), EmitAll(e, subs, next, hs[1..]);
      var all := out + rest;
      EmitFacts(e, subs, Handshaking, h);
      PhasesProgress(e, subs, next, hs[1..]);
      assert forall i :: 0 <= i < |rest| ==> all[|out| + i] == rest[i];
      assert forall i :: |out| <= i < |all| ==> all[i] == rest[i - |out|];
      if h.CameUp? {
        assert IsUp(e, all[0]);
      } else if h.SetupFailed? {
        NoUpUnlessEstablished(e, subs, next, hs[1..]);
      } else {
        EstablishmentShows(e, subs, hs[1..]);
      }
    }
  }

  /**
   * No CommUp is ever missed, in any environment. If the association comes up, its CommUp is in the stream
   * the wait reads; it is consumed exactly by a successful wait and otherwise still there to be read; and a
   * wait that is woken often enough returns.
   */
  lemma CommUpNeverMissed(k: Kernel, subscribed: bool, call: ConnectCall, wakes: seq<Wakeup>)
    requires Fresh(k) && Begin(k, subscribed, call).1.Ok?
    requires subscribed ==> Events.AssocChange in k.subs
    ensures var kw := Begin(k, subscribed, call).0;
      var (kd, p) := Establish(kw, wakes);
      var d := Decider(Flatten(Launch(k, subscribed).schedule));
      var cameUp := d.Some? && d.value.CameUp?;
      && (ShowsUp(k.host.endian, Future(kw)) <==> cameUp)
      && (p == Returned(Ok(())) ==> cameUp)
      && (cameUp && p != Returned(Ok(())) ==> ShowsUp(k.host.endian, Future(kd)))
      && (cameUp && Awake(kw, wakes) ==> p.Returned?)
      && (Untroubled(kw) && Awake(kw, wakes) ==> p == FoldResult(k.host.endian, Future(kw)))
  {
    hide Begin, Launch, Establish, Arrive, Future, IsUp, InSync, Awake, Untroubled, EmitAll, Honest, DataAfterUp, FoldResult;
    var k0, kw := Launch(k, subscribed), Begin(k, subscribed, call).0;
    var (kd, p) := Establish(kw, wakes);
    var e := k.host.endian;
    BeginRefusals(k, subscribed, call);
    BeginLaunches(k, subscribed, call);
    LaunchStarts(k, subscribed);
    ArriveOnlyAppends(k0);
    FreshFuture(k0);
    EstablishmentShows(e, k0.subs, Flatten(k0.schedule));
    BeginStarts(k, subscribed, call);
    ConnectingSafety(k, subscribed, call, wakes);
    ShownUpIsConsumedOrLeft(kw, kd, p);
    if Awake(kw, wakes) {
      WaitConcludes(kw, wakes);
      FoldWaits(e, Future(kw));
      if ShowsUp(e, Future(kw)) {
        UpIsNotSkipped(e, Future(kw));
      }
    }
  }

  lemma FreshFuture(k: Kernel)
    requires k.queue == []
    ensures Future(k) == EmitAll(k.host.endian, k.subs, k.phase, Flatten(k.schedule))
  {
    hide EmitAll;
    assert [] + Coming(k) == Coming(k);
  }

  lemma UpIsNotSkipped(e: Endian, q: seq<Entry>)
    requires ShowsUp(e, q)
    ensures !AllSkip(e, q)
    ensures FoldResult(e, q).Returned?
  {
    hide IsUp, Judge, FoldResult;
    FoldWaits(e, q);
    FoldNeverCancels(e, q);
  }

  lemma {:induction false} FoldNeverCancels(e: Endian, q: seq<Entry>)
    ensures FoldResult(e, q) != Cancelled
  {
    hide Skips, Decision;
    if q != [] && Skips(e, q[0]) {
      FoldNeverCancels(e, q[1..]);
    }
  }

  lemma ShownUpIsConsumedOrLeft(k: Kernel, k1: Kernel, p: Progress)
    requires ConsumedNotices(k, k1, p)
    ensures p == Returned(Ok(())) ==> ShowsUp(k.host.endian, Future(k))
    ensures ShowsUp(k.host.endian, Future(k)) && p != Returned(Ok(())) ==> ShowsUp(k.host.endian, Future(k1))
  {
    hide IsUp, Future;
    var e, all, m := k.host.endian, Future(k), Consumed(k, k1);
    assert forall i :: 0 <= i < m ==> all[..m][i] == all[i];
    assert forall i :: m <= i < |all| ==> all[m..][i - m] == all[i];
  }

  /** Without the subscription the queue never shows a CommUp, whatever happens. */
  lemma {:induction false} UnsubscribedShowsNoUp(e: Endian, subs: set<EventType>, phase: Phase, hs: seq<Happening>)
    requires Events.AssocChange !in subs
    ensures forall i :: 0 <= i < |EmitAll(e, subs, phase, hs)| ==> !IsUp(e, EmitAll(e, subs, phase, hs)[i])
    decreases |hs|
  {
    hide Emit, IsUp;
    if hs != [] {
      EmitFacts(e, subs, phase, hs[0]);
      UnsubscribedShowsNoUp(e, subs, PhaseStep(phase, hs[0]), hs[1..]);
    }
  }

  /** Why the order matters: connecting before subscribing, the wait cannot succeed in any environment. */
  lemma UnsubscribedNeverSucceeds(k: Kernel, wakes: seq<Wakeup>)
    requires k.queue == [] && Events.AssocChange !in k.subs
    ensures Establish(k, wakes).1 != Returned(Ok(()))
  {
    hide EmitAll, Establish, IsUp, Judge;
    EstablishRefinesFold(k, wakes);
    UnsubscribedShowsNoUp(k.host.endian, k.subs, k.phase, Flatten(k.schedule));
    assert [] + Coming(k) == Coming(k);
  }
}
