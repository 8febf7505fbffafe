/** Readiness loops of src/net/common.rs: `read_op` around a receive, and `established`. */
module Async {
  import opened Bytes
  import opened Types
  import opened Cmsg
  import opened Notifications
  import opened Kernel
  import opened Receive
  import opened Runs

  /** What an `await` on readiness comes back with. Readiness may be spurious; a future is only ever dropped here. */
  datatype Wakeup = Ready | Dropped | ReactorGone(error: IoError)

  // -- read_op -------------------------------------------------------------------------------

  datatype OpOutcome =
    | Completed(o: Outcome)
    | Abandoned
    | StillWaiting
    | WaitFailed(error: IoError)

  /** `read_op(io, |s| s.recv_msg(buf))`; `wakes` are the successive results of its await. */
  ghost function ReadOp(k: Kernel, cap: nat, wakes: seq<Wakeup>): (Kernel, OpOutcome)
    decreases |wakes|
  {
    if wakes == [] then (k, StillWaiting)
    else match wakes[0]
      case Dropped => (k, Abandoned)
      case ReactorGone(error) => (k, WaitFailed(error))
      case Ready =>
        var (k1, o) := Attempt(k, cap);
        if o == Failed(WouldBlock) then ReadOp(k1, cap, wakes[1..]) else (k1, Completed(o))
  }

  datatype OpResult =
    | Finished(r: Result<RecvMsg>)
    | OpDropped
    | OpPending

  method RecvMsgAsync(sock: Socket, buf: array<byte>, wakes: seq<Wakeup>) returns (r: OpResult)
    modifies sock, buf
    ensures sock.kernel == ReadOp(old(sock.kernel), buf.Length, wakes).0
    ensures match ReadOp(old(sock.kernel), buf.Length, wakes).1
      case Completed(o) => r.Finished? && Reports(r.r, buf[..], o)
      case Abandoned => r == OpDropped
      case StillWaiting => r == OpPending
      case WaitFailed(error) => r == Finished(Err(error))
  {
    var i := 0;
    while i < |wakes|
      invariant 0 <= i <= |wakes|
      invariant ReadOp(sock.kernel, buf.Length, wakes[i..]) == ReadOp(old(sock.kernel), buf.Length, wakes)
    {
      assert wakes[i..][1..] == wakes[i + 1..];
      match wakes[i]
      case Dropped =>
        return OpDropped;
      case ReactorGone(error) =>
        return Finished(Err(error));
      case Ready =>
        var result := sock.RecvMsg(buf);
        if result != Err(WouldBlock) {
          return Finished(result);
        }
        i := i + 1;
    }
    r := OpPending;
  }

  /** One receive operation of a program: its buffer size and how its awaits turn out. */
  datatype Op = Op(cap: nat, wakes: seq<Wakeup>)

  ghost function TakenByOp(k: Kernel, op: Op): seq<Atom>
    decreases |op.wakes|
  {
    if op.wakes == [] || !op.wakes[0].Ready? then []
    else
      var (k1, o) := Attempt(k, op.cap);
      if o == Failed(WouldBlock) then TakenByOp(k1, Op(op.cap, op.wakes[1..])) else Taken(k, op.cap)
  }

  /** Only a completed operation takes anything, and it takes exactly what it reports. */
  ghost predicate OpExplains(e: Endian, taken: seq<Atom>, op: Op, out: OpOutcome) {
    match out
    case Completed(o) => o != Failed(WouldBlock) && Explains(e, taken, op.cap, o)
    case Abandoned => taken == []
    case StillWaiting => taken == []
    case WaitFailed(_) => taken == []
  }

  /** Retries and cancellation of one operation lose nothing. */
  lemma {:induction false} OneOp(k: Kernel, op: Op)
    requires InSync(k)
    ensures var (k1, out) := ReadOp(k, op.cap, op.wakes);
      && InSync(k1) && k1.host == k.host
      && Pending(k) == TakenByOp(k, op) + Pending(k1)
      && OpExplains(k.host.endian, TakenByOp(k, op), op, out)
    decreases |op.wakes|
  {
    hide Attempt, Pending, Taken, InSync, DataAtoms, Judge;
    if op.wakes != [] && op.wakes[0].Ready? {
      var (k1, o) := Attempt(k, op.cap);
      OneCall(k, op.cap);
      AttemptKeepsSync(k, op.cap);
      if o == Failed(WouldBlock) {
        assert Taken(k, op.cap) == [];
        assert [] + Pending(k1) == Pending(k1);
        OneOp(k1, Op(op.cap, op.wakes[1..]));
      }
    }
  }

  /** A receive at `k` would find nothing: no entry, no error, no end of the association. */
  ghost predicate FindsNothing(k: Kernel) {
    var k1 := Arrive(k);
    k1.queue == [] && k1.soError.None? && !k1.eof
  }

  /**
   * The operation ends at its `i`-th await: every await before was ready for nothing, and this one is the
   * last, is dropped, fails, or is ready for something, which is then delivered whatever it is.
   */
  ghost predicate OpEndsAt(k: Kernel, op: Op, i: nat, k1: Kernel, out: OpOutcome) {
    && i <= |op.wakes|
    && (forall j :: 0 <= j < i ==> op.wakes[j].Ready? && FindsNothing(ArriveTimes(k, j)))
    && var here := ArriveTimes(k, i);
       if i == |op.wakes| then k1 == here && out == StillWaiting
       else match op.wakes[i]
         case Dropped => k1 == here && out == Abandoned
         case ReactorGone(error) => k1 == here && out == WaitFailed(error)
         case Ready =>
           !FindsNothing(here) && k1 == Deliver(here, op.cap).0 && out == Completed(Deliver(here, op.cap).1)
  }

  lemma BlocksIff(k: Kernel, cap: nat)
    requires InSync(k)
    ensures Deliver(k, cap).1 == Failed(WouldBlock) <==> FindsNothing(k)
    ensures FindsNothing(k) ==> Deliver(k, cap) == (Arrive(k), Failed(WouldBlock))
  {
    hide Arrive, Parse, InfoOf;
    if Arrive(k).queue != [] && Arrive(k).queue[0].Notice? {
      ParseErrors(Arrive(k).host.endian, Arrive(k).queue[0].payload);
    }
  }

  lemma LaterEnd(k: Kernel, op: Op, i: nat, k1: Kernel, out: OpOutcome)
    requires op.wakes != [] && op.wakes[0].Ready? && FindsNothing(k)
    requires OpEndsAt(Arrive(k), Op(op.cap, op.wakes[1..]), i, k1, out)
    ensures OpEndsAt(k, op, i + 1, k1, out)
  {
    hide Arrive, FindsNothing, Deliver;
    forall j | 0 <= j < i + 1
      ensures op.wakes[j].Ready? && FindsNothing(ArriveTimes(k, j))
    {
      if j > 0 {
        assert op.wakes[j] == op.wakes[1..][j - 1] && ArriveTimes(k, j) == ArriveTimes(Arrive(k), j - 1);
      } else {
        assert ArriveTimes(k, 0) == k;
      }
    }
    assert ArriveTimes(k, i + 1) == ArriveTimes(Arrive(k), i);
  }

  /** What an operation returns: nothing that ends it is skipped or held back, the end of the association included. */
  lemma {:induction false} OpReturns(k: Kernel, op: Op) returns (i: nat)
    requires InSync(k)
    ensures OpEndsAt(k, op, i, ReadOp(k, op.cap, op.wakes).0, ReadOp(k, op.cap, op.wakes).1)
    decreases |op.wakes|
  {
    hide Arrive, Attempt, Deliver, FindsNothing, InSync;
    i := 0;
    assert ArriveTimes(k, 0) == k;
    if op.wakes != [] && op.wakes[0].Ready? {
      AttemptRefinesDeliver(k, op.cap);
      BlocksIff(k, op.cap);
      if FindsNothing(k) {
        var rest := Op(op.cap, op.wakes[1..]);
        ArriveKeepsSync(k);
        var later := OpReturns(Arrive(k), rest);
        LaterEnd(k, op, later, ReadOp(k, op.cap, op.wakes).0, ReadOp(k, op.cap, op.wakes).1);
        i := later + 1;
      }
    }
  }

  /** An operation has one end only. */
  lemma OpEndsOnce(k: Kernel, op: Op, i: nat, k1: Kernel, out1: OpOutcome, j: nat, k2: Kernel, out2: OpOutcome)
    requires OpEndsAt(k, op, i, k1, out1) && OpEndsAt(k, op, j, k2, out2)
    ensures i == j && k1 == k2 && out1 == out2
  {
    hide FindsNothing, Deliver, ArriveTimes;
  }

  /** `read_op` around a receive, characterized: it returns `out` and leaves `k1` if and only if it ends so at some await. */
  lemma OpCharacterized(k: Kernel, op: Op, k1: Kernel, out: OpOutcome)
    requires InSync(k)
    ensures ReadOp(k, op.cap, op.wakes) == (k1, out) <==> exists i: nat :: OpEndsAt(k, op, i, k1, out)
  {
    hide ReadOp, OpEndsAt;
    var i := OpReturns(k, op);
    var (k2, out2) := ReadOp(k, op.cap, op.wakes);
    assert OpEndsAt(k, op, i, k2, out2);
    forall j: nat | OpEndsAt(k, op, j, k1, out)
      ensures ReadOp(k, op.cap, op.wakes) == (k1, out)
    {
      OpEndsOnce(k, op, i, k2, out2, j, k1, out);
    }
  }

  ghost function Serve(k: Kernel, ops: seq<Op>): (Kernel, seq<OpOutcome>)
    decreases |ops|
  {
    if ops == [] then (k, [])
    else
      var (k1, out) := ReadOp(k, ops[0].cap, ops[0].wakes);
      var (k2, outs) := Serve(k1, ops[1..]);
      (k2, [out] + outs)
  }

  ghost function TakenByOps(k: Kernel, ops: seq<Op>): seq<seq<Atom>>
    decreases |ops|
  {
    if ops == [] then []
    else [TakenByOp(k, ops[0])] + TakenByOps(ReadOp(k, ops[0].cap, ops[0].wakes).0, ops[1..])
  }

  /**
   * In every sequence of receive operations, each retried and possibly cancelled arbitrarily, the items
   * delivered by the completed ones followed by what is pending are everything there was, in order.
   */
  lemma {:induction false} CancellationIsSafe(k: Kernel, ops: seq<Op>)
    requires InSync(k)
    ensures var (k1, outs) := Serve(k, ops);
      var parts := TakenByOps(k, ops);
      && InSync(k1)
      && |parts| == |outs| == |ops|
      && (forall i :: 0 <= i < |ops| ==> OpExplains(k.host.endian, parts[i], ops[i], outs[i]))
      && Pending(k) == Concat(parts) + Pending(k1)
    decreases |ops|
  {
    hide ReadOp, Pending, TakenByOp, InSync, OpExplains;
    if ops != [] {
      OneOp(k, ops[0]);
      var k1 := ReadOp(k, ops[0].cap, ops[0].wakes).0;
      CancellationIsSafe(k1, ops[1..]);
      var (k2, outs) := Serve(k, ops);
      var parts, later := TakenByOps(k, ops), TakenByOps(k1, ops[1..]);
      assert parts[1..] == later && outs[1..] == Serve(k1, ops[1..]).1;
      assert parts[0] + (Concat(later) + Pending(k2)) == parts[0] + Concat(later) + Pending(k2);
      forall i | 0 <= i < |ops|
        ensures OpExplains(k.host.endian, parts[i], ops[i], outs[i])
      {
        if i > 0 {
          assert parts[i] == later[i - 1] && ops[i] == ops[1..][i - 1] && outs[i] == outs[1..][i - 1];
        }
      }
    }
  }

  /** The user data a program sees in the results of its operations. */
  ghost function ReceivedBy(outs: seq<OpOutcome>): seq<Atom> {
    if outs == [] then []
    else
      var o := outs[0];
      (if o.Completed? && o.o.Data? then DataAtoms(o.o.bytes, o.o.info, o.o.eor) else []) + ReceivedBy(outs[1..])
  }

  lemma {:induction false} ReceivedByIsTaken(e: Endian, parts: seq<seq<Atom>>, ops: seq<Op>, outs: seq<OpOutcome>)
    requires |parts| == |outs| == |ops|
    requires forall i :: 0 <= i < |ops| ==> OpExplains(e, parts[i], ops[i], outs[i])
    ensures WithoutSignals(Concat(parts)) == ReceivedBy(outs)
    decreases |ops|
  {
    hide Judge, DataAtoms;
    if ops != [] {
      assert OpExplains(e, parts[0], ops[0], outs[0]);
      forall i | 0 <= i < |ops| - 1
        ensures OpExplains(e, parts[1..][i], ops[1..][i], outs[1..][i])
      {
        assert OpExplains(e, parts[i + 1], ops[i + 1], outs[i + 1]);
      }
      ReceivedByIsTaken(e, parts[1..], ops[1..], outs[1..]);
      WithoutSignalsAppend(parts[0], Concat(parts[1..]));
      if outs[0].Completed? && outs[0].o.Data? {
        NoSignals(parts[0]);
      } else if parts[0] != [] {
        assert parts[0][1..] == [];
        assert WithoutSignals(parts[0]) == WithoutSignals([]) == [];
      }
    }
  }

  /** The user data of any operations, cancelled ones included, and what is pending is all there was. */
  lemma AsyncDataConserved(k: Kernel, ops: seq<Op>)
    requires InSync(k)
    ensures UserDataOf(k) == ReceivedBy(Serve(k, ops).1) + UserDataOf(Serve(k, ops).0)
  {
    hide Serve, Pending, TakenByOps, OpExplains;
    CancellationIsSafe(k, ops);
    ReceivedByIsTaken(k.host.endian, TakenByOps(k, ops), ops, Serve(k, ops).1);
    WithoutSignalsAppend(Concat(TakenByOps(k, ops)), Pending(Serve(k, ops).0));
  }

  // -- established ------------------------------------------------------------------------------

  const ESTABLISH_BUF := 512

  const NotEstablished := ConnectionRefused("SCTP association could not be established")
  const ClosedInSetup := ConnectionReset("socket closed during association setup")
  const EarlyData := InvalidData("user data received before SCTP_COMM_UP")

  datatype Progress =
    | Returned(r: Result<()>)
    | Cancelled
    | Waiting

  predicate SetupFailure(state: AssocChangeState) {
    state == CommLost || state == CantStartAssoc
  }

  /** The loop of `established`. */
  ghost function Establish(k: Kernel, wakes: seq<Wakeup>): (Kernel, Progress)
    decreases |wakes|
  {
    if wakes == [] then (k, Waiting)
    else match wakes[0]
      case Dropped => (k, Cancelled)
      case ReactorGone(error) => (k, Returned(Err(error)))
      case Ready =>
        var (k1, o) := Attempt(k, ESTABLISH_BUF);
        match o
        case Failed(error) => if error == WouldBlock then Establish(k1, wakes[1..]) else (k1, Returned(Err(error)))
        case Notified(n) =>
          if n.AssocChange? && n.state == CommUp then (k1, Returned(Ok(())))
          else if n.AssocChange? && SetupFailure(n.state) then
            var (k2, err) := SysTakeError(k1);
            (k2, Returned(Err(if err.Some? then Os(err.value) else NotEstablished)))
          else Establish(k1, wakes[1..])
        case Data(bytes, _, _) => (k1, Returned(Err(if bytes == [] then ClosedInSetup else EarlyData)))
  }

  method Established(sock: Socket, wakes: seq<Wakeup>) returns (p: Progress)
    modifies sock
    ensures (sock.kernel, p) == Establish(old(sock.kernel), wakes)
  {
    var buf := new byte[ESTABLISH_BUF](_ => 0);
    var i := 0;
    while i < |wakes|
      invariant 0 <= i <= |wakes|
      invariant Establish(sock.kernel, wakes[i..]) == Establish(old(sock.kernel), wakes)
    {
      assert wakes[i..][1..] == wakes[i + 1..];
      match wakes[i]
      case Dropped =>
        return Cancelled;
      case ReactorGone(error) =>
        return Returned(Err(error));
      case Ready =>
        var result := sock.RecvMsg(buf);
        i := i + 1;
        match result {
          case Err(error) =>
            if error != WouldBlock {
              return Returned(Err(error));
            }
          case Ok(NotificationMsg(n)) =>
            if n.AssocChange? {
              if n.state == CommUp {
                return Returned(Ok(()));
              }
              if n.state == CommLost || n.state == CantStartAssoc {
                var (k, err) := SysTakeError(sock.kernel);
                sock.kernel := k;
                return Returned(Err(if err.Some? then Os(err.value) else NotEstablished));
              }
            }
          case Ok(DataMsg(len, _, _)) =>
            return Returned(Err(if len == 0 then ClosedInSetup else EarlyData));
        }
    }
    p := Waiting;
  }

  // -- established as a fold over what there is to read --------------------------------------------

  predicate IsUp(e: Endian, entry: Entry) {
    && entry.Notice?
    && var o := Judge(e, entry.payload, ESTABLISH_BUF);
       o.Notified? && o.n.AssocChange? && o.n.state == CommUp
  }

  predicate IsFailure(e: Endian, entry: Entry) {
    && entry.Notice?
    && var o := Judge(e, entry.payload, ESTABLISH_BUF);
       o.Notified? && o.n.AssocChange? && SetupFailure(o.n.state)
  }

  /** Every other notification, of any size the receive path accepts. */
  predicate Skips(e: Endian, entry: Entry) {
    && entry.Notice?
    && Judge(e, entry.payload, ESTABLISH_BUF).Notified?
    && !IsUp(e, entry) && !IsFailure(e, entry)
  }

  ghost predicate AllSkip(e: Endian, q: seq<Entry>) {
    forall i :: 0 <= i < |q| ==> Skips(e, q[i])
  }

  /** What a decisive entry decides on a socket without errors. */
  function Decision(e: Endian, entry: Entry): Result<()> {
    if entry.UserData? then Err(if entry.off == |entry.payload| then ClosedInSetup else EarlyData)
    else if IsUp(e, entry) then Ok(())
    else
      var o := Judge(e, entry.payload, ESTABLISH_BUF);
      if o.Failed? then Err(o.error) else Err(NotEstablished)
  }

  /** What is left of a decisive entry: of user data, whatever did not fit the buffer. */
  function Remains(entry: Entry): seq<Entry> {
    if entry.Notice? then [] else ReadHead(entry, ESTABLISH_BUF).0
  }

  /** The wait as a fold over everything there is to read: the first decisive entry decides. */
  function FoldResult(e: Endian, all: seq<Entry>): Progress {
    if all == [] then Waiting
    else if Skips(e, all[0]) then FoldResult(e, all[1..])
    else Returned(Decision(e, all[0]))
  }

  function FoldLeaves(e: Endian, all: seq<Entry>): seq<Entry> {
    if all == [] then []
    else if Skips(e, all[0]) then FoldLeaves(e, all[1..])
    else Remains(all[0]) + all[1..]
  }

  /** The socket error `c` is pending, or the environment raises it. */
  ghost predicate ErrorArises(k: Kernel, c: int) {
    || k.soError == Some(c)
    || exists h :: h in Flatten(k.schedule) && Raises(h, c)
  }

  predicate Raises(h: Happening, c: int) {
    h == Broken(c) || (h.SetupFailed? && h.errno == Some(c)) || (h.WentAway? && h.errno == Some(c))
  }

  ghost predicate CloseArises(k: Kernel) {
    k.eof || PeerClosed in Flatten(k.schedule)
  }

  /** The wait stopped before reading `ahead`: it was not woken further, or the socket had nothing but its end. */
  ghost predicate Stopped(k: Kernel, k1: Kernel, wakes: seq<Wakeup>, p: Progress) {
    match p
    case Waiting => forall i :: 0 <= i < |wakes| ==> wakes[i].Ready?
    case Cancelled => Dropped in wakes
    case Returned(Ok(_)) => false
    case Returned(Err(error)) =>
      || (error.Os? && k1.queue == [] && ErrorArises(k, error.errno))
      || (error == ClosedInSetup && k1.queue == [] && CloseArises(k))
      || ReactorGone(error) in wakes
  }

  /**
   * How a wait that started at `k` ends, in `k1`, once it stands before `ahead`: it stopped there, or the
   * head of `ahead` decided. A setup failure reports the pending socket error instead, if there is one.
   */
  ghost predicate Ends(k: Kernel, ahead: seq<Entry>, k1: Kernel, wakes: seq<Wakeup>, p: Progress) {
    || (Future(k1) == ahead && Stopped(k, k1, wakes, p))
    || (ahead != [] && !Skips(k.host.endian, ahead[0]) && Future(k1) == Remains(ahead[0]) + ahead[1..]
        && (p == Returned(Decision(k.host.endian, ahead[0]))
            || (IsFailure(k.host.endian, ahead[0]) && p.Returned? && p.r.Err? && p.r.error.Os?
                && ErrorArises(k, p.r.error.errno))))
  }

  /** The wait skips `n` entries of all there is to read and ends at the first decisive item. */
  ghost predicate FoldsTo(k: Kernel, n: nat, k1: Kernel, wakes: seq<Wakeup>, p: Progress) {
    n <= |Future(k)| && AllSkip(k.host.endian, Future(k)[..n]) && Ends(k, Future(k)[n..], k1, wakes, p)
  }

  /** Errors and ends of the association that arise later arise from the start. */
  ghost predicate ArisesFrom(k: Kernel, k1: Kernel) {
    && k1.host == k.host
    && (forall c :: ErrorArises(k1, c) ==> ErrorArises(k, c))
    && (CloseArises(k1) ==> CloseArises(k))
  }

  lemma {:induction false} ErrorOrigin(phase: Phase, err: Option<int>, hs: seq<Happening>)
    ensures var r := ErrorAll(phase, err, hs);
      r == err || (r.Some? && exists h :: h in hs && Raises(h, r.value))
    decreases |hs|
  {
    if hs != [] {
      var err1 := ErrorStep(phase, err, hs[0]);
      ErrorOrigin(PhaseStep(phase, hs[0]), err1, hs[1..]);
      if err1 != err {
        assert Raises(hs[0], err1.value);
      }
    }
  }

  lemma ArriveFlattens(k: Kernel)
    requires k.schedule != []
    ensures Flatten(k.schedule) == k.schedule[0] + Flatten(Arrive(k).schedule)
  {
    hide EmitAll, PhaseAll, ErrorAll;
  }

  lemma ArriveArises(k: Kernel)
    ensures ArisesFrom(k, Arrive(k))
  {
    hide EmitAll, PhaseAll, ErrorAll, Raises;
    if k.schedule != [] {
      var k1, hs := Arrive(k), k.schedule[0];
      ArriveFlattens(k);
      ErrorOrigin(k.phase, k.soError, hs);
      forall c | ErrorArises(k1, c)
        ensures ErrorArises(k, c)
      {
        if k1.soError == Some(c) && k.soError != Some(c) {
          var h :| h in hs && Raises(h, c);
          assert h in Flatten(k.schedule);
        }
      }
    }
  }

  lemma {:induction false} TimesArise(k: Kernel, n: nat)
    ensures ArisesFrom(k, ArriveTimes(k, n))
    decreases n
  {
    hide Arrive, ErrorArises, CloseArises;
    if n > 0 {
      ArriveArises(k);
      TimesArise(Arrive(k), n - 1);
    }
  }

  lemma SameTroubles(k: Kernel, k1: Kernel)
    requires k1 == k.(queue := k1.queue) || k1 == k.(soError := None)
    ensures ArisesFrom(k, k1)
  {
  }

  /** The kernel state after one attempt, up to what it took from the queue. */
  lemma AttemptArises(k: Kernel, cap: nat)
    requires InSync(k)
    ensures ArisesFrom(k, Attempt(k, cap).0)
  {
    hide Arrive, Attempt, Parse, InfoOf, ReadHead, ErrorArises, CloseArises;
    AttemptRefinesDeliver(k, cap);
    ArriveArises(k);
    var k1 := Arrive(k);
    if k1.queue != [] && k1.queue[0].Notice? {
      var rest := k1.(queue := k1.queue[1..]);
      SameTroubles(k1, rest);
      TimesArise(rest, MoreReads(Max(0, |k1.queue[0].payload| - cap)));
    } else {
      SameTroubles(k1, Attempt(k, cap).0);
    }
  }

  lemma EndsFromStart(k: Kernel, k': Kernel, ahead: seq<Entry>, k1: Kernel, wakes: seq<Wakeup>, p: Progress)
    requires wakes != [] && wakes[0].Ready? && ArisesFrom(k, k') && Ends(k', ahead, k1, wakes[1..], p)
    ensures Ends(k, ahead, k1, wakes, p)
  {
    hide ErrorArises, CloseArises, Skips, IsFailure, Decision, Remains, Future;
    assert forall w :: w in wakes[1..] ==> w in wakes;
    assert forall i :: 0 < i < |wakes| ==> wakes[i] == wakes[1..][i - 1];
  }

  lemma FoldSkip(k: Kernel, k': Kernel, n: nat, k1: Kernel, wakes: seq<Wakeup>, p: Progress)
    requires Future(k) != [] && Skips(k.host.endian, Future(k)[0]) && Future(k') == Future(k)[1..]
    requires wakes != [] && wakes[0].Ready? && ArisesFrom(k, k') && FoldsTo(k', n, k1, wakes[1..], p)
    ensures FoldsTo(k, n + 1, k1, wakes, p)
  {
    hide Skips, ArisesFrom, Ends, Future;
    var all, prefix := Future(k), Future(k)[..n + 1];
    assert all[1..][n..] == all[n + 1..];
    EndsFromStart(k, k', all[n + 1..], k1, wakes, p);
    SameHost(k, k');
    forall i | 0 <= i < |prefix|
      ensures Skips(k.host.endian, prefix[i])
    {
      if i > 0 {
        assert Skips(k.host.endian, all[1..][..n][i - 1]);
      }
    }
  }

  lemma SameHost(k: Kernel, k': Kernel)
    requires ArisesFrom(k, k')
    ensures k'.host == k.host
  {
  }

  /** An attempt that finds nothing queued and does not block meets a socket error or the end. */
  lemma IdleStops(k: Kernel)
    requires InSync(k) && Arrive(k).queue == [] && Attempt(k, ESTABLISH_BUF).1 != Failed(WouldBlock)
    ensures var (k1, o) := Attempt(k, ESTABLISH_BUF);
      && Future(k1) == Future(k) && k1.queue == []
      && (o == Data([], None, false) ==> CloseArises(k))
      && (o.Data? ==> o == Data([], None, false))
      && (o.Failed? ==> o.error.Os? && ErrorArises(k, o.error.errno))
      && !o.Notified?
  {
    hide Arrive, Attempt;
    AttemptOnIdle(k, ESTABLISH_BUF);
    ArriveOnlyAppends(k);
    ArriveArises(k);
    SameFuture(Arrive(k), Attempt(k, ESTABLISH_BUF).0);
  }

  /** An attempt that reads a setup failure: the pending error is taken. */
  lemma FailureReported(k: Kernel, wakes: seq<Wakeup>)
    requires InSync(k) && wakes != [] && wakes[0].Ready?
    requires var o := Attempt(k, ESTABLISH_BUF).1; o.Notified? && o.n.AssocChange? && SetupFailure(o.n.state)
    ensures var p := Establish(k, wakes).1;
      && Future(Establish(k, wakes).0) == Future(Attempt(k, ESTABLISH_BUF).0)
      && p.Returned? && p.r.Err?
      && (p.r.error == NotEstablished || (p.r.error.Os? && ErrorArises(k, p.r.error.errno)))
  {
    hide Attempt, Arrive, Coming, InSync;
    var k1 := Attempt(k, ESTABLISH_BUF).0;
    AttemptArises(k, ESTABLISH_BUF);
    ArriveArises(k1);
    ArriveOnlyAppends(k1);
    SameFuture(Arrive(k1), SysTakeError(k1).0);
  }

  /** The head of the queue is the head of everything there is to read. */
  lemma HeadOfFuture(k: Kernel)
    requires Arrive(k).queue != []
    ensures Future(k) != [] && Future(k)[0] == Arrive(k).queue[0]
  {
    hide Arrive, Coming;
    ArriveOnlyAppends(k);
  }

  /** A notification is read whole, whatever its size, and judged. */
  lemma NoticeOutcome(k: Kernel)
    requires InSync(k) && Arrive(k).queue != [] && Arrive(k).queue[0].Notice?
    ensures var (k1, o) := Attempt(k, ESTABLISH_BUF);
      Future(k) != [] && o == Judge(k.host.endian, Future(k)[0].payload, ESTABLISH_BUF) && Future(k1) == Future(k)[1..]
  {
    hide Arrive, Attempt, Future, Parse;
    HeadOfFuture(k);
    ExactCap(k, ESTABLISH_BUF);
    var head := Arrive(k).queue[0];
    assert ([head] + Future(Attempt(k, ESTABLISH_BUF).0))[1..] == Future(Attempt(k, ESTABLISH_BUF).0);
  }

  lemma DataOutcome(k: Kernel)
    requires InSync(k) && Arrive(k).queue != [] && Arrive(k).queue[0].UserData?
    ensures var (k1, o) := Attempt(k, ESTABLISH_BUF);
      && Future(k) != [] && Future(k)[0].UserData? && o.Data?
      && o.bytes == ReadHead(Future(k)[0], ESTABLISH_BUF).1.bytes
      && Future(k1) == Remains(Future(k)[0]) + Future(k)[1..]
  {
    hide Arrive, Attempt, Future, ReadHead, InfoOf;
    HeadOfFuture(k);
    ArriveOnlyAppends(k);
    AttemptOnData(k, ESTABLISH_BUF);
    DataLeft(Arrive(k), Attempt(k, ESTABLISH_BUF).0, ReadHead(Arrive(k).queue[0], ESTABLISH_BUF).0);
  }

  lemma DataLeft(k1: Kernel, k2: Kernel, left: seq<Entry>)
    requires k1.queue != [] && k2 == k1.(queue := left + k1.queue[1..])
    ensures Future(k1) != [] && Future(k1)[0] == k1.queue[0]
    ensures Future(k2) == left + Future(k1)[1..]
  {
    hide Coming;
    SameComing(k1, k2);
    assert Future(k1)[1..] == k1.queue[1..] + Coming(k1);
  }

  /** Reading user data gives no bytes only if the entry has none left. */
  lemma EmptyRead(entry: Entry)
    requires entry.UserData?
    ensures ReadHead(entry, ESTABLISH_BUF).1.bytes == [] <==> entry.off == |entry.payload|
  {
  }

  /** How many entries the wait skips. */
  ghost function Skipped(k: Kernel, wakes: seq<Wakeup>): nat
    decreases |wakes|
  {
    if wakes == [] || !wakes[0].Ready? then 0
    else
      var (k1, o) := Attempt(k, ESTABLISH_BUF);
      if o == Failed(WouldBlock) then Skipped(k1, wakes[1..])
      else if o.Notified? && !(o.n.AssocChange? && (o.n.state == CommUp || SetupFailure(o.n.state)))
      then 1 + Skipped(k1, wakes[1..])
      else 0
  }

  /** A wait whose first attempt finds nothing queued. */
  lemma IdleFolds(k: Kernel, wakes: seq<Wakeup>)
    requires InSync(k) && wakes != [] && wakes[0].Ready? && Arrive(k).queue == []
    requires Attempt(k, ESTABLISH_BUF).1 != Failed(WouldBlock)
    ensures FoldsTo(k, 0, Establish(k, wakes).0, wakes, Establish(k, wakes).1)
  {
    hide Attempt, Arrive, InSync, Future, ErrorArises, CloseArises, Decision;
    IdleStops(k);
    assert Future(k)[0..] == Future(k);
  }

  /** A wait whose first attempt reads a decisive entry. */
  lemma DecisiveFolds(k: Kernel, wakes: seq<Wakeup>)
    requires InSync(k) && wakes != [] && wakes[0].Ready? && Arrive(k).queue != []
    requires !Skips(k.host.endian, Arrive(k).queue[0])
    ensures FoldsTo(k, 0, Establish(k, wakes).0, wakes, Establish(k, wakes).1)
  {
    hide Attempt, Arrive, InSync, Future, ErrorArises, Stopped, Parse, ReadHead;
    HeadOfFuture(k);
    assert Future(k)[0..] == Future(k);
    var head := Future(k)[0];
    if head.UserData? {
      DataOutcome(k);
      EmptyRead(head);
    } else {
      NoticeOutcome(k);
      assert [] + Future(k)[1..] == Future(k)[1..];
      ParseErrors(k.host.endian, head.payload);
      if IsFailure(k.host.endian, head) {
        FailureReported(k, wakes);
      }
    }
  }

  /** By induction over the wakeups; see `EstablishRefinesFold`. */
  lemma {:induction false} EstablishFolds(k: Kernel, wakes: seq<Wakeup>)
    requires InSync(k)
    ensures FoldsTo(k, Skipped(k, wakes), Establish(k, wakes).0, wakes, Establish(k, wakes).1)
    decreases |wakes|
  {
    hide Attempt, Arrive, InSync, Future, Judge, Ends, ArisesFrom;
    if wakes == [] || !wakes[0].Ready? {
      NoAttempt(k, wakes);
    } else {
      var (k1, o) := Attempt(k, ESTABLISH_BUF);
      AttemptArises(k, ESTABLISH_BUF);
      AttemptKeepsSync(k, ESTABLISH_BUF);
      if Arrive(k).queue == [] {
        if o == Failed(WouldBlock) {
          BlockedConsumesNothing(k);
          EstablishFolds(k1, wakes[1..]);
          EndsFromStart(k, k1, Future(k)[Skipped(k, wakes)..], Establish(k, wakes).0, wakes, Establish(k, wakes).1);
        } else {
          IdleStops(k);
          IdleFolds(k, wakes);
        }
      } else if Skips(k.host.endian, Arrive(k).queue[0]) {
        HeadOfFuture(k);
        NoticeOutcome(k);
        EstablishFolds(k1, wakes[1..]);
        FoldSkip(k, k1, Skipped(k1, wakes[1..]), Establish(k, wakes).0, wakes, Establish(k, wakes).1);
      } else {
        DecisiveFolds(k, wakes);
        DecisiveSkipsNothing(k, wakes);
      }
    }
  }

  lemma NoAttempt(k: Kernel, wakes: seq<Wakeup>)
    requires wakes == [] || !wakes[0].Ready?
    ensures FoldsTo(k, 0, Establish(k, wakes).0, wakes, Establish(k, wakes).1)
  {
    hide Future, Judge, ErrorArises, CloseArises;
    assert Future(k)[0..] == Future(k);
  }

  lemma BlockedConsumesNothing(k: Kernel)
    requires InSync(k) && Arrive(k).queue == [] && Attempt(k, ESTABLISH_BUF).1 == Failed(WouldBlock)
    ensures Attempt(k, ESTABLISH_BUF).0 == Arrive(k) && Future(Arrive(k)) == Future(k)
    ensures Arrive(k).soError.None? && !Arrive(k).eof
  {
    hide Arrive, Attempt;
    AttemptOnIdle(k, ESTABLISH_BUF);
    ArriveOnlyAppends(k);
  }

  lemma DecisiveSkipsNothing(k: Kernel, wakes: seq<Wakeup>)
    requires InSync(k) && wakes != [] && wakes[0].Ready? && Arrive(k).queue != []
    requires !Skips(k.host.endian, Arrive(k).queue[0])
    ensures Skipped(k, wakes) == 0
  {
    hide Attempt, Arrive, InSync, Future, Parse;
    HeadOfFuture(k);
    if Future(k)[0].UserData? {
      DataOutcome(k);
    } else {
      NoticeOutcome(k);
      ParseErrors(k.host.endian, Future(k)[0].payload);
    }
  }

  // -- the wait always ends, and on an untroubled socket is exactly the fold -----------------------------

  /** The socket error left once everything scheduled has happened. */
  ghost function FinalError(k: Kernel): Option<int> {
    ErrorAll(k.phase, k.soError, Flatten(k.schedule))
  }

  ghost predicate WillClose(k: Kernel) {
    k.eof || (k.phase != Closed && PeerClosed in Flatten(k.schedule))
  }

  /** The socket never fails nor ends. */
  ghost predicate Untroubled(k: Kernel) {
    FinalError(k).None? && !WillClose(k)
  }

  lemma {:induction false} ErrorsAppend(phase: Phase, err: Option<int>, a: seq<Happening>, b: seq<Happening>)
    ensures ErrorAll(phase, err, a + b) == ErrorAll(PhaseAll(phase, a), ErrorAll(phase, err, a), b)
    ensures PhaseAll(phase, a) == Closed <==> phase == Closed
    decreases |a|
  {
    hide ErrorStep;
    if a == [] {
      assert a + b == b;
    } else {
      assert (a + b)[0] == a[0] && (a + b)[1..] == a[1..] + b;
      ErrorsAppend(PhaseStep(phase, a[0]), ErrorStep(phase, err, a[0]), a[1..], b);
    }
  }

  lemma {:induction false} ErrorsStay(phase: Phase, err: Option<int>, hs: seq<Happening>)
    requires err.Some?
    ensures ErrorAll(phase, err, hs).Some?
    decreases |hs|
  {
    if hs != [] {
      ErrorsStay(PhaseStep(phase, hs[0]), ErrorStep(phase, err, hs[0]), hs[1..]);
    }
  }

  lemma ArriveKeepsTroubles(k: Kernel)
    ensures FinalError(Arrive(k)) == FinalError(k) && (WillClose(Arrive(k)) <==> WillClose(k))
    ensures Untroubled(k) ==> Arrive(k).soError.None? && !Arrive(k).eof
  {
    hide EmitAll, PhaseAll, ErrorAll;
    var k1 := Arrive(k);
    if k.schedule != [] {
      ArriveFlattens(k);
      ErrorsAppend(k.phase, k.soError, k.schedule[0], Flatten(k1.schedule));
    }
    if k1.soError.Some? {
      ErrorsStay(k1.phase, k1.soError, Flatten(k1.schedule));
    }
  }

  lemma {:induction false} TimesKeepTroubles(k: Kernel, n: nat)
    ensures Untroubled(ArriveTimes(k, n)) <==> Untroubled(k)
    decreases n
  {
    hide Arrive, FinalError, WillClose;
    if n > 0 {
      ArriveKeepsTroubles(k);
      TimesKeepTroubles(Arrive(k), n - 1);
    }
  }

  lemma NoticeKeepsTroubles(k: Kernel)
    requires InSync(k) && Arrive(k).queue != [] && Arrive(k).queue[0].Notice?
    ensures Untroubled(Attempt(k, ESTABLISH_BUF).0) <==> Untroubled(k)
  {
    hide Arrive, Attempt, Parse, ErrorAll;
    AttemptRefinesDeliver(k, ESTABLISH_BUF);
    ArriveKeepsTroubles(k);
    var k1 := Arrive(k);
    TimesKeepTroubles(k1.(queue := k1.queue[1..]), MoreReads(Max(0, |k1.queue[0].payload| - ESTABLISH_BUF)));
  }

  /** The fold waits exactly if there is nothing decisive to read. */
  lemma {:induction false} FoldWaits(e: Endian, all: seq<Entry>)
    ensures FoldResult(e, all) == Waiting <==> AllSkip(e, all)
  {
    hide Skips, Decision;
    if all != [] && Skips(e, all[0]) {
      FoldWaits(e, all[1..]);
      assert AllSkip(e, all) ==> forall i :: 0 <= i < |all[1..]| ==> Skips(e, all[1..][i]) by {
        assert forall i :: 0 <= i < |all[1..]| ==> all[1..][i] == all[i + 1];
      }
      assert AllSkip(e, all[1..]) ==> forall i :: 0 < i < |all| ==> Skips(e, all[i]) by {
        assert forall i :: 0 < i < |all| ==> all[i] == all[1..][i - 1];
      }
    }
  }

  /** `wakes` is enough to read everything, and every await comes back ready. */
  ghost predicate Awake(k: Kernel, wakes: seq<Wakeup>) {
    |wakes| > Work(k) && forall i :: 0 <= i < |wakes| ==> wakes[i].Ready?
  }

  /** The wait ended as it should for what there was to read. */
  ghost predicate Concluded(k: Kernel, k1: Kernel, p: Progress) {
    if Untroubled(k)
    then p == FoldResult(k.host.endian, Future(k)) && Future(k1) == FoldLeaves(k.host.endian, Future(k))
    else p.Returned?
  }

  lemma IdleConcludes(k: Kernel, wakes: seq<Wakeup>)
    requires InSync(k) && wakes != [] && wakes[0].Ready? && Arrive(k).queue == []
    requires Attempt(k, ESTABLISH_BUF).1 != Failed(WouldBlock)
    ensures Concluded(k, Establish(k, wakes).0, Establish(k, wakes).1)
  {
    hide Arrive, Attempt, FoldResult, FoldLeaves, Untroubled;
    AttemptOnIdle(k, ESTABLISH_BUF);
    ArriveOnlyAppends(k);
    ArriveKeepsTroubles(k);
  }

  lemma DecisiveConcludes(k: Kernel, wakes: seq<Wakeup>)
    requires InSync(k) && wakes != [] && wakes[0].Ready? && Arrive(k).queue != []
    requires !Skips(k.host.endian, Arrive(k).queue[0])
    ensures Concluded(k, Establish(k, wakes).0, Establish(k, wakes).1)
  {
    hide Attempt, Arrive, InSync, Future, Untroubled, Parse, ReadHead;
    HeadOfFuture(k);
    var head, k1 := Future(k)[0], Attempt(k, ESTABLISH_BUF).0;
    if head.UserData? {
      DataOutcome(k);
      EmptyRead(head);
    } else {
      NoticeOutcome(k);
      assert [] + Future(k)[1..] == Future(k)[1..];
      ParseErrors(k.host.endian, head.payload);
      if IsFailure(k.host.endian, head) {
        NoticeKeepsTroubles(k);
        ArriveKeepsTroubles(k1);
        ArriveOnlyAppends(k1);
        SameFuture(Arrive(k1), SysTakeError(k1).0);
      }
    }
  }

  lemma ExhaustedConcludes(k: Kernel)
    requires Work(k) == 0 && k.soError.None? && !k.eof
    ensures Concluded(k, k, Waiting)
  {
    WeightlessIsEmpty(Future(k));
  }

  lemma QuietArrive(k: Kernel)
    requires k.schedule == []
    ensures Arrive(k) == k
  {
  }

  /**
   * Woken often enough, the wait returns as soon as there is anything decisive, a socket error or the end of
   * the association; it goes on waiting only if there never is. On a socket without errors its result and
   * what it consumes are exactly those of the fold.
   */
  lemma {:induction false} WaitConcludes(k: Kernel, wakes: seq<Wakeup>)
    requires InSync(k) && Awake(k, wakes)
    ensures Concluded(k, Establish(k, wakes).0, Establish(k, wakes).1)
    decreases |wakes|
  {
    hide Attempt, Arrive, InSync, Future, Weight, Judge, Untroubled;
    var k1 := Attempt(k, ESTABLISH_BUF).0;
    CallWorks(k, ESTABLISH_BUF);
    AttemptKeepsSync(k, ESTABLISH_BUF);
    if Arrive(k).queue == [] {
      if Attempt(k, ESTABLISH_BUF).1 == Failed(WouldBlock) {
        BlockedConsumesNothing(k);
        ArriveKeepsTroubles(k);
        ArriveOnlyAppends(k);
        SameTroubledness(k, Arrive(k));
        if |wakes| == 1 {
          QuietArrive(k);
          ExhaustedConcludes(k);
        } else {
          WaitConcludes(k1, wakes[1..]);
        }
      } else {
        IdleConcludes(k, wakes);
      }
    } else if Skips(k.host.endian, Arrive(k).queue[0]) {
      HeadOfFuture(k);
      NoticeOutcome(k);
      NoticeKeepsTroubles(k);
      ArriveOnlyAppends(k);
      PositiveWeight(Future(k));
      WaitConcludes(k1, wakes[1..]);
    } else {
      DecisiveConcludes(k, wakes);
    }
  }

  lemma SameTroubledness(k: Kernel, k1: Kernel)
    requires FinalError(k1) == FinalError(k) && (WillClose(k1) <==> WillClose(k))
    ensures Untroubled(k1) <==> Untroubled(k)
  {
  }

  lemma PositiveWeight(q: seq<Entry>)
    requires q != []
    ensures Weight(q) > 0
  {
  }

  /**
   * `established` is the fold. In every environment and for every sequence of wakeups it skips notifications
   * only, of any accepted size, and ends at the first entry that is not skipped, with what that entry
   * decides, unless it is stopped before by cancellation, the reactor, a socket error or the end of the
   * association; errors and the end are reported only if they arose and when nothing is queued. Woken often
   * enough it always ends, and on an untroubled socket with exactly the fold's result.
   */
  lemma EstablishRefinesFold(k: Kernel, wakes: seq<Wakeup>)
    requires InSync(k)
    ensures var (k1, p) := Establish(k, wakes);
      && FoldsTo(k, Skipped(k, wakes), k1, wakes, p)
      && (Awake(k, wakes) ==> Concluded(k, k1, p))
  {
    hide Establish, InSync, FoldsTo, Awake, Concluded;
    EstablishFolds(k, wakes);
    if Awake(k, wakes) {
      WaitConcludes(k, wakes);
    }
  }

  /**
   * The first await that is not ready ends a wait that has not returned before it: by cancellation if the
   * future was dropped, with the reactor's error if that failed. Nothing behind it matters.
   */
  lemma {:induction false} WakeupEndsWait(k: Kernel, ready: seq<Wakeup>, w: Wakeup, rest: seq<Wakeup>)
    requires !w.Ready? && forall i :: 0 <= i < |ready| ==> ready[i].Ready?
    ensures var (k1, p) := Establish(k, ready);
      Establish(k, ready + ([w] + rest))
      == (k1, if p != Waiting then p else if w.Dropped? then Cancelled else Returned(Err(w.error)))
    decreases |ready|
  {
    hide Attempt, SysTakeError;
    var all := ready + ([w] + rest);
    if ready == [] {
      assert all == [w] + rest;
    } else {
      assert all[0] == ready[0] && all[1..] == ready[1..] + ([w] + rest);
      WakeupEndsWait(Attempt(k, ESTABLISH_BUF).0, ready[1..], w, rest);
    }
  }
}
