/** Whole runs of the receive path, with any buffer sizes and any environment. */
module Runs {
  import opened Bytes
  import opened Types
  import opened Cmsg
  import opened Notifications
  import opened Kernel
  import opened Receive

  // -- what the queue holds, byte by byte ---------------------------------------------

  /** The queue as a stream: data byte by byte, an end mark after each message, notifications whole. */
  datatype Atom =
    | Octet(info: Option<RcvInfo>, octet: byte)
    | EndOfMessage(info: Option<RcvInfo>)
    | Signal(payload: seq<byte>)

  ghost function DataAtoms(bytes: seq<byte>, info: Option<RcvInfo>, eor: bool): (r: seq<Atom>)
    ensures forall i :: 0 <= i < |r| ==> !r[i].Signal?
  {
    seq(|bytes|, i requires 0 <= i < |bytes| => Octet(info, bytes[i])) + if eor then [EndOfMessage(info)] else []
  }

  ghost function EntryAtoms(h: Host, e: Entry): seq<Atom> {
    match e
    case Notice(payload, _) => [Signal(payload)]
    case UserData(payload, off, eom, control) => DataAtoms(payload[off..], InfoOf(h, control), eom)
  }

  ghost function Atoms(h: Host, q: seq<Entry>): seq<Atom> {
    if q == [] then [] else EntryAtoms(h, q[0]) + Atoms(h, q[1..])
  }

  lemma {:induction false} AtomsAppend(h: Host, a: seq<Entry>, b: seq<Entry>)
    ensures Atoms(h, a + b) == Atoms(h, a) + Atoms(h, b)
  {
    hide EntryAtoms;
    if a == [] {
      assert a + b == b;
    } else {
      AtomsAppend(h, a[1..], b);
      assert (a + b)[1..] == a[1..] + b && (a + b)[0] == a[0];
      var x, y, z := EntryAtoms(h, a[0]), Atoms(h, a[1..]), Atoms(h, b);
      assert x + (y + z) == x + y + z;
    }
  }

  /** Everything this socket still has to deliver, in order. */
  ghost function Pending(k: Kernel): seq<Atom> {
    Atoms(k.host, Future(k))
  }

  /** `taken` is exactly what a call with a `cap`-byte buffer that reported `o` removed from the stream. */
  ghost predicate Explains(e: Endian, taken: seq<Atom>, cap: nat, o: Outcome) {
    match o
    case Data(bytes, info, eor) => |bytes| <= cap && taken == DataAtoms(bytes, info, eor)
    case Notified(_) => |taken| == 1 && taken[0].Signal? && Judge(e, taken[0].payload, cap) == o
    case Failed(InvalidData(_)) => |taken| == 1 && taken[0].Signal? && Judge(e, taken[0].payload, cap) == o
    case Failed(_) => taken == []
  }

  // -- one call ----------------------------------------------------------------------------

  ghost function Taken(k: Kernel, cap: nat): seq<Atom> {
    var q := Arrive(k).queue;
    if q == [] then []
    else if q[0].Notice? then [Signal(q[0].payload)]
    else
      var r := ReadHead(q[0], cap).1;
      DataAtoms(r.bytes, InfoOf(k.host, r.control), r.eor)
  }

  /** Cutting an entry anywhere leaves its stream of atoms the same. */
  lemma ReadHeadSplits(h: Host, head: Entry, cap: nat)
    requires head.UserData?
    ensures var (left, r) := ReadHead(head, cap);
      EntryAtoms(h, head) == DataAtoms(r.bytes, InfoOf(h, r.control), r.eor) + Atoms(h, left)
  {
    hide InfoOf;
    var (left, r) := ReadHead(head, cap);
    if left != [] {
      assert left[1..] == [];
      assert Atoms(h, left) == EntryAtoms(h, left[0]) + Atoms(h, []);
      assert Atoms(h, left) == EntryAtoms(h, left[0]);
    } else {
      assert r.bytes == head.payload[head.off..];
    }
  }

  lemma OneCallOnData(k: Kernel, cap: nat)
    requires InSync(k) && Arrive(k).queue != [] && Arrive(k).queue[0].UserData?
    ensures Pending(k) == Taken(k, cap) + Pending(Attempt(k, cap).0)
    ensures Explains(k.host.endian, Taken(k, cap), cap, Attempt(k, cap).1)
  {
    hide Arrive, Attempt, Atoms, EntryAtoms, InfoOf, Coming, DataAtoms, ReadHead;
    AttemptOnData(k, cap);
    ArriveOnlyAppends(k);
    var h, k1, k2 := k.host, Arrive(k), Attempt(k, cap).0;
    var left := ReadHead(k1.queue[0], cap).0;
    SameComing(k1, k2);
    var rest := k1.queue[1..] + Coming(k1);
    assert Future(k) == [k1.queue[0]] + rest;
    assert Future(k2) == left + rest;
    AtomsAppend(h, [k1.queue[0]], rest);
    AtomsAppend(h, left, rest);
    AtomsOfOne(h, k1.queue[0]);
    ReadHeadSplits(h, k1.queue[0], cap);
  }

  lemma AtomsOfOne(h: Host, e: Entry)
    ensures Atoms(h, [e]) == EntryAtoms(h, e)
  {
    hide EntryAtoms;
    assert [e][1..] == [] && Atoms(h, []) == [];
  }

  lemma OneCallOnNotice(k: Kernel, cap: nat)
    requires InSync(k) && Arrive(k).queue != [] && Arrive(k).queue[0].Notice?
    ensures Pending(k) == Taken(k, cap) + Pending(Attempt(k, cap).0)
    ensures Explains(k.host.endian, Taken(k, cap), cap, Attempt(k, cap).1)
  {
    hide Arrive, Attempt, Atoms, Coming, Parse;
    ExactCap(k, cap);
    AttemptKeepsSync(k, cap);
    var head, k2 := Arrive(k).queue[0], Attempt(k, cap).0;
    ParseErrors(k.host.endian, head.payload);
    AtomsAppend(k.host, [head], Future(k2));
    AtomsOfOne(k.host, head);
  }

  lemma OneCallOnIdle(k: Kernel, cap: nat)
    requires InSync(k) && Arrive(k).queue == []
    ensures Pending(k) == Taken(k, cap) + Pending(Attempt(k, cap).0)
    ensures Explains(k.host.endian, Taken(k, cap), cap, Attempt(k, cap).1)
  {
    hide Arrive, Attempt, Atoms;
    AttemptOnIdle(k, cap);
    ArriveOnlyAppends(k);
    SameFuture(Arrive(k), Attempt(k, cap).0);
    assert DataAtoms([], None, false) == [];
  }

  lemma SameFuture(a: Kernel, b: Kernel)
    requires b == a || b == a.(soError := None)
    ensures Future(a) == Future(b)
  {
  }

  /** One call removes a prefix of the stream, and what it reports is exactly that prefix. */
  lemma OneCall(k: Kernel, cap: nat)
    requires InSync(k)
    ensures Pending(k) == Taken(k, cap) + Pending(Attempt(k, cap).0)
    ensures Explains(k.host.endian, Taken(k, cap), cap, Attempt(k, cap).1)
  {
    hide Arrive, Attempt, Pending, Taken, Explains;
    if Arrive(k).queue == [] {
      OneCallOnIdle(k, cap);
    } else if Arrive(k).queue[0].Notice? {
      OneCallOnNotice(k, cap);
    } else {
      OneCallOnData(k, cap);
    }
  }

  // -- runs -----------------------------------------------------------------------------------

  /** Successive `recv_msg` calls with the given buffer sizes. */
  ghost function Run(k: Kernel, caps: seq<nat>): (Kernel, seq<Outcome>)
    decreases |caps|
  {
    if caps == [] then (k, [])
    else
      var (k1, o) := Attempt(k, caps[0]);
      var (k2, os) := Run(k1, caps[1..]);
      (k2, [o] + os)
  }

  ghost function TakenBy(k: Kernel, caps: seq<nat>): seq<seq<Atom>>
    decreases |caps|
  {
    if caps == [] then [] else [Taken(k, caps[0])] + TakenBy(Attempt(k, caps[0]).0, caps[1..])
  }

  ghost function Concat(parts: seq<seq<Atom>>): seq<Atom> {
    if parts == [] then [] else parts[0] + Concat(parts[1..])
  }

  /** `parts`, one per call, explain the reported outcomes. */
  ghost predicate Explained(e: Endian, parts: seq<seq<Atom>>, caps: seq<nat>, os: seq<Outcome>) {
    && |parts| == |caps| == |os|
    && forall i :: 0 <= i < |os| ==> Explains(e, parts[i], caps[i], os[i])
  }

  /**
   * Stream synchronisation and total conservation over a whole run: after any calls with any buffer sizes
   * (zero included) and any arrivals the reader is in sync, no call met the desynchronized branch, and what
   * the calls reported followed by what is still pending is exactly what was pending at the start.
   */
  lemma {:induction false} RunConserves(k: Kernel, caps: seq<nat>)
    requires InSync(k)
    ensures InSync(Run(k, caps).0) && Run(k, caps).0.host == k.host
    ensures Failed(Desynchronized) !in Run(k, caps).1
    ensures Explained(k.host.endian, TakenBy(k, caps), caps, Run(k, caps).1)
    ensures Pending(k) == Concat(TakenBy(k, caps)) + Pending(Run(k, caps).0)
    decreases |caps|
  {
    hide Attempt, Pending, Taken, Explains, InSync;
    if caps != [] {
      var k1 := Attempt(k, caps[0]).0;
      OneCall(k, caps[0]);
      AttemptKeepsSync(k, caps[0]);
      RunConserves(k1, caps[1..]);
      var here, later, left := Taken(k, caps[0]), TakenBy(k1, caps[1..]), Pending(Run(k, caps).0);
      assert TakenBy(k, caps)[1..] == later;
      assert here + (Concat(later) + left) == here + Concat(later) + left;
      forall i | 0 <= i < |caps|
        ensures Explains(k.host.endian, TakenBy(k, caps)[i], caps[i], Run(k, caps).1[i])
      {
        if i > 0 {
          assert caps[i] == caps[1..][i - 1] && TakenBy(k, caps)[i] == later[i - 1];
          assert Run(k, caps).1[i] == Run(k1, caps[1..]).1[i - 1];
        }
      }
    }
  }

  // -- user data alone ---------------------------------------------------------------------------

  ghost function WithoutSignals(s: seq<Atom>): seq<Atom> {
    if s == [] then [] else (if s[0].Signal? then [] else [s[0]]) + WithoutSignals(s[1..])
  }

  lemma {:induction false} WithoutSignalsAppend(a: seq<Atom>, b: seq<Atom>)
    ensures WithoutSignals(a + b) == WithoutSignals(a) + WithoutSignals(b)
  {
    if a == [] {
      assert a + b == b;
    } else {
      WithoutSignalsAppend(a[1..], b);
      assert (a + b)[1..] == a[1..] + b && (a + b)[0] == a[0];
      var x, y, z := if a[0].Signal? then [] else [a[0]], WithoutSignals(a[1..]), WithoutSignals(b);
      assert x + (y + z) == x + y + z;
    }
  }

  lemma {:induction false} NoSignals(s: seq<Atom>)
    requires forall i :: 0 <= i < |s| ==> !s[i].Signal?
    ensures WithoutSignals(s) == s
  {
    if s != [] {
      NoSignals(s[1..]);
    }
  }

  /** The user data this socket still has to deliver. */
  ghost function UserDataOf(k: Kernel): seq<Atom> {
    WithoutSignals(Pending(k))
  }

  /** The stream of user data a caller sees, from its results alone. */
  ghost function Received(os: seq<Outcome>): seq<Atom> {
    if os == [] then []
    else (if os[0].Data? then DataAtoms(os[0].bytes, os[0].info, os[0].eor) else []) + Received(os[1..])
  }

  lemma {:induction false} ReceivedIsTaken(e: Endian, parts: seq<seq<Atom>>, caps: seq<nat>, os: seq<Outcome>)
    requires Explained(e, parts, caps, os)
    ensures WithoutSignals(Concat(parts)) == Received(os)
    decreases |os|
  {
    hide Judge, DataAtoms;
    if os != [] {
      assert Explains(e, parts[0], caps[0], os[0]);
      forall i | 0 <= i < |os| - 1
        ensures Explains(e, parts[1..][i], caps[1..][i], os[1..][i])
      {
        assert Explains(e, parts[i + 1], caps[i + 1], os[i + 1]);
      }
      ReceivedIsTaken(e, parts[1..], caps[1..], os[1..]);
      WithoutSignalsAppend(parts[0], Concat(parts[1..]));
      if os[0].Data? {
        NoSignals(parts[0]);
      } else if parts[0] != [] {
        assert parts[0][1..] == [];
        assert WithoutSignals(parts[0]) == WithoutSignals([]) == [];
      }
    }
  }

  /**
   * Conservation of data: the data results in order, then the data still pending, are the original data:
   * every byte, its metadata and every message boundary, with no notification byte among them.
   */
  lemma DataConserved(k: Kernel, caps: seq<nat>)
    requires InSync(k)
    ensures UserDataOf(k) == Received(Run(k, caps).1) + UserDataOf(Run(k, caps).0)
  {
    hide Run, Pending, TakenBy, Explained;
    RunConserves(k, caps);
    ReceivedIsTaken(k.host.endian, TakenBy(k, caps), caps, Run(k, caps).1);
    WithoutSignalsAppend(Concat(TakenBy(k, caps)), Pending(Run(k, caps).0));
  }

  // -- message boundaries --------------------------------------------------------------------------

  /** Complete messages and the unfinished rest. */
  datatype Cut = Cut(messages: seq<seq<byte>>, partial: seq<byte>)

  ghost function FeedOne(c: Cut, a: Atom, pick: Option<RcvInfo> -> bool): Cut {
    match a
    case Octet(info, b) => if pick(info) then c.(partial := c.partial + [b]) else c
    case EndOfMessage(info) => if pick(info) then Cut(c.messages + [c.partial], []) else c
    case Signal(_) => c
  }

  /** Cutting a data stream at its end marks, for the messages whose metadata `pick` selects. */
  ghost function Feed(c: Cut, s: seq<Atom>, pick: Option<RcvInfo> -> bool): Cut
    decreases |s|
  {
    if s == [] then c else Feed(FeedOne(c, s[0], pick), s[1..], pick)
  }

  lemma {:induction false} FeedAppend(c: Cut, a: seq<Atom>, b: seq<Atom>, pick: Option<RcvInfo> -> bool)
    ensures Feed(c, a + b, pick) == Feed(Feed(c, a, pick), b, pick)
    decreases |a|
  {
    if a == [] {
      assert a + b == b;
    } else {
      FeedAppend(FeedOne(c, a[0], pick), a[1..], b, pick);
      assert (a + b)[1..] == a[1..] + b && (a + b)[0] == a[0];
    }
  }

  /** What a caller that collects fragments until `eor` has, for one stream or any other selection. */
  ghost function Collected(c: Cut, os: seq<Outcome>, pick: Option<RcvInfo> -> bool): Cut
    decreases |os|
  {
    if os == [] then c
    else
      var o := os[0];
      var c1 := if o.Data? && pick(o.info) then
          if o.eor then Cut(c.messages + [c.partial + o.bytes], []) else c.(partial := c.partial + o.bytes)
        else c;
      Collected(c1, os[1..], pick)
  }

  lemma {:induction false} FeedOctets(c: Cut, bytes: seq<byte>, info: Option<RcvInfo>, pick: Option<RcvInfo> -> bool)
    ensures Feed(c, DataAtoms(bytes, info, false), pick)
         == if pick(info) then c.(partial := c.partial + bytes) else c
    decreases |bytes|
  {
    var s := DataAtoms(bytes, info, false);
    if bytes == [] {
      assert s == [];
      assert c.partial + bytes == c.partial;
    } else {
      var c1 := if pick(info) then c.(partial := c.partial + [bytes[0]]) else c;
      assert s[1..] == DataAtoms(bytes[1..], info, false);
      FeedOctets(c1, bytes[1..], info, pick);
      assert c.partial + [bytes[0]] + bytes[1..] == c.partial + bytes;
    }
  }

  lemma FeedData(c: Cut, bytes: seq<byte>, info: Option<RcvInfo>, eor: bool, pick: Option<RcvInfo> -> bool)
    ensures Feed(c, DataAtoms(bytes, info, eor), pick)
         == if !pick(info) then c
            else if eor then Cut(c.messages + [c.partial + bytes], []) else c.(partial := c.partial + bytes)
  {
    FeedOctets(c, bytes, info, pick);
    if eor {
      var mark := [EndOfMessage(info)];
      assert DataAtoms(bytes, info, true) == DataAtoms(bytes, info, false) + mark;
      FeedAppend(c, DataAtoms(bytes, info, false), mark, pick);
      assert mark[1..] == [];
    }
  }

  lemma {:induction false} CollectedIsFed(c: Cut, os: seq<Outcome>, pick: Option<RcvInfo> -> bool)
    ensures Collected(c, os, pick) == Feed(c, Received(os), pick)
    decreases |os|
  {
    hide DataAtoms;
    if os != [] {
      var o := os[0];
      if o.Data? {
        var here := DataAtoms(o.bytes, o.info, o.eor);
        FeedData(c, o.bytes, o.info, o.eor, pick);
        FeedAppend(c, here, Received(os[1..]), pick);
        CollectedIsFed(Feed(c, here, pick), os[1..], pick);
      } else {
        assert [] + Received(os[1..]) == Received(os[1..]);
        CollectedIsFed(c, os[1..], pick);
      }
    }
  }

  lemma {:induction false} FeedSkipsSignals(c: Cut, s: seq<Atom>, pick: Option<RcvInfo> -> bool)
    ensures Feed(c, WithoutSignals(s), pick) == Feed(c, s, pick)
    decreases |s|
  {
    if s != [] {
      FeedSkipsSignals(FeedOne(c, s[0], pick), s[1..], pick);
      if !s[0].Signal? {
        assert WithoutSignals(s)[1..] == WithoutSignals(s[1..]);
      } else {
        assert [] + WithoutSignals(s[1..]) == WithoutSignals(s[1..]);
      }
    }
  }

  /**
   * Collecting fragments until `eor` during any run, and then cutting what is still pending, recovers the
   * message boundaries of the original queue, per stream, however reads and notifications interleave.
   */
  lemma MessagesRecovered(k: Kernel, caps: seq<nat>, pick: Option<RcvInfo> -> bool)
    requires InSync(k)
    ensures Feed(Cut([], []), Pending(k), pick)
         == Feed(Collected(Cut([], []), Run(k, caps).1, pick), Pending(Run(k, caps).0), pick)
  {
    hide Run, Pending, Feed, Collected, WithoutSignals, Received;
    var zero := Cut([], []);
    var os, left := Run(k, caps).1, Pending(Run(k, caps).0);
    DataConserved(k, caps);
    FeedSkipsSignals(zero, Pending(k), pick);
    FeedAppend(zero, Received(os), WithoutSignals(left), pick);
    CollectedIsFed(zero, os, pick);
    FeedSkipsSignals(Collected(zero, os, pick), left, pick);
  }

  /** A fragment of user data as it is queued, and whether it ends its message. */
  datatype Fragment = Fragment(bytes: seq<byte>, last: bool)

  /** The queued fragments of the selected messages, whatever is queued between them. */
  ghost function Fragments(h: Host, q: seq<Entry>, pick: Option<RcvInfo> -> bool): seq<Fragment> {
    if q == [] then []
    else
      (if q[0].UserData? && pick(InfoOf(h, q[0].control)) then [Fragment(q[0].payload, q[0].eom)] else [])
      + Fragments(h, q[1..], pick)
  }

  ghost function Joined(parts: seq<seq<byte>>): seq<byte> {
    if parts == [] then [] else parts[0] + Joined(parts[1..])
  }

  /** The fragments of one message split into `parts`; the message is complete if `ends`. */
  ghost function Split(parts: seq<seq<byte>>, ends: bool): seq<Fragment> {
    seq(|parts|, i requires 0 <= i < |parts| => Fragment(parts[i], ends && i == |parts| - 1))
  }

  /** Complete messages, each split somehow into one or more fragments, one message after the other. */
  ghost function SplitAll(messages: seq<seq<seq<byte>>>): seq<Fragment> {
    if messages == [] then [] else Split(messages[0], true) + SplitAll(messages[1..])
  }

  ghost function JoinAll(messages: seq<seq<seq<byte>>>): seq<seq<byte>> {
    if messages == [] then [] else [Joined(messages[0])] + JoinAll(messages[1..])
  }

  ghost function Glue(c: Cut, fs: seq<Fragment>): Cut
    decreases |fs|
  {
    if fs == [] then c
    else
      var whole := c.partial + fs[0].bytes;
      Glue(if fs[0].last then Cut(c.messages + [whole], []) else c.(partial := whole), fs[1..])
  }

  /** Cutting the stream of a queue glues its selected fragments. */
  lemma {:induction false} FeedGlues(h: Host, q: seq<Entry>, c: Cut, pick: Option<RcvInfo> -> bool)
    requires forall e :: e in q ==> e.off == 0
    ensures Feed(c, Atoms(h, q), pick) == Glue(c, Fragments(h, q, pick))
    decreases |q|
  {
    hide InfoOf, DataAtoms, Feed;
    if q == [] {
      FeedNothing(c, pick);
    } else {
      var e, rest := q[0], q[1..];
      assert e in q;
      FeedAppend(c, EntryAtoms(h, e), Atoms(h, rest), pick);
      FeedGlues(h, rest, Feed(c, EntryAtoms(h, e), pick), pick);
      if e.UserData? {
        assert e.payload[e.off..] == e.payload;
        FeedData(c, e.payload, InfoOf(h, e.control), e.eom, pick);
        if pick(InfoOf(h, e.control)) {
          var here, later := [Fragment(e.payload, e.eom)], Fragments(h, rest, pick);
          assert (here + later)[1..] == later;
        } else {
          assert [] + Fragments(h, rest, pick) == Fragments(h, rest, pick);
        }
      } else {
        FeedSignal(c, e.payload, pick);
        assert [] + Fragments(h, rest, pick) == Fragments(h, rest, pick);
      }
    }
  }

  lemma FeedNothing(c: Cut, pick: Option<RcvInfo> -> bool)
    ensures Feed(c, [], pick) == c
  {
  }

  lemma FeedSignal(c: Cut, payload: seq<byte>, pick: Option<RcvInfo> -> bool)
    ensures Feed(c, [Signal(payload)], pick) == c
  {
    assert [Signal(payload)][1..] == [];
  }

  lemma {:induction false} GlueSplit(c: Cut, parts: seq<seq<byte>>, ends: bool, more: seq<Fragment>)
    requires ends ==> parts != []
    ensures var whole := c.partial + Joined(parts);
      Glue(c, Split(parts, ends) + more) == Glue(if ends then Cut(c.messages + [whole], []) else c.(partial := whole), more)
    decreases |parts|
  {
    var fs := Split(parts, ends) + more;
    if parts == [] {
      assert fs == more && c.partial + [] == c.partial;
    } else {
      var here := c.partial + parts[0];
      assert here + Joined(parts[1..]) == c.partial + Joined(parts);
      if |parts| == 1 {
        assert fs[1..] == more && Joined(parts[1..]) == [] && here + [] == here;
      } else {
        assert fs[1..] == Split(parts[1..], ends) + more;
        GlueSplit(c.(partial := here), parts[1..], ends, more);
      }
    }
  }

  lemma {:induction false} GlueSplitAll(c: Cut, messages: seq<seq<seq<byte>>>, more: seq<Fragment>)
    requires c.partial == [] && forall m :: m in messages ==> m != []
    ensures Glue(c, SplitAll(messages) + more) == Glue(Cut(c.messages + JoinAll(messages), []), more)
    decreases |messages|
  {
    hide Glue, Split;
    if messages == [] {
      assert [] + more == more && c.messages + [] == c.messages;
    } else {
      var first, rest := messages[0], messages[1..];
      assert first in messages && forall m :: m in rest ==> m in messages;
      assert SplitAll(messages) + more == Split(first, true) + (SplitAll(rest) + more);
      GlueSplit(c, first, true, SplitAll(rest) + more);
      assert [] + Joined(first) == Joined(first);
      GlueSplitAll(Cut(c.messages + [Joined(first)], []), rest, more);
      assert c.messages + [Joined(first)] + JoinAll(rest) == c.messages + JoinAll(messages);
    }
  }

  /**
   * Cutting means what it should. If the selected entries of an unread queue are `messages`, each split into
   * fragments, and the beginning `tail` of one more, then cutting gives back exactly those messages and that
   * beginning, however notifications and other streams are queued between the fragments.
   */
  lemma CutRecoversMessages(
    h: Host, q: seq<Entry>, pick: Option<RcvInfo> -> bool, messages: seq<seq<seq<byte>>>, tail: seq<seq<byte>>)
    requires forall e :: e in q ==> e.off == 0
    requires forall m :: m in messages ==> m != []
    requires Fragments(h, q, pick) == SplitAll(messages) + Split(tail, false)
    ensures Feed(Cut([], []), Atoms(h, q), pick) == Cut(JoinAll(messages), Joined(tail))
  {
    hide Feed, Split, SplitAll, Fragments, Atoms;
    var zero, whole := Cut([], []), Cut(JoinAll(messages), []);
    FeedGlues(h, q, zero, pick);
    GlueSplitAll(zero, messages, Split(tail, false));
    assert [] + JoinAll(messages) == JoinAll(messages);
    GlueSplit(whole, tail, false, []);
    assert Split(tail, false) + [] == Split(tail, false) && [] + Joined(tail) == Joined(tail);
  }

  // -- progress ----------------------------------------------------------------------------------------

  /** Bytes, entries and environment moves still to come. */
  ghost function Work(k: Kernel): nat {
    Weight(Future(k)) + |k.schedule|
  }

  lemma CallWorks(k: Kernel, cap: nat)
    requires InSync(k) && cap > 0
    ensures Work(Attempt(k, cap).0) <= Max(0, Work(k) - 1)
  {
    hide Arrive, Attempt, Weight, Coming;
    AttemptRefinesDeliver(k, cap);
    ArriveOnlyAppends(k);
    var k1, k2 := Arrive(k), Attempt(k, cap).0;
    if k1.queue == [] {
      SameFuture(k1, k2);
      if k.schedule == [] {
        NothingComing(k1);
      }
    } else if k1.queue[0].Notice? {
      ExactCap(k, cap);
      var rest := k1.(queue := k1.queue[1..]);
      ArriveTimesKeepsFuture(rest, MoreReads(Max(0, |k1.queue[0].payload| - cap)));
      WeightAppend([k1.queue[0]], Future(k2));
      WeightOfOne(k1.queue[0]);
    } else {
      AttemptOnData(k, cap);
      RecvShrinks(k, cap);
    }
  }

  lemma WeightOfOne(e: Entry)
    ensures Weight([e]) > 0
  {
  }

  lemma NothingComing(k: Kernel)
    requires k.schedule == [] && k.queue == []
    ensures Weight(Future(k)) == 0
  {
  }

  /**
   * Nothing gets stuck: with nonempty buffers, enough calls deliver the whole stream, so the parts taken by
   * those calls concatenate to everything that was pending.
   */
  lemma {:induction false} EverythingIsDelivered(k: Kernel, caps: seq<nat>)
    requires InSync(k) && |caps| >= Work(k)
    requires forall i :: 0 <= i < |caps| ==> caps[i] > 0
    ensures Future(Run(k, caps).0) == []
    ensures Concat(TakenBy(k, caps)) == Pending(k)
  {
    RunDrains(k, caps);
    RunConserves(k, caps);
    assert Pending(Run(k, caps).0) == [];
  }

  /**
   * End to end: a caller that reads often enough and collects fragments until `eor` has exactly the messages
   * that were queued or still to arrive when it began, whole and in order, and the beginning of an unfinished one.
   */
  lemma MessagesDelivered(
    k: Kernel, caps: seq<nat>, pick: Option<RcvInfo> -> bool, messages: seq<seq<seq<byte>>>, tail: seq<seq<byte>>)
    requires InSync(k) && |caps| >= Work(k)
    requires forall i :: 0 <= i < |caps| ==> caps[i] > 0
    requires forall e :: e in Future(k) ==> e.off == 0
    requires forall m :: m in messages ==> m != []
    requires Fragments(k.host, Future(k), pick) == SplitAll(messages) + Split(tail, false)
    ensures Collected(Cut([], []), Run(k, caps).1, pick) == Cut(JoinAll(messages), Joined(tail))
  {
    hide Run, Future, Feed, Collected, Work, Fragments, Split, SplitAll;
    EverythingIsDelivered(k, caps);
    MessagesRecovered(k, caps, pick);
    CutRecoversMessages(k.host, Future(k), pick, messages, tail);
    FeedNothing(Collected(Cut([], []), Run(k, caps).1, pick), pick);
    assert Pending(Run(k, caps).0) == [];
  }

  lemma {:induction false} RunDrains(k: Kernel, caps: seq<nat>)
    requires InSync(k) && |caps| >= Work(k)
    requires forall i :: 0 <= i < |caps| ==> caps[i] > 0
    ensures Future(Run(k, caps).0) == []
    decreases |caps|
  {
    hide Attempt, InSync, Weight, Future;
    if caps == [] {
      WeightlessIsEmpty(Future(k));
    } else {
      CallWorks(k, caps[0]);
      AttemptKeepsSync(k, caps[0]);
      RunDrains(Attempt(k, caps[0]).0, caps[1..]);
    }
  }

  lemma WeightlessIsEmpty(q: seq<Entry>)
    requires Weight(q) == 0
    ensures q == []
  {
  }
}
