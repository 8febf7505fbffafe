/** `getaddrs_with_capacity`: querying an address list of unknown size. */
module AddrQuery {
  import opened Bytes
  import opened Types
  import opened Addr

  const MAX_CAPACITY := 4 * 1024 * 1024
  const HEADER := 8
  const DEFAULT_CAPACITY := 8 + 64 * SOCKADDR_IN6_LEN

  /** The kernel's side of a query: the addresses it holds for each association, or an error it answers with. */
  datatype Table = Table(endian: Endian, lists: map<AssocId, seq<SocketAddr>>, refusal: Option<int>) {
    ghost predicate Valid() {
      forall id :: id in lists ==> |lists[id]| < 0x1_0000_0000
    }

    /** The query for `id` is answered with a list if the buffer is large enough. */
    predicate Answers(id: AssocId) {
      refusal.None? && id in lists
    }

    /** What any other query fails with. */
    function Failure(id: AssocId): int
      requires !Answers(id)
    {
      if refusal.Some? then refusal.value else EINVAL
    }

    function ReplySize(id: AssocId): nat
      requires id in lists
    {
      HEADER + |Packed(endian, lists[id])|
    }
  }

  /** `SCTP_GET_LOCAL_ADDRS` / `SCTP_GET_PEER_ADDRS` on a buffer that holds the id: id, count, packed list. */
  function SysGetAddrs(t: Table, buf: seq<byte>): Result<seq<byte>>
    requires t.Valid() && |buf| >= HEADER
  {
    var id := I32Of(t.endian, buf[0..4]);
    if !t.Answers(id) then Err(Os(t.Failure(id)))
    else if |buf| < t.ReplySize(id) then Err(Os(ENOMEM))
    else
      var addrs := t.lists[id];
      Ok(buf[0..4] + U32Bytes(t.endian, |addrs|) + Packed(t.endian, addrs) + buf[t.ReplySize(id)..])
  }

  function Pow2(n: nat): nat {
    if n == 0 then 1 else 2 * Pow2(n - 1)
  }

  /** Each capacity tried is the double of the one before up to the clamp, and only tried if that was too small. */
  ghost predicate Growth(tried: seq<nat>, need: nat) {
    && tried != [] && tried[0] >= HEADER
    && (forall i :: 0 <= i < |tried| - 1 ==> tried[i] < need && tried[i] < tried[i + 1])
    && (forall i :: 0 <= i < |tried| - 1 ==> tried[i + 1] == Min(2 * tried[i], MAX_CAPACITY))
    && (|tried| >= 2 ==> Pow2(|tried| - 2) * tried[0] < MAX_CAPACITY && tried[|tried| - 1] <= MAX_CAPACITY)
  }

  lemma GrowthSnoc(tried: seq<nat>, need: nat)
    requires Growth(tried, need)
    requires tried[|tried| - 1] == Pow2(|tried| - 1) * tried[0]
    requires HEADER <= tried[|tried| - 1] < need && tried[|tried| - 1] < MAX_CAPACITY
    ensures var next := Min(2 * tried[|tried| - 1], MAX_CAPACITY);
      && Growth(tried + [next], need)
      && (next < MAX_CAPACITY ==> next == Pow2(|tried|) * tried[0])
  {
    var last := tried[|tried| - 1];
    var next := Min(2 * last, MAX_CAPACITY);
    Doubled(|tried| - 1, tried[0]);
    var more := tried + [next];
    forall i | 0 <= i < |more| - 1
      ensures more[i] < need && more[i] < more[i + 1] && more[i + 1] == Min(2 * more[i], MAX_CAPACITY)
    {
      if i < |tried| - 1 {
        assert more[i] == tried[i] && more[i + 1] == tried[i + 1];
      }
    }
  }

  lemma Doubled(n: nat, c: nat)
    ensures Pow2(n + 1) * c == 2 * (Pow2(n) * c)
  {
  }

  /** What a successful reply holds for the reader: the count and the packed list, whatever follows. */
  lemma ReplyReads(t: Table, id: AssocId, buf: seq<byte>)
    requires t.Valid() && |buf| >= HEADER && buf[0..4] == I32Bytes(t.endian, id)
    ensures !t.Answers(id) ==> SysGetAddrs(t, buf) == Err(Os(t.Failure(id)))
    ensures t.Answers(id) && |buf| < t.ReplySize(id) ==> SysGetAddrs(t, buf) == Err(Os(ENOMEM))
    ensures t.Answers(id) && |buf| >= t.ReplySize(id) ==>
      && SysGetAddrs(t, buf).Ok?
      && var reply := SysGetAddrs(t, buf).value;
         && |reply| == |buf|
         && U32Of(t.endian, reply[4..8]) == |t.lists[id]|
         && reply[8..] == Packed(t.endian, t.lists[id]) + buf[t.ReplySize(id)..]
  {
    hide U32Bytes, U32Of, I32Bytes, I32Of, Packed;
    I32RoundTrip(t.endian, id);
    if t.Answers(id) && |buf| >= t.ReplySize(id) {
      U32RoundTrip(t.endian, |t.lists[id]|);
      var reply := SysGetAddrs(t, buf).value;
      assert reply[4..8] == U32Bytes(t.endian, |t.lists[id]|);
    }
  }

  /**
   * Returns exactly the list the kernel holds for this association whenever the reply fits the largest
   * capacity tried, ENOMEM if it never does, and any other error at once.
   */
  method GetAddrsWithCapacity(t: Table, assocId: AssocId, initial: nat)
    returns (r: Result<seq<SocketAddr>>, ghost tried: seq<nat>)
    requires t.Valid()
    ensures !t.Answers(assocId) ==> r == Err(Os(t.Failure(assocId)))
    ensures !t.Answers(assocId) && t.Failure(assocId) != ENOMEM ==> |tried| == 1
    ensures t.Answers(assocId) ==>
      r == if t.ReplySize(assocId) <= Max(MAX_CAPACITY, initial) then Ok(t.lists[assocId]) else Err(Os(ENOMEM))
    ensures t.Answers(assocId) ==> Growth(tried, t.ReplySize(assocId)) && tried[0] == Max(initial, HEADER)
  {
    hide I32Bytes, U32Of;
    var capacity := Max(initial, HEADER);
    tried := [capacity];
    while true
      invariant capacity >= HEADER && tried != [] && tried[|tried| - 1] == capacity
      invariant capacity <= Max(MAX_CAPACITY, initial)
      invariant tried[0] == Max(initial, HEADER)
      invariant capacity < MAX_CAPACITY ==> capacity == Pow2(|tried| - 1) * tried[0]
      invariant capacity >= MAX_CAPACITY ==> capacity == Max(MAX_CAPACITY, initial)
      invariant t.Answers(assocId) ==> Growth(tried, t.ReplySize(assocId))
      invariant !t.Answers(assocId) && t.Failure(assocId) != ENOMEM ==> |tried| == 1
      decreases MAX_CAPACITY - capacity
    {
      var buf := I32Bytes(t.endian, assocId) + Zeros(capacity - 4);
      var result := SysGetAddrs(t, buf);
      ReplyReads(t, assocId, buf);
      if result.Ok? {
        var count := U32Of(t.endian, result.value[4..8]);
        var list := ReadAddrList(t.endian, result.value[8..], count);
        ghost var addrs := t.lists[assocId];
        ReadingPackedList(t.endian, addrs, buf[t.ReplySize(assocId)..], count, list);
        assert addrs[..|addrs|] == addrs;
        return Ok(list), tried;
      } else if result.error == Os(ENOMEM) && capacity < MAX_CAPACITY {
        if t.Answers(assocId) {
          GrowthSnoc(tried, t.ReplySize(assocId));
        }
        Doubled(|tried| - 1, tried[0]);
        capacity := Min(capacity * 2, MAX_CAPACITY);
        tried := tried + [capacity];
      } else {
        return Err(result.error), tried;
      }
    }
  }

  /** `getaddrs`: at most thirteen queries, for every list the 4 MiB limit admits. */
  method GetAddrs(t: Table, assocId: AssocId) returns (r: Result<seq<SocketAddr>>, ghost queries: nat)
    requires t.Valid()
    ensures t.Answers(assocId) ==>
      r == if t.ReplySize(assocId) <= 4 * 1024 * 1024 then Ok(t.lists[assocId]) else Err(Os(ENOMEM))
    ensures !t.Answers(assocId) ==> r == Err(Os(t.Failure(assocId)))
    ensures t.Answers(assocId) ==> queries <= 13
  {
    ghost var tried;
    r, tried := GetAddrsWithCapacity(t, assocId, DEFAULT_CAPACITY);
    queries := |tried|;
    if t.Answers(assocId) && queries > 13 {
      DoublingRunsOut(queries - 2);
    }
  }

  lemma DoublingRunsOut(n: nat)
    requires n >= 12
    ensures Pow2(n) * DEFAULT_CAPACITY >= MAX_CAPACITY
    decreases n
  {
    if n == 12 {
      assert Pow2(12) == 4096 by {
        assert Pow2(4) == 16;
        assert Pow2(8) == 256;
      }
    } else {
      DoublingRunsOut(n - 1);
    }
  }
}
