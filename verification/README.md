# lksctp: a verified model of the receive and connect paths

`lksctp` is a Rust binding to Linux kernel SCTP. Most of it forwards system calls; the parts modelled here are the
ones that keep state, loop, or do byte arithmetic:

- the **receive path**: `recv_msg` and `reassemble_notification`, which share one kernel queue between user data and
  notifications that may both be read in fragments;
- the **readiness loops** of the Tokio layer: `read_op` around a receive (with retries and cancellation) and
  `established`;
- the **connect protocol**: `StreamBuilder`, `connectx`, `register`, `classify_connectx_error`;
- the **codecs**: control messages, packed `sockaddr` lists, notifications;
- the **address query** with its growing buffer, and the **timeout** conversions.

## How the model is built

`Kernel.dfy` is the environment. A `Kernel` value is one socket's kernel-side state: receive queue, subscriptions,
blocking mode, association phase, pending error, and a *schedule* of happenings (establishment, setup failure, end of
the association, raised events, arriving data, close, error). One batch of the schedule takes effect before every system call, so a theorem
for all schedules is a theorem for all interleavings of the program with the peer and the network. The kernel rules
are the ones the crate documents it relies on: a partly read message stays at the head of the queue
(src/imp/kernel.rs:399-402), a notification is queued only if its class is subscribed at that moment
(src/notification.rs:16-19), only the establishment of the association announces `CommUp` and nothing else but
notifications is delivered before it (src/net/common.rs:109-113), and there is a single reader
(src/socket.rs:135-137). A notification is one queue entry; user data may be queued in fragments. `Future(k)` is
everything queued now or by the rest of the schedule.

The crate's own code is imperative Dafny: `Socket` (class, one field, the kernel-side state behind the descriptor),
`Iter`, `StreamBuilder`, and methods with the original loops over arrays and sequences. Each such method is proved
equal to a function that says what the code does on *any* kernel state, dead branches included (`Reassemble`,
`Attempt`, `ReadOp`, `Establish`, `Connectx`, `ConnectStream`, `ConnectFrom`). The theorems then relate those functions to
independent definitions: `Deliver` takes the head entry whole, `Atoms` reads a queue as a stream of bytes, end marks
and whole notifications, `FoldsTo` describes a wait by its first decisive item and `FoldResult` is that fold, `Encode` is a reference encoder for
every notification variant.

Byte order and word size are parameters (`Host`): every codec result holds for little- and big-endian hosts with
4- or 8-byte words. `u16`, `u32`, `i32` are ranges, and sign reinterpretation and byte swapping are written out.

| file | content |
|---|---|
| `Bytes.dfy`, `Types.dfy` | integers as bytes, PPID and per-message metadata |
| `Addr.dfy`, `AddrQuery.dfy` | sockaddr layout and lists; the growing query |
| `Cmsg.dfy` | control messages |
| `Notifications.dfy`, `NotificationCodec.dfy` | the parser; which bytes denote which notification |
| `Kernel.dfy` | the environment and its system calls |
| `Receive.dfy`, `Runs.dfy` | one receive; whole runs of receives |
| `Async.dfy`, `Connect.dfy` | readiness loops; the connect protocol |
| `Timeout.dfy` | `Duration` and `timeval` |

`dafny verify dfyconfig.toml` checks everything.

## A property that does not hold everywhere

Timeouts are not monotone across saturation: `set_timeout` clamps the seconds to `time_t::MAX` but keeps the
microseconds of the unclamped duration, so `time_t::MAX` seconds and 999 999 999 ns reads back longer than one
nanosecond more. `Timeout.MonotoneIff` gives the exact condition, `Timeout.SaturationBreaksMonotonicity` the input.

## Model

| member | source | states |
|---|---|---|
| `Receive.Socket.ReassembleNotification` | src/imp/kernel.rs:404-442 | The loop computes `Reassemble` on any kernel state, ends because each read shrinks what is left to read, and never buffers more than the larger of the first fragment and 1 MiB |
| `Receive.Socket.RecvMsg` | src/imp/kernel.rs:333-395 | The call computes `Attempt`: resulting kernel state, returned value, data bytes at the front of the caller's buffer and nothing after them touched |
| `Receive.ReassembleFinishes` | src/imp/kernel.rs:397-442 | From inside a notification the loop always reaches the end mark, whatever arrives behind it: no user data, error or empty queue is ever met, exactly the rest of that notification is consumed, and the whole payload is returned unless it exceeds 1 MiB |
| `Receive.AttemptRefinesDeliver` | src/imp/kernel.rs:365-395 | In sync, receive-reassemble-parse equals "take the head entry whole and judge it", for every buffer size including zero |
| `Receive.AttemptKeepsSync` | src/imp/kernel.rs:365-379 | After any call, successful or failed, the queue head is not inside a notification, and the desynchronized error is never returned |
| `Receive.ExactCap` | src/imp/kernel.rs:404-442 | A notification is rejected as oversized if and only if it exceeds both the buffer and 1 MiB; otherwise it is parsed whole; either way exactly that one entry leaves the queue |
| `Receive.BufferSizeIndependence` | src/imp/kernel.rs:365-379 | For a notification within 1 MiB any two buffer sizes give the same result and the same remaining stream, and the same kernel state when nothing arrives meanwhile |
| `Runs.OneCall` | src/imp/kernel.rs:333-395 | One call removes a prefix of the stream and reports exactly that prefix |
| `Runs.RunConserves` | src/imp/kernel.rs:333-442 | For every run of calls with any buffer sizes and any arrivals: in sync at the end, never desynchronized, every result explained by what its call removed, and removed parts followed by the pending stream equal the original stream, in order |
| `Runs.DataConserved` | src/imp/kernel.rs:381-395 | The data results of any run followed by the pending data equal the original data: bytes, metadata and message ends, with nothing of a notification among them |
| `Runs.MessagesRecovered` | src/types.rs:249-254 | A caller that collects fragments until `eor`, for any selection of streams, recovers the message boundaries of the original queue, notifications interleaved or not |
| `Runs.CutRecoversMessages` | src/types.rs:249-254 | Cutting at end marks means what it should: a queue whose selected entries are messages, each split into fragments in any way, and the beginning of one more cuts to exactly those messages and that beginning, however notifications and other streams lie between the fragments |
| `Runs.MessagesDelivered` | src/types.rs:249-254 | A caller that reads often enough and collects until `eor` ends up with exactly the queued and arriving messages of the selection, whole and in order |
| `Runs.EverythingIsDelivered` | src/imp/kernel.rs:333-442 | With nonempty buffers, finitely many calls (a bound is given) deliver the whole stream |
| `Async.RecvMsgAsync` | src/net/common.rs:59-78 | The retry loop computes `ReadOp` for every sequence of wakeups, cancellation or reactor failure |
| `Async.OpCharacterized` | src/net/common.rs:59-78 | What one operation returns: it ends at the first await that is dropped, fails, or is ready for anything at all (data, notification, error or end of the association), and then with exactly that; it is still waiting only if every await was ready for nothing |
| `Async.OneOp` | src/net/common.rs:59-78 | Retries and cancellation of one receive lose nothing: only a completed operation takes anything, and never with `WouldBlock` |
| `Async.CancellationIsSafe` | src/net/stream.rs:109-126 | Over every sequence of receive operations, arbitrarily retried and cancelled, delivered items followed by the pending stream are everything there was, in order |
| `Async.AsyncDataConserved` | src/net/common.rs:59-78 | The data results of such operations followed by the pending data are all the user data, byte for byte |
| `Async.Established` | src/net/common.rs:114-161 | The wait computes `Establish` for every sequence of wakeups |
| `Async.EstablishRefinesFold` | src/net/common.rs:114-161 | Result and consumption are those of the first decisive entry; every other notification of any accepted size is skipped despite the 512-byte buffer. A stop before that entry has a cause: a dropped future, the reactor, a socket error or close that was pending or arose in the environment and is reported only on an empty queue. A setup failure reports such a socket error or ConnectionRefused. Woken often enough the wait concludes |
| `Async.WaitConcludes` | src/net/common.rs:114-161 | With enough wakeups: on a socket that never fails or closes, result and rest are exactly those of the fold over everything there is to read (so it waits on only if nothing decisive ever comes); on any other socket it returns |
| `Async.WakeupEndsWait` | src/net/common.rs:121-126 | The first await that is not ready ends a wait that has not returned before, by cancellation or with the reactor's error; nothing behind it matters |
| `Connect.ConnectxSocket` | src/imp/kernel.rs:256-287 | The crate's `connectx` computes `Connectx`, querying the mode only on EINPROGRESS |
| `Connect.ConnectxMeaning` | src/imp/kernel.rs:47-63 | On every socket: no addresses, an immediate refusal and a busy socket each give their own error; a blocking socket succeeds if and only if the association has come up, gives `TimedOut` if and only if the handshake is still running and ECONNREFUSED if and only if setup failed; a non-blocking one succeeds once the handshake is started |
| `Connect.Register` | src/net/common.rs:33-43 | The socket is non-blocking afterwards, subscriptions and everything there is to read are unchanged, a socket without an association still has none and an untouched queue, and the call fails exactly if the reactor refuses |
| `Connect.StreamBuilder.constructor` | src/net/stream.rs:68-73 | A new builder's flag and requested set agree with the socket's empty subscriptions |
| `Connect.StreamBuilder.SubscribeEvents` | src/net/stream.rs:208-214 | Flag and subscription set stay in step, the requested set grows by the given classes, and the call fails, with EINVAL and the classes before it subscribed, exactly if the kernel does not know one of them |
| `Connect.StreamBuilder.ConnectxStream` | src/net/stream.rs:257-272 | Computes `ConnectStream`, a refusing reactor included; on success the association has come up and the subscriptions are exactly the requested ones |
| `Connect.SubscribeThenConnect` | src/net/stream.rs:208-272 | After any sequence of `subscribe_events` calls and a successful connect the subscriptions are exactly their union |
| `Connect.ConnectxFromSocket` | src/net/stream.rs:39-55 | Computes `ConnectFrom` on every path. One-to-many sockets and sockets that already have or had an association are refused; success means the association has come up, with AssocChange added to the subscriptions and kept |
| `Connect.FromSocketSafety` | src/net/stream.rs:39-55 | Its result is the reason not to begin, or the wait's result; only notifications are consumed, a CommUp exactly on success, and no user data is lost |
| `Connect.FromSocketReturnsOutcome` | src/net/stream.rs:39-55 | If only benign things happen before the handshake ends, it returns what the handshake ended with: success if it came up, otherwise the error setup left |
| `Connect.BeginRefusals` | src/net/stream.rs:257-264 | A connect begins exactly if nothing refuses it, and otherwise fails with the first of: EINVAL for an unknown event class, the reactor's error, InvalidInput for no addresses, the kernel's refusal, EISCONN |
| `Connect.BeginStarts` | src/net/stream.rs:257-264 | When the wait begins the subscription is in place, and in everything there is and will be to read, data comes only after a CommUp |
| `Connect.UpImpliesEstablished` | src/net/common.rs:114-161 | The wait returns success only on an association that has come up (it may have ended since) |
| `Connect.ConnectSafety` | src/net/stream.rs:257-272 | In every interleaving the result is the reason not to begin or else the wait's result; only notifications are consumed, never user data, and a CommUp is consumed if and only if the wait succeeds; success consumes exactly the prefix ending at it, on an association that has come up, with the caller's subscriptions restored |
| `Connect.ConnectThenReceive` | src/net/stream.rs:257-272 | Connecting loses no data: after any outcome, the subscription restored or not, the data results of any receives followed by the data still to come are all the data there was to come when the wait began |
| `Connect.EstablishmentShows` | src/net/common.rs:104-113 | Subscribed before the handshake, the stream shows a CommUp if and only if the association comes up, in every environment |
| `Connect.CommUpNeverMissed` | src/net/common.rs:100-161 | In every environment: if the association comes up its CommUp is in the stream the wait reads, is consumed exactly by a successful wait and otherwise still there, and a wait woken often enough returns; without socket errors it returns the fold's result |
| `Connect.WaitReturnsOutcome` | src/net/common.rs:100-161 | If only benign things (data and notifications the wait skips) happen before the handshake ends, the wait returns what it ended with: success if it came up, an error if setup failed, for every batching of the environment's moves and anything at all happening afterwards |
| `Connect.DecidingBatch` | src/net/common.rs:104-113 | The end of the handshake is announced by exactly one first decisive notification, behind nothing but skipped ones |
| `Connect.ConnectReturnsOutcome` | src/net/stream.rs:257-272 | The same for the whole connect, with or without a caller subscription: if nothing but benign happenings (no socket error, close or rejected notification) precedes the end of the handshake, it succeeds if the handshake comes up and otherwise fails, with exactly the error the failed setup left on the socket (ConnectionRefused if none) when no other socket error intervenes |
| `Connect.UnsubscribedNeverSucceeds` | src/net/common.rs:106-110 | Without the subscription the wait cannot succeed in any environment |
| `Cmsg.AlignIsLeast` | src/cmsg.rs:14-16 | Adding `p - 1` and clearing the low bits gives the least multiple of the word size not below the argument |
| `Cmsg.HdrLenIsAlignedHeader` | src/cmsg.rs:19 | The header length is the aligned size of its three fields |
| `Cmsg.Write` | src/cmsg.rs:34-44 | Writes exactly the encoding, padding zeroed, at the given place and nothing outside it |
| `Cmsg.Iter.Next` | src/cmsg.rs:59-76 | Yields the head of the remaining items and shrinks the buffer, or nothing exactly when no item remains |
| `Cmsg.IterationRoundTrip` | src/cmsg.rs:34-76 | Messages written back to back iterate to exactly the list written, also with any part of the last padding cut off |
| `Cmsg.IterationIsSafe` | src/cmsg.rs:59-76 | On arbitrary bytes the items are exactly the messages laid out there: each read off its header, in bounds, at the aligned end of the one before, extents ascending and disjoint, and it stops only where the header is cut off or its length is below a header or beyond the buffer |
| `Cmsg.ItemCount` | src/cmsg.rs:59-76 | At most `len / HDR_LEN` items are produced |
| `Cmsg.SendControl` | src/imp/kernel.rs:297-306 | The control buffer of a send iterates to one SNDINFO from which every field of the send parameters is read back at its offset, the PPID in network order |
| `Cmsg.ScanRcvInfo` | src/imp/kernel.rs:381-393 | The loop reports the last sufficiently long RCVINFO |
| `Cmsg.InfoIsTheLastRcvInfo` | src/imp/kernel.rs:381-393 | For any control buffer the metadata is the last message of level 132, type 3 and at least 28 bytes, and none exactly if there is no such message |
| `Cmsg.RcvInfoDelivered` | src/imp/kernel.rs:381-393 | The metadata the kernel attaches is what the caller sees, whatever other control messages stand before and behind it |
| `Cmsg.NoRcvInfoNoMetadata` | src/imp/kernel.rs:381-393 | No other control message is ever taken for metadata |
| `Types.PpidOnTheWire` | src/types.rs:70-77 | The PPID field is network order on every host and reads back unchanged |
| `Types.RcvInfoRoundTrip` | src/types.rs:215-226 | Every field of the receive metadata survives the kernel's layout |
| `Notifications.CollectStreams` | src/notification.rs:356-361 | The stream-reset loop collects every whole pair of bytes after offset 12 and ignores an odd last byte |
| `NotificationCodec.ParseSucceedsIff` | src/notification.rs:245-267 | Parsing succeeds if and only if the length reaches the fixed size of the type found; otherwise the error is InvalidData |
| `NotificationCodec.TypeDeterminesVariant` | src/notification.rs:274-387 | Which type code gives which variant, and which state and flag codes mean what |
| `NotificationCodec.ParseInvertsEncode` | src/notification.rs:274-387 | For every variant, all field values and all unreported bytes, parsing an encoding returns the notification |
| `NotificationCodec.EncodeInvertsParse` | src/notification.rs:274-387 | Every accepted buffer is an encoding of what it parsed to; nothing but the listed unreported bytes is lost |
| `NotificationCodec.ParseCharacterized` | src/notification.rs:274-387 | A buffer parses to a notification if and only if it encodes it |
| `NotificationCodec.ExtraBytesOnlyExtend` | src/notification.rs:265-387 | Appended bytes only extend the tail, the stream list or the raw copy |
| `NotificationCodec.SendFailureLayoutsAgree` | src/notification.rs:307-330 | The legacy and the new layout of one failed message parse to the same value, PPID in network order at 20 and 16, payload at 48 and 32 |
| `Addr.WriteSockaddr` | src/addr.rs:23-42 | Writes exactly the Linux layout at the head of the buffer and nothing after it |
| `Addr.ReadsIff` | src/addr.rs:46-68 | An address is read if and only if the family is 2 with 16 bytes or 10 with 28 bytes present |
| `Addr.SockaddrRoundTrip` | src/addr.rs:46-68 | Reading a written address returns it and its length, whatever follows |
| `Addr.PackAddrList` | src/addr.rs:72-80 | The list packed through one reused scratch array is the concatenation of the layouts; no byte of an entry survives into the next |
| `Addr.PackedDecodes` | src/addr.rs:84-98 | A packed list decodes to each of its prefixes, whatever bytes follow, and in full leaves exactly those bytes |
| `Addr.ReadAddrList` | src/addr.rs:84-98 | On arbitrary bytes the result is the longest decodable run of at most `count` entries and fits the reserved capacity |
| `Addr.ReadingPackedList` | src/addr.rs:84-98 | That run, read off a packed list, is the first `count` addresses |
| `Addr.PackingIsInjective` | src/addr.rs:72-80 | Different lists have different packed forms |
| `AddrQuery.GetAddrsWithCapacity` | src/imp/kernel.rs:818-852 | Returns exactly the list the kernel holds for the requested association if the reply fits 4 MiB (or a larger initial capacity), ENOMEM otherwise, any other error at once; each capacity is the clamped double of the one before, tried only while needed, with a logarithmic bound |
| `AddrQuery.GetAddrs` | src/imp/kernel.rs:814-816 | With the default capacity every list within the 4 MiB limit is returned exactly, larger ones fail with ENOMEM, and at most thirteen queries are made |
| `Timeout.NeverAccidentallyDisabled` | src/imp/kernel.rs:718-741 | Only the zero duration is rejected; the timeval sent is normalized, and zero only for `None` |
| `Timeout.DecodingNeverPanics` | src/imp/kernel.rs:743-755 | Any timeval, negative or unnormalized, decodes without overflow to the sum of its clamped parts |
| `Timeout.ReadsBackTruncated` | src/imp/kernel.rs:718-755 | Within `time_t`, reading back gives the duration truncated to microseconds, but at least one microsecond |
| `Timeout.ReadsBackSaturated` | src/imp/kernel.rs:726-733 | Beyond `time_t` the seconds saturate and the microseconds stay |
| `Timeout.NoneRoundTrips` | src/imp/kernel.rs:736-748 | A disabled timeout reads back as disabled |
| `Timeout.MonotoneIff` | src/imp/kernel.rs:718-755 | The exact condition under which a longer timeout reads back at least as long |
| `Timeout.SaturationBreaksMonotonicity` | src/imp/kernel.rs:726-733 | The input on which it does not |

## Left out

- Raw system calls, descriptors and pointers: represented only through the kernel state they read and change.
- Option getters and setters and the enum tables other than the notification states: field copies.
- Receive.Socket.RecvMsg: does not return the sender address (`want_from`, `msg_name`), one further `ReadSockaddr` beside the message.
- Connect.ConnectxSocket: does not return the association id the kernel fills in; the stream code discards it.
- Cmsg.RcvInfoDelivered: does not model the 192-byte limit on received control data, which holds one RCVINFO several times over.
- `write_op` and the payload side of `send_msg`: the same loop as `read_op` over a call without modelled state.
- `recvmsg` failing in the middle of a reassembly: excluded by the kernel rule that the rest of a message is readable at once.
- Blocking receives waiting inside the kernel: an empty queue reports `WouldBlock` at once; a read that waits is the same read with the awaited happenings in the batch before it.
- Several concurrent readers, which the crate documents as unsupported for ordering.
- AddrQuery.GetAddrsWithCapacity: does not model the truncation of an initial capacity of 4 GiB or more to `socklen_t`; the crate only passes 1800. The kernel's list does not change between the retries of one query.
- Connect.ConnectSafety: states restored subscriptions on the set; an AssocChange event raised between the CommUp and the restore may already be queued and stays there.
- SCTP transport behaviour (handshake packets, retransmission, path failover) and the Tokio reactor: a schedule of happenings and a sequence of wakeups.
- Listener, endpoint and the non-Linux stub: delegation.
