# Edge relay core: port-triplet allocator and endpoint fan-out

A Dafny model of the two pieces of sequential logic at the heart of the
media-server edge relay.

- **Port allocator** (`util.go`). One owner process holds the lease map
  `usedPortMap: base -> Connections` and a cursor `currentPort`. A GET scans
  forward from the cursor in steps of 6. It skips bases that are leased or whose
  three sockets (base, base+2, base+4) fail to bind, and it leases the first
  base that binds. When the cursor reaches `portMax-6`, it answers nil and
  resets the cursor to `portMin`. A RELEASE drops a lease if there is one.
  The pure functions `GetStep`, `ReleaseStep`, `ServeStep` and `RunSteps` over
  the datatype `Allocator` specify the owner loop. The class `Generator` holds
  the same state as mutable fields, and its methods `Get` (the `for {}` scan
  with its `break` exits), `Release`, `Serve` and `Run` are proved equal to
  those functions. Socket binding is an oracle `binds: int -> bool`, which says
  whether all three sockets of a base open.
- **Endpoint** (`endpoint.go`). `CreateEndPoint` takes a lease, derives the
  media description (ports `uint16(base)`, `uint16(base+2)`,
  `uint16(base+4)`), asks the origin to forward the stream, and starts the
  endpoint. `Close` stops forwarding and releases key `AudioPort`.
  `AttachSession` and `DetachSession` update the audio and video subscriber
  tables. One step of each listener reads a datagram into its 4096-byte buffer
  (an `array`). The audio and video2 steps then hand every subscriber of their
  table a fresh copy of `buffer[0..n)`. The primary video step forwards
  nothing.
- **Control-plane client** (`forwarder.go`). `EndpointData` and a client that
  records each request in a call log. Each reply (a forwarder id or an error
  body) is supplied by the caller.

Files: `numeric.dfy` (Go integer widths, `uint16` conversion), `wrappers.dfy`
(Option, Result), `port_allocator.dfy`, `forwarder.dfy`, `endpoint.dfy`.

The model reproduces these behaviours of the code as written:

- After a grant, the cursor stays on the leased base. It does not move past the
  block. The next GET skips that base only because it is in the map.
- The scan does not wrap around. A GET can be refused while bases below the
  cursor are free (`ScanDoesNotWrap`). So a refusal does not mean that every
  block is leased. It means only that every block at or above the cursor is
  leased or fails to bind (`GetRefusedIffExhausted`). After a refusal the
  cursor is back at `portMin`. Two GETs are not always enough to reach a free
  block: each of them may grant another free block first (`TwoGetsCanMissFreeBase`). Still no free block
  that binds is lost. With no RELEASE between them, k GETs in a row lease it
  whenever 6k >= portMax - portMin + 18, wherever the cursor starts
  (`FreeBaseLeasedAgain`).
- The admissible bases are `portMin <= base < portMax-6`, so the block at
  `portMax-6` is never used. With `portMin = 45000` and `portMax = 45012` the
  code grants one lease, not two (`TwelvePortRangeHoldsOneLease`).
- When the origin rejects the forward request, `CreateEndPoint` returns the
  error and does not release the lease.
- An attach whose id is absent from the audio table but present in the video
  table leaves the audio entry in place and still returns an error.
- There is no Closed state. After `Close`, attach and detach still act on the
  tables.
- Sends to a sink block rather than drop. In the model a sink is a sequence, so
  a send always succeeds.
- An attach of a known id is rejected, not overwritten (`sync.Map.LoadOrStore`).

## Model

| member | source | states |
|---|---|---|
| PortAllocator.ScanOutcome | examples/media-server-edge/util.go:87-108 | The scan keeps the range and leaves a well-formed state. A grant is a free, bindable, admissible base at or above the cursor, added as the only new key, with the cursor left on it. A refusal keeps the map and resets the cursor to portMin. Every grid base the scan passed was leased or failed to bind. |
| PortAllocator.GetPreservesWellFormed | examples/media-server-edge/util.go:78-109 | Between requests: the cursor satisfies portMin <= cursor < portMax-6 and (cursor-portMin) % 6 == 0, and every lease is on that grid and holds its own three sockets. GET keeps this. |
| PortAllocator.GetGrantsFreshLease | examples/media-server-edge/util.go:88-98 | A successful GET returns Bound(b) with b not previously leased, bindable and admissible. Exactly key b is added and every other entry is unchanged. The cursor stays on b. |
| PortAllocator.GetSkipsUnbindable | examples/media-server-edge/util.go:89-91 | A free base whose bind fails is not recorded. |
| PortAllocator.GetIsFirstFit | examples/media-server-edge/util.go:87-101 | Every grid base between the cursor and the granted base was leased or failed to bind. |
| PortAllocator.GetRefusedIffExhausted | examples/media-server-edge/util.go:87-107 | GET answers nil exactly when every admissible base at or above the cursor is leased or fails to bind. |
| PortAllocator.GetRefusalResetsCursor | examples/media-server-edge/util.go:102-106 | A nil answer leaves the map unchanged and sets the cursor to portMin. |
| PortAllocator.GetReachesFreeBase | examples/media-server-edge/util.go:87-98 | A free, bindable, admissible base at or above the cursor means the GET grants that base or a lower one. |
| PortAllocator.GetNKeepsLeases | examples/media-server-edge/util.go:87-106 | A run of GETs keeps the state well formed over the same range and never drops a lease. |
| PortAllocator.ReachFromBelow | examples/media-server-edge/util.go:87-106 | From a cursor at or below a free bindable block x, the GETs that follow grant bases no higher than x, each above the last, so x is leased within (x - cursor)/6 + 1 GETs. |
| PortAllocator.ReachFromAbove | examples/media-server-edge/util.go:87-106 | From a cursor above a free bindable block x, the GETs grant blocks above the cursor until one is refused and resets the cursor to portMin. After that x is leased within a bounded number of further GETs. |
| PortAllocator.FreeBaseLeasedAgain | examples/media-server-edge/util.go:87-106 | No free block that binds is lost to the wrap-free scan. Any k GETs with 6k >= portMax - portMin + 18 lease it, whatever the cursor. |
| PortAllocator.TwoGetsCanMissFreeBase | examples/media-server-edge/util.go:87-106 | Range 45000..45024, every bind succeeding: two GETs from the start state lease 45000 and 45006 and leave 45012 free. The third GET leases it. |
| PortAllocator.ReleaseRemovesExactly | examples/media-server-edge/util.go:110-116 | RELEASE removes exactly key port, keeps all other entries, and does not move the cursor. |
| PortAllocator.ReleaseUnknownIsNoop | examples/media-server-edge/util.go:111-116 | RELEASE of a base with no lease changes nothing. |
| PortAllocator.ReleaseIdempotent | examples/media-server-edge/util.go:110-116 | Releasing twice equals releasing once. |
| PortAllocator.ReleasePreservesWellFormed | examples/media-server-edge/util.go:110-116 | RELEASE keeps the between-requests invariant. |
| PortAllocator.ServePreservesWellFormed | examples/media-server-edge/util.go:80-120 | Every request kind (GET, RELEASE, other) keeps the invariant and the range. |
| PortAllocator.RunPreservesWellFormed | examples/media-server-edge/util.go:79-121 | Any sequence of requests keeps the invariant and the range. |
| PortAllocator.StartWellFormed | examples/media-server-edge/util.go:75-78 | When the start-up check passes, the initial state (empty map, cursor at portMin) is well formed. |
| PortAllocator.DefaultRangeOk | examples/media-server-edge/util.go:64-69 | The default range 45000..50000 passes the start-up check. |
| PortAllocator.LeasesDisjoint | examples/media-server-edge/util.go:93-97 | The port triplets {b, b+2, b+4} of two distinct leases share no port. |
| PortAllocator.LeasePortsInRange | examples/media-server-edge/util.go:125-133 | Every port of a lease lies in [portMin, portMax-2). |
| PortAllocator.ReachableLeasesDisjoint | examples/media-server-edge/util.go:73-122 | After any request sequence from the start state, distinct leases share no port and every leased port lies in [portMin, portMax). |
| PortAllocator.ReachableLeasePortsInRange | examples/media-server-edge/util.go:73-122 | After any request sequence from the start state, every port of every lease, one lease or many, lies in [portMin, portMax). |
| PortAllocator.TwelvePortRangeHoldsOneLease | examples/media-server-edge/util.go:88-106 | With range 45000..45012 the first GET leases 45000 and the second is refused. |
| PortAllocator.ScanDoesNotWrap | examples/media-server-edge/util.go:88-107 | A GET is refused while a free bindable base lies below the cursor. The next GET, from portMin, grants it. |
| PortAllocator.Generator.constructor | examples/media-server-edge/util.go:63-78 | The owner starts with an empty map and the cursor at portMin, under the start-up range check. |
| PortAllocator.Generator.Get | examples/media-server-edge/util.go:81-109 | The in-place scan loop yields exactly GetStep's new state and reply, and keeps the invariant. |
| PortAllocator.Generator.Release | examples/media-server-edge/util.go:110-116 | The in-place RELEASE yields exactly ReleaseStep's state. |
| PortAllocator.Generator.Serve | examples/media-server-edge/util.go:80-120 | The switch on the request kind yields exactly ServeStep's state and reply. |
| PortAllocator.Generator.Run | examples/media-server-edge/util.go:79-121 | The owner loop over a request sequence yields RunSteps' final state and replies. |
| PortAllocator.GetConnections | examples/media-server-edge/util.go:140-151 | Sends a GET. A nil reply becomes Failure("can't getting port") and a lease becomes Success. |
| PortAllocator.ReleaseConnections | examples/media-server-edge/util.go:153-158 | Sends a RELEASE of port. |
| Forwarder.Client.constructor | examples/media-server-edge/forwarder.go:18-20 | A new client has sent nothing. |
| Forwarder.Client.RequestForward | examples/media-server-edge/forwarder.go:35-66 | Logs the forward request and returns the origin's answer. |
| Forwarder.Client.RequestStopForward | examples/media-server-edge/forwarder.go:68-92 | Logs the stop request and returns its error, if any. |
| Numeric.ToUint16 | examples/media-server-edge/endpoint.go:41-43 | Go's uint16 conversion: exact on [0, 65536), congruent modulo 2^16 otherwise. |
| Endpoint.DescribedPortsMatchLease | examples/media-server-edge/endpoint.go:36-47 | Under a well-formed allocator with portMin >= 0, the casts do not wrap. AudioPort, VideoPort and VideoPort2 are base, base+2 and base+4: the lease's own ports, all below portMax. |
| Endpoint.CloseReleasesOwnLease | examples/media-server-edge/endpoint.go:71 | Releasing key AudioPort removes exactly the endpoint's lease and keeps the cursor. |
| Endpoint.AttachRejectsKnownSession | examples/media-server-edge/endpoint.go:75-78 | An id already in the audio table gives "already has session" and neither table changes. |
| Endpoint.AttachSucceedsIffNew | examples/media-server-edge/endpoint.go:74-84 | Attach succeeds exactly when the id is in neither table. Then audio maps id to AudioChan and video maps id to VideoChan. |
| Endpoint.AttachLeavesPartialState | examples/media-server-edge/endpoint.go:79-82 | An id absent from audio but present in video is inserted into audio, video is unchanged, and the attach fails. |
| Endpoint.AttachTouchesOnlyItsSession | examples/media-server-edge/endpoint.go:75-83 | Whatever the outcome, no other id's entry changes in either table. |
| Endpoint.DetachRemovesSession | examples/media-server-edge/endpoint.go:86-89 | Detach removes the id from both tables and keeps every other entry. |
| Endpoint.DetachIdempotent | examples/media-server-edge/endpoint.go:86-89 | Detaching twice equals detaching once. |
| Endpoint.DetachUndoesAttach | examples/media-server-edge/endpoint.go:74-89 | Detach after a successful attach restores both tables. |
| Endpoint.FanOutDeliversOneCopy | examples/media-server-edge/endpoint.go:105-110 | A fan-out keeps the subscriber set and appends exactly one copy of the packet to each sink. |
| Endpoint.FanOutWithoutSubscribers | examples/media-server-edge/endpoint.go:105-110 | With no subscribers a datagram is dropped. |
| Endpoint.DetachedSessionMissesFrame | examples/media-server-edge/endpoint.go:134-139 | A frame fanned out after a detach reaches no sink of the detached id, audio or video. |
| Endpoint.AttachedSessionGetsFrame | examples/media-server-edge/endpoint.go:105-110 | A frame fanned out after a successful attach reaches the new session's sink once. |
| Endpoint.ReceivedIsPrefix | examples/media-server-edge/endpoint.go:98-100 | A datagram that fits the 4096-byte buffer is received whole. A longer one is cut to 4096 bytes. |
| Endpoint.ReadFromUdp | examples/media-server-edge/endpoint.go:100 | Fills buf[0..n) with the datagram's first n = min(len, 4096) bytes and leaves the rest of the buffer. |
| Endpoint.CopyPrefix | examples/media-server-edge/endpoint.go:106-107 | Returns a freshly allocated array equal to buf[0..n). |
| Endpoint.Broadcast | examples/media-server-edge/endpoint.go:105-110 | Visits every subscriber once, in any order, and gives the table FanOut(subs, buf[0..n)). |
| Endpoint.EndPoint.constructor | examples/media-server-edge/endpoint.go:53-62 | A started endpoint holds the lease sockets, description and forwarder id, empty tables and three distinct 4096-byte buffers. |
| Endpoint.EndPoint.Close | examples/media-server-edge/endpoint.go:66-72 | Sends the stop request (its error is ignored), then releases key AudioPort. |
| Endpoint.EndPoint.AttachSession | examples/media-server-edge/endpoint.go:74-84 | The tables and error become exactly AttachStep of the old tables. |
| Endpoint.EndPoint.DetachSession | examples/media-server-edge/endpoint.go:86-89 | The tables become DetachStep of the old tables. |
| Endpoint.EndPoint.AudioListenerStep | examples/media-server-edge/endpoint.go:97-112 | A datagram is fanned out to the audio table, truncated to the buffer. The video table is unchanged. A failed read stops the listener and changes nothing. |
| Endpoint.EndPoint.VideoListenerStep | examples/media-server-edge/endpoint.go:114-124 | The primary video listener drains the socket and leaves both tables unchanged. |
| Endpoint.EndPoint.Video2ListenerStep | examples/media-server-edge/endpoint.go:126-141 | A datagram is fanned out to the video table. The audio table is unchanged. |
| Endpoint.CreateEndPoint | examples/media-server-edge/endpoint.go:31-64 | GET always runs. If it fails, returns "can't getting port" before any request to the origin. Otherwise sends one forward request with the derived description. On an origin error, returns it and the lease stays recorded. On success, returns a fresh endpoint with the lease's sockets and empty tables. |

## Left out

- GetIPv4: interface enumeration is I/O. The host address is a parameter of CreateEndPoint.
- tryGetConnection: real socket binding is replaced by the oracle `binds`. So is its leak of already-opened sockets when a later bind fails.
- Closing the three sockets on RELEASE, and the read failure this causes in the listeners: the model has no socket state. A failed read is an input (`ReadFailed`) of each listener step.
- Random SSRC generation (`rand.Uint32`): the three SSRCs are parameters of CreateEndPoint.
- The HTTP exchanges with the origin: each reply is a parameter, and requests are only logged.
- Goroutines, channels and `sync.Map`: each owner's operations are sequential steps on its state. The subscriber tables have no single owner. Attach and detach may run while a listener is ranging over the table, and `sync.Map.Range` may then see or miss that store or delete. The model treats each fan-out as atomic with respect to attach and detach. `DetachedSessionMissesFrame` and `AttachedSessionGetsFrame` rely on this. The listener loops are modelled one iteration at a time. `run()` only starts them, and it is not modelled.
- Blocking sends on sink channels (capacity 128): a sink is the sequence of packets handed to it. A send never blocks or drops, and sinks are values, so two sessions cannot share one channel. Sinks hold sequence values, not arrays, and this is what keeps a delivered packet from aliasing the reused read buffer. The fresh array from `CopyPrefix` is read into a sequence at once, so its freshness is not used by any other contract.
- The `default` branch's diagnostic print, and every other `fmt.Println`.
- Endpoint.DescribedPortsMatchLease: proved only when portMin >= 0. Negative portMin is not excluded by the start-up check, and there uint16 would wrap. The process-wide range starts at 45000.
- Endpoint.ReadFromUdp: a datagram longer than the buffer is truncated, as on Linux. Platform-specific read errors for oversized datagrams are not modelled.
- main.go (signalling), session.go (peer sessions, RTP rewriting), protocol.go (JSON messages) are not part of this model.
