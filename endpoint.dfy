/**
 * One relay endpoint (endpoint.go): the lease-derived media description, the
 * audio and video subscriber tables keyed by session id, attach and detach,
 * and one iteration of each UDP listener.
 *
 * A subscriber's sink (a Go channel of byte slices) is modelled by the
 * sequence of packets it has been handed, held in the subscriber table; a
 * fan-out appends one fresh copy of the datagram to every sink of the table.
 */
module Endpoint {
  import opened Wrappers
  import opened Numeric
  import opened Forwarder
  import opened PortAllocator

  const DefaultMountpointAudioPt: uint8 := 96
  const DefaultMountpointVideoPt: uint8 := 97

  /** Size of each listener's receive buffer. */
  const ReadBufferSize: nat := 4096

  /** Error text of a rejected attach. */
  const AlreadyHasSession: string := "already has session"

  type Packet = seq<byte>
  type Sink = seq<Packet>

  /** The parts of a viewer session the endpoint uses: its id and its audio
      and video sinks. */
  datatype Session = Session(id: string, audioChan: Sink, videoChan: Sink)

  /** Outcome of one blocking read on a listener's socket. */
  datatype ReadOutcome = Datagram(payload: seq<byte>) | ReadFailed

  /** The audio and video subscriber tables. */
  datatype Subscribers = Subscribers(audio: map<string, Sink>, video: map<string, Sink>)

  /** The media description CreateEndPoint derives from a lease at `base`. */
  function Describe(host: string, base: int, audioSsrc: uint32, videoSsrc: uint32, videoSsrc2: uint32): EndpointData
  {
    EndpointData(host, false, DefaultMountpointAudioPt, DefaultMountpointVideoPt,
                 ToUint16(base), ToUint16(base + 2), ToUint16(base + 4),
                 audioSsrc, videoSsrc, videoSsrc2)
  }

  /** AttachSession: load-or-store into the audio table, then into the video
      table, failing at the first table that already holds the id. */
  function AttachStep(t: Subscribers, s: Session): (Subscribers, Option<string>)
  {
    if s.id in t.audio then (t, Some(AlreadyHasSession))
    else
      var t1 := t.(audio := t.audio[s.id := s.audioChan]);
      if s.id in t.video then (t1, Some(AlreadyHasSession))
      else (t1.(video := t.video[s.id := s.videoChan]), None)
  }

  /** DetachSession: delete the id from both tables. */
  function DetachStep(t: Subscribers, id: string): Subscribers
  {
    Subscribers(t.audio - {id}, t.video - {id})
  }

  /** Every sink of `m` after packet `p` has been handed to each once. */
  function FanOut(m: map<string, Sink>, p: Packet): map<string, Sink>
  {
    map id | id in m :: m[id] + [p]
  }

  /** The bytes one read leaves in a 4096-byte buffer: a longer datagram is
      cut to the buffer's size. */
  function Received(payload: seq<byte>): Packet
  {
    payload[..Min(|payload|, ReadBufferSize)]
  }

  /** Under a well-formed allocator whose range starts at a non-negative port,
      the uint16 conversions of CreateEndPoint are exact: the described ports
      are the lease's three ports, all below portMax. */
  lemma DescribedPortsMatchLease(a: Allocator, base: int, host: string, s1: uint32, s2: uint32, s3: uint32)
    requires WellFormed(a) && 0 <= a.portMin
    requires base in a.usedPortMap
    ensures var d := Describe(host, base, s1, s2, s3);
      && d.audioPort == base && d.videoPort == base + 2 && d.videoPort2 == base + 4
      && {d.audioPort as int, d.videoPort as int, d.videoPort2 as int} == a.usedPortMap[base].Ports()
      && d.videoPort2 < a.portMax
  {
    assert Admissible(a, base);
  }

  /** Close releases key AudioPort, which is the lease base, so the endpoint's
      lease and only it leaves the allocator's map. */
  lemma CloseReleasesOwnLease(a: Allocator, base: int, host: string, s1: uint32, s2: uint32, s3: uint32)
    requires WellFormed(a) && 0 <= a.portMin
    requires base in a.usedPortMap
    ensures var a' := ReleaseStep(a, Describe(host, base, s1, s2, s3).audioPort);
      && base !in a'.usedPortMap
      && a'.usedPortMap == a.usedPortMap - {base}
      && a'.currentPort == a.currentPort
  {
    DescribedPortsMatchLease(a, base, host, s1, s2, s3);
  }

  /** An id already in the audio table is rejected and neither table changes. */
  lemma AttachRejectsKnownSession(t: Subscribers, s: Session)
    requires s.id in t.audio
    ensures AttachStep(t, s) == (t, Some(AlreadyHasSession))
  {
  }

  /** An attach succeeds exactly when the id is in neither table; then the
      audio table maps it to the audio sink and the video table to the video
      sink, and no other id changes. */
  lemma AttachSucceedsIffNew(t: Subscribers, s: Session)
    ensures AttachStep(t, s).1.None? <==> s.id !in t.audio && s.id !in t.video
    ensures AttachStep(t, s).1.None? ==>
      AttachStep(t, s).0 == Subscribers(t.audio[s.id := s.audioChan], t.video[s.id := s.videoChan])
  {
  }

  /** An id absent from the audio table but present in the video table is
      inserted into the audio table and the attach still fails: a partial attach. */
  lemma AttachLeavesPartialState(t: Subscribers, s: Session)
    requires s.id !in t.audio && s.id in t.video
    ensures AttachStep(t, s) == (Subscribers(t.audio[s.id := s.audioChan], t.video), Some(AlreadyHasSession))
  {
  }

  /** Whatever the outcome, an attach changes the tables at its own id only. */
  lemma AttachTouchesOnlyItsSession(t: Subscribers, s: Session, other: string)
    requires other != s.id
    ensures var t' := AttachStep(t, s).0;
      && (other in t'.audio <==> other in t.audio) && (other in t.audio ==> t'.audio[other] == t.audio[other])
      && (other in t'.video <==> other in t.video) && (other in t.video ==> t'.video[other] == t.video[other])
  {
  }

  /** A detach removes the id from both tables and keeps every other entry. */
  lemma DetachRemovesSession(t: Subscribers, id: string)
    ensures var t' := DetachStep(t, id);
      && t'.audio.Keys == t.audio.Keys - {id} && t'.video.Keys == t.video.Keys - {id}
      && (forall o :: o in t'.audio ==> t'.audio[o] == t.audio[o])
      && (forall o :: o in t'.video ==> t'.video[o] == t.video[o])
  {
  }

  /** DetachSession is idempotent. */
  lemma DetachIdempotent(t: Subscribers, id: string)
    ensures DetachStep(DetachStep(t, id), id) == DetachStep(t, id)
  {
  }

  /** Detaching a session that a successful attach added restores the tables. */
  lemma DetachUndoesAttach(t: Subscribers, s: Session)
    requires s.id !in t.audio && s.id !in t.video
    ensures DetachStep(AttachStep(t, s).0, s.id) == t
  {
    var t' := AttachStep(t, s).0;
    assert t'.audio - {s.id} == t.audio;
    assert t'.video - {s.id} == t.video;
  }

  /** A fan-out keeps the set of subscribers and hands each exactly one copy
      of the packet, after what it already held. */
  lemma FanOutDeliversOneCopy(m: map<string, Sink>, p: Packet)
    ensures FanOut(m, p).Keys == m.Keys
    ensures forall id :: id in m ==> FanOut(m, p)[id] == m[id] + [p]
    ensures forall id :: id in m ==> |FanOut(m, p)[id]| == |m[id]| + 1 && FanOut(m, p)[id][|m[id]|] == p
  {
  }

  /** With no subscriber a datagram is dropped. */
  lemma FanOutWithoutSubscribers(p: Packet)
    ensures FanOut(map[], p) == map[]
  {
  }

  /** A frame processed after a detach reaches no sink of the detached session. */
  lemma DetachedSessionMissesFrame(t: Subscribers, id: string, p: Packet)
    ensures id !in FanOut(DetachStep(t, id).audio, p)
    ensures id !in FanOut(DetachStep(t, id).video, p)
  {
  }

  /** A frame processed after a successful attach reaches the new session's
      sink exactly once. */
  lemma AttachedSessionGetsFrame(t: Subscribers, s: Session, p: Packet)
    requires AttachStep(t, s).1.None?
    ensures FanOut(AttachStep(t, s).0.audio, p)[s.id] == s.audioChan + [p]
    ensures FanOut(AttachStep(t, s).0.video, p)[s.id] == s.videoChan + [p]
  {
  }

  /** A datagram that fits the buffer is received whole; a longer one is cut
      to its first 4096 bytes. */
  lemma ReceivedIsPrefix(payload: seq<byte>)
    ensures |Received(payload)| <= ReadBufferSize
    ensures |payload| <= ReadBufferSize ==> Received(payload) == payload
    ensures |payload| > ReadBufferSize ==> Received(payload) == payload[..ReadBufferSize]
  {
  }

  /** ReadFromUDP into `buf`: the datagram's first bytes, up to the buffer's size. */
  method ReadFromUdp(buf: array<byte>, payload: seq<byte>) returns (n: nat)
    modifies buf
    ensures n == Min(|payload|, buf.Length)
    ensures buf[..n] == payload[..n]
    ensures buf[n..] == old(buf[n..])
  {
    n := Min(|payload|, buf.Length);
    for i := 0 to n
      invariant forall j :: 0 <= j < i ==> buf[j] == payload[j]
      invariant forall j :: i <= j < buf.Length ==> buf[j] == old(buf[j])
    {
      buf[i] := payload[i];
    }
  }

  /** A freshly allocated array holding buf[0..n): the copy handed to each subscriber. */
  method CopyPrefix(buf: array<byte>, n: nat) returns (data: array<byte>)
    requires n <= buf.Length
    ensures fresh(data)
    ensures data[..] == buf[..n]
  {
    data := new byte[n];
    for i := 0 to n
      invariant forall j :: 0 <= j < i ==> data[j] == buf[j]
    {
      data[i] := buf[i];
    }
  }

  /** The Range over one subscriber table: visit every id once, in no fixed
      order, and hand its sink a fresh copy of buf[0..n). */
  method Broadcast(subs: map<string, Sink>, buf: array<byte>, n: nat) returns (delivered: map<string, Sink>)
    requires n <= buf.Length
    ensures delivered == FanOut(subs, buf[..n])
  {
    delivered := subs;
    var pending := subs.Keys;
    while pending != {}
      invariant pending <= subs.Keys
      invariant delivered.Keys == subs.Keys
      invariant forall id :: id in subs ==> delivered[id] == if id in pending then subs[id] else subs[id] + [buf[..n]]
      decreases |pending|
    {
      var id :| id in pending;
      var data := CopyPrefix(buf, n);
      delivered := delivered[id := delivered[id] + [data[..]]];
      pending := pending - {id};
    }
  }

  class EndPoint {
    const id: string
    const forwarderId: string
    const originAddr: string
    const videoUdpConn: UdpConn
    const video2UdpConn: UdpConn
    const audioUdpConn: UdpConn
    var videoChannelMap: map<string, Sink>
    /** Declared by the source and never written. */
    var video2ChannelMap: map<string, Sink>
    var audioChannelMap: map<string, Sink>
    const endpointData: EndpointData
    /** The receive buffers of the audio, video and video2 listeners. */
    const audioBuffer: array<byte>
    const videoBuffer: array<byte>
    const video2Buffer: array<byte>

    ghost predicate Valid()
      reads this
    {
      && audioBuffer.Length == ReadBufferSize
      && videoBuffer.Length == ReadBufferSize
      && video2Buffer.Length == ReadBufferSize
      && audioBuffer != videoBuffer && audioBuffer != video2Buffer && videoBuffer != video2Buffer
      && video2ChannelMap == map[]
    }

    /** Both subscriber tables. */
    function Tables(): Subscribers
      reads this
    {
      Subscribers(audioChannelMap, videoChannelMap)
    }

    /** A started endpoint: lease sockets, description, forwarder id, empty tables. */
    constructor (id: string, forwarderId: string, originAddr: string, data: EndpointData, conns: Connections)
      ensures Valid()
      ensures this.id == id && this.forwarderId == forwarderId && this.originAddr == originAddr
      ensures endpointData == data
      ensures audioUdpConn == conns.audioUdpConn && videoUdpConn == conns.videoUdpConn && video2UdpConn == conns.video2UdpConn
      ensures Tables() == Subscribers(map[], map[])
      ensures fresh(audioBuffer) && fresh(videoBuffer) && fresh(video2Buffer)
    {
      this.id := id;
      this.forwarderId := forwarderId;
      this.originAddr := originAddr;
      this.endpointData := data;
      this.audioUdpConn := conns.audioUdpConn;
      this.videoUdpConn := conns.videoUdpConn;
      this.video2UdpConn := conns.video2UdpConn;
      this.audioChannelMap := map[];
      this.videoChannelMap := map[];
      this.video2ChannelMap := map[];
      this.audioBuffer := new byte[ReadBufferSize];
      this.videoBuffer := new byte[ReadBufferSize];
      this.video2Buffer := new byte[ReadBufferSize];
    }

    /** Tell the origin to stop forwarding (its error is only printed), then
        release the lease keyed by AudioPort. */
    method Close(gen: Generator, client: Client, stopReply: Option<string>)
      requires gen.Valid()
      modifies gen, client
      ensures gen.Valid()
      ensures client.calls == old(client.calls) + [StopForward(originAddr, id, forwarderId)]
      ensures gen.State() == ReleaseStep(old(gen.State()), endpointData.audioPort)
    {
      var err := client.RequestStopForward(originAddr, id, forwarderId, stopReply);
      ReleaseConnections(gen, endpointData.audioPort);
    }

    method AttachSession(s: Session) returns (err: Option<string>)
      modifies this`audioChannelMap, this`videoChannelMap
      ensures (Tables(), err) == AttachStep(old(Tables()), s)
    {
      if s.id in audioChannelMap {
        return Some(AlreadyHasSession);
      }
      audioChannelMap := audioChannelMap[s.id := s.audioChan];
      if s.id in videoChannelMap {
        return Some(AlreadyHasSession);
      }
      videoChannelMap := videoChannelMap[s.id := s.videoChan];
      return None;
    }

    method DetachSession(id: string)
      modifies this`audioChannelMap, this`videoChannelMap
      ensures Tables() == DetachStep(old(Tables()), id)
    {
      audioChannelMap := audioChannelMap - {id};
      videoChannelMap := videoChannelMap - {id};
    }

    /** One iteration of the audio listener: read a datagram and fan it out to
        the audio table; a failed read ends the listener. */
    method AudioListenerStep(read: ReadOutcome) returns (running: bool)
      requires Valid()
      modifies this`audioChannelMap, audioBuffer
      ensures Valid()
      ensures running <==> read.Datagram?
      ensures audioChannelMap == if read.Datagram? then FanOut(old(audioChannelMap), Received(read.payload)) else old(audioChannelMap)
      ensures videoChannelMap == old(videoChannelMap)
    {
      if read.ReadFailed? {
        return false;
      }
      var n := ReadFromUdp(audioBuffer, read.payload);
      audioChannelMap := Broadcast(audioChannelMap, audioBuffer, n);
      return true;
    }

    /** One iteration of the primary video listener: it drains the socket and
        forwards nothing. */
    method VideoListenerStep(read: ReadOutcome) returns (running: bool)
      requires Valid()
      modifies videoBuffer
      ensures running <==> read.Datagram?
      ensures Tables() == old(Tables())
    {
      if read.ReadFailed? {
        return false;
      }
      var _ := ReadFromUdp(videoBuffer, read.payload);
      return true;
    }

    /** One iteration of the secondary video listener: read a datagram and fan
        it out to the video table. */
    method Video2ListenerStep(read: ReadOutcome) returns (running: bool)
      requires Valid()
      modifies this`videoChannelMap, video2Buffer
      ensures Valid()
      ensures running <==> read.Datagram?
      ensures videoChannelMap == if read.Datagram? then FanOut(old(videoChannelMap), Received(read.payload)) else old(videoChannelMap)
      ensures audioChannelMap == old(audioChannelMap)
    {
      if read.ReadFailed? {
        return false;
      }
      var n := ReadFromUdp(video2Buffer, read.payload);
      videoChannelMap := Broadcast(videoChannelMap, video2Buffer, n);
      return true;
    }
  }

  /** CreateEndPoint: take a lease, describe it, ask the origin to forward to it
      and start the endpoint. `binds` is the bind oracle, `host` the local
      address, the ssrcs the random identifiers and `forwardReply` the origin's
      answer. On an origin error the lease is not released. */
  method CreateEndPoint(gen: Generator, client: Client, addr: string, streamId: string, binds: int -> bool,
                        host: string, audioSsrc: uint32, videoSsrc: uint32, videoSsrc2: uint32,
                        forwardReply: Result<string, string>)
    returns (r: Result<EndPoint, string>)
    requires gen.Valid()
    modifies gen, client
    ensures gen.Valid()
    ensures gen.State() == GetStep(old(gen.State()), binds).0
    ensures GetStep(old(gen.State()), binds).1.None? ==>
      r == Failure(CantGettingPort) && client.calls == old(client.calls)
    ensures GetStep(old(gen.State()), binds).1.Some? ==>
      var conns := GetStep(old(gen.State()), binds).1.value;
      && conns.port in gen.usedPortMap && conns.port !in old(gen.usedPortMap)
      && client.calls == old(client.calls) + [Forward(addr, streamId, Describe(host, conns.port, audioSsrc, videoSsrc, videoSsrc2))]
      && (forwardReply.Failure? ==> r == Failure(forwardReply.error))
      && (forwardReply.Success? ==>
            && r.Success? && fresh(r.value) && r.value.Valid()
            && r.value.id == streamId && r.value.originAddr == addr && r.value.forwarderId == forwardReply.value
            && r.value.endpointData == Describe(host, conns.port, audioSsrc, videoSsrc, videoSsrc2)
            && r.value.audioUdpConn == conns.audioUdpConn && r.value.videoUdpConn == conns.videoUdpConn
            && r.value.video2UdpConn == conns.video2UdpConn
            && r.value.Tables() == Subscribers(map[], map[]))
  {
    ghost var before := gen.State();
    if GetStep(before, binds).1.Some? {
      GetGrantsFreshLease(before, binds);
    }
    var got := GetConnections(gen, binds);
    if got.Failure? {
      return Failure(got.error);
    }
    var conns := got.value;
    var epData := Describe(host, conns.port, audioSsrc, videoSsrc, videoSsrc2);
    var forwarded := client.RequestForward(addr, streamId, epData, forwardReply);
    if forwarded.Failure? {
      return Failure(forwarded.error);
    }
    var ep := new EndPoint(streamId, forwarded.value, addr, epData, conns);
    return Success(ep);
  }

}
