/**
 * The port-triplet allocator of the edge relay (util.go).
 *
 * A single owner process holds a lease map `usedPortMap: base -> Connections`
 * and a cursor `currentPort`. A GET request scans forward from the cursor in
 * steps of 6 for a base that is not leased and whose three sockets
 * (base, base+2, base+4) bind; a RELEASE request drops a lease. Binding a
 * socket is an oracle `binds: int -> bool` saying whether all three sockets
 * of a base could be opened at the moment of the request.
 *
 * The pure part (datatype `Allocator`, GetStep, ReleaseStep, ServeStep,
 * RunSteps) specifies the owner loop; the class `Generator` is the owner's
 * state updated in place, and its methods are proved equal to the pure steps.
 */
module PortAllocator {
  import opened Wrappers

  /** Request kinds accepted by the owner loop. */
  const GET: int := 0
  const RELEASE: int := 1

  /** The range the process-wide allocator is created with. */
  const DefaultPortMin: int := 45000
  const DefaultPortMax: int := 50000

  /** Error text GetConnections reports when the scan finds nothing. */
  const CantGettingPort: string := "can't getting port"

  /** A bound UDP socket, identified by the local port it listens on. */
  datatype UdpConn = UdpConn(localPort: int)

  /** One lease: the base port and the audio, video and video2 sockets. */
  datatype Connections = Connections(port: int, audioUdpConn: UdpConn, videoUdpConn: UdpConn, video2UdpConn: UdpConn)
  {
    /** The three ports the lease occupies. */
    function Ports(): set<int>
    {
      {audioUdpConn.localPort, videoUdpConn.localPort, video2UdpConn.localPort}
    }
  }

  /** The lease recorded when tryGetConnection opens all three sockets at `base`. */
  function Bound(base: int): Connections
  {
    Connections(base, UdpConn(base), UdpConn(base + 2), UdpConn(base + 4))
  }

  /** The allocator refuses to start (it panics) unless this holds. */
  predicate RangeOk(portMin: int, portMax: int)
  {
    !(portMin >= portMax - 6 || portMax >= 65535)
  }

  /** A request sent to the owner loop: its kind and, for RELEASE, the base. */
  datatype Request = Request(kind: int, port: int)

  /** What the owner sends back: GET answers on its reply channel with a
      lease or nil; RELEASE and unknown kinds send nothing. */
  datatype Reply = Conns(conns: Option<Connections>) | NoReply

  /** The owner's state: the range, the lease map and the scan cursor. */
  datatype Allocator = Allocator(portMin: int, portMax: int, usedPortMap: map<int, Connections>, currentPort: int)

  /** `b` is one of the bases the cursor can reach: portMin plus a multiple of 6. */
  predicate OnGrid(a: Allocator, b: int)
  {
    a.portMin <= b && (b - a.portMin) % 6 == 0
  }

  /** `b` is a base the scan may lease (the scan's guard is `b < portMax-6`). */
  predicate Admissible(a: Allocator, b: int)
  {
    OnGrid(a, b) && b < a.portMax - 6
  }

  /** Every lease sits at an admissible base and holds the sockets of that base. */
  predicate LeasesOk(a: Allocator)
  {
    forall b :: b in a.usedPortMap ==> Admissible(a, b) && a.usedPortMap[b] == Bound(b)
  }

  /** The invariant that holds between requests. */
  predicate WellFormed(a: Allocator)
  {
    RangeOk(a.portMin, a.portMax) && Admissible(a, a.currentPort) && LeasesOk(a)
  }

  /** The invariant that holds inside the GET scan, where the cursor may have
      stepped past the last admissible base. */
  predicate Scanning(a: Allocator)
  {
    RangeOk(a.portMin, a.portMax) && OnGrid(a, a.currentPort) && a.currentPort < a.portMax && LeasesOk(a)
  }

  /** The state the owner loop starts in. */
  function Start(portMin: int, portMax: int): Allocator
  {
    Allocator(portMin, portMax, map[], portMin)
  }

  /** One GET: the scan loop of the owner, returning the new state and the
      lease (None for the nil reply). */
  function GetStep(a: Allocator, binds: int -> bool): (Allocator, Option<Connections>)
    decreases a.portMax - a.currentPort
  {
    var c := a.currentPort;
    if c !in a.usedPortMap && c < a.portMax - 6 then
      if !binds(c) then GetStep(a.(currentPort := c + 6), binds)
      else (a.(usedPortMap := a.usedPortMap[c := Bound(c)]), Some(Bound(c)))
    else if c < a.portMax - 6 then GetStep(a.(currentPort := c + 6), binds)
    else (a.(currentPort := a.portMin), None)
  }

  /** One RELEASE: drop the lease at `port` if there is one. */
  function ReleaseStep(a: Allocator, port: int): Allocator
  {
    if port in a.usedPortMap then a.(usedPortMap := a.usedPortMap - {port}) else a
  }

  /** One request of any kind, as the owner's switch handles it. */
  function ServeStep(a: Allocator, req: Request, binds: int -> bool): (Allocator, Reply)
  {
    if req.kind == GET then
      var (a', conns) := GetStep(a, binds);
      (a', Conns(conns))
    else if req.kind == RELEASE then
      (ReleaseStep(a, req.port), NoReply)
    else
      (a, NoReply)
  }

  /** A sequence of requests, the i-th served against bind oracle binds[i]. */
  function RunSteps(a: Allocator, reqs: seq<Request>, binds: seq<int -> bool>): (Allocator, seq<Reply>)
    requires |binds| == |reqs|
    decreases |reqs|
  {
    if reqs == [] then (a, [])
    else
      var (a1, r1) := ServeStep(a, reqs[0], binds[0]);
      var (a2, rs) := RunSteps(a1, reqs[1..], binds[1..]);
      (a2, [r1] + rs)
  }

  /** A grant of `conns` by the scan from `a` to `a'`: a base that was free,
      binds, is admissible and not below the cursor, recorded as the only new
      lease, with the cursor left on it. */
  ghost predicate Granted(a: Allocator, a': Allocator, conns: Connections, binds: int -> bool)
  {
    var b := conns.port;
    && conns == Bound(b)
    && b !in a.usedPortMap
    && binds(b)
    && Admissible(a, b)
    && a.currentPort <= b
    && a'.currentPort == b
    && a'.usedPortMap == a.usedPortMap[b := conns]
  }

  /** Everything the scan decides, by induction on the distance to portMax:
      the range is kept, the result is well formed, a grant is a fresh lease,
      a refusal keeps the map and resets the cursor, and every base the scan
      passed over was leased or failed to bind. */
  lemma {:induction false} ScanOutcome(a: Allocator, binds: int -> bool)
    requires Scanning(a)
    ensures var (a', conns) := GetStep(a, binds);
      && a'.portMin == a.portMin && a'.portMax == a.portMax
      && WellFormed(a')
      && (conns.Some? ==> Granted(a, a', conns.value, binds))
      && (conns.None? ==> a'.usedPortMap == a.usedPortMap && a'.currentPort == a.portMin)
      && forall b :: OnGrid(a, b) && a.currentPort <= b < (if conns.Some? then conns.value.port else a.portMax - 6) ==>
           b in a.usedPortMap || !binds(b)
    decreases a.portMax - a.currentPort
  {
    var c := a.currentPort;
    if c < a.portMax - 6 && (c in a.usedPortMap || !binds(c)) {
      var next := a.(currentPort := c + 6);
      assert OnGrid(next, c + 6);
      ScanOutcome(next, binds);
      forall b | OnGrid(a, b) && c <= b < c + 6
        ensures b == c
      {
        assert (b - c) % 6 == 0;
      }
    }
  }

  /** A GET from a well-formed state leaves a well-formed state over the same range. */
  lemma GetPreservesWellFormed(a: Allocator, binds: int -> bool)
    requires WellFormed(a)
    ensures WellFormed(GetStep(a, binds).0)
    ensures GetStep(a, binds).0.portMin == a.portMin && GetStep(a, binds).0.portMax == a.portMax
  {
    ScanOutcome(a, binds);
  }

  /** A successful GET returns a base that was not leased, that binds and lies
      in range on the grid, adds exactly that key and changes no other entry. */
  lemma GetGrantsFreshLease(a: Allocator, binds: int -> bool)
    requires WellFormed(a)
    requires GetStep(a, binds).1.Some?
    ensures var (a', conns) := GetStep(a, binds);
      && conns.value == Bound(conns.value.port)
      && conns.value.port !in a.usedPortMap
      && binds(conns.value.port)
      && Admissible(a, conns.value.port)
      && a'.currentPort == conns.value.port
      && a'.usedPortMap.Keys == a.usedPortMap.Keys + {conns.value.port}
      && forall b :: b in a.usedPortMap ==> a'.usedPortMap[b] == a.usedPortMap[b]
  {
    ScanOutcome(a, binds);
  }

  /** A base whose bind fails is never recorded by a GET. */
  lemma GetSkipsUnbindable(a: Allocator, binds: int -> bool, b: int)
    requires WellFormed(a)
    requires b !in a.usedPortMap && !binds(b)
    ensures b !in GetStep(a, binds).0.usedPortMap
  {
    ScanOutcome(a, binds);
  }

  /** A GET returns the first free, bindable base at or above the cursor:
      every grid base between the cursor and the grant was leased or failed. */
  lemma GetIsFirstFit(a: Allocator, binds: int -> bool, b: int)
    requires WellFormed(a)
    requires GetStep(a, binds).1.Some?
    requires OnGrid(a, b) && a.currentPort <= b < GetStep(a, binds).1.value.port
    ensures b in a.usedPortMap || !binds(b)
  {
    ScanOutcome(a, binds);
  }

  /** A GET is refused exactly when every admissible base at or above the
      cursor is leased or fails to bind (bases below the cursor are not looked at). */
  lemma GetRefusedIffExhausted(a: Allocator, binds: int -> bool)
    requires WellFormed(a)
    ensures GetStep(a, binds).1.None? <==>
      forall b :: Admissible(a, b) && a.currentPort <= b ==> b in a.usedPortMap || !binds(b)
  {
    ScanOutcome(a, binds);
  }

  /** A refused GET leaves the map as it was and moves the cursor back to portMin. */
  lemma GetRefusalResetsCursor(a: Allocator, binds: int -> bool)
    requires WellFormed(a)
    requires GetStep(a, binds).1.None?
    ensures GetStep(a, binds).0 == a.(currentPort := a.portMin)
  {
    ScanOutcome(a, binds);
  }

  /** A free, bindable base at or above the cursor is found by the next GET
      (it or a lower base is granted). */
  lemma GetReachesFreeBase(a: Allocator, binds: int -> bool, x: int)
    requires WellFormed(a)
    requires Admissible(a, x) && x !in a.usedPortMap && binds(x) && a.currentPort <= x
    ensures GetStep(a, binds).1.Some? && GetStep(a, binds).1.value.port <= x
  {
    ScanOutcome(a, binds);
  }

  /** The state after `k` GETs in a row against the same bind oracle. */
  function GetN(a: Allocator, binds: int -> bool, k: nat): Allocator
    decreases k
  {
    if k == 0 then a else GetN(GetStep(a, binds).0, binds, k - 1)
  }

  /** Two distinct bases on the grid are at least 6 apart. */
  lemma GridGap(a: Allocator, b: int, c: int)
    requires OnGrid(a, b) && OnGrid(a, c) && c < b
    ensures c + 6 <= b
  {
    var qb := (b - a.portMin) / 6;
    var qc := (c - a.portMin) / 6;
    assert b == a.portMin + 6 * qb;
    assert c == a.portMin + 6 * qc;
  }

  /** GETs only add leases, and keep the state well formed over the same range. */
  lemma {:induction false} GetNKeepsLeases(a: Allocator, binds: int -> bool, k: nat)
    requires WellFormed(a)
    ensures WellFormed(GetN(a, binds, k))
    ensures GetN(a, binds, k).portMin == a.portMin && GetN(a, binds, k).portMax == a.portMax
    ensures a.usedPortMap.Keys <= GetN(a, binds, k).usedPortMap.Keys
    decreases k
  {
    if k > 0 {
      ScanOutcome(a, binds);
      GetNKeepsLeases(GetStep(a, binds).0, binds, k - 1);
    }
  }

  /** With the cursor at or below a free bindable base `x`, every GET grants a
      base no higher than `x` and above the previous grant, so `x` is leased
      after enough GETs; a cursor left on a lease counts 6 ports closer. */
  lemma {:induction false} ReachFromBelow(a: Allocator, binds: int -> bool, x: int, k: nat)
    requires WellFormed(a)
    requires Admissible(a, x) && x !in a.usedPortMap && binds(x) && a.currentPort <= x
    requires 6 * k >= x - a.currentPort + (if a.currentPort in a.usedPortMap then 0 else 6)
    ensures x in GetN(a, binds, k).usedPortMap
    decreases k
  {
    var c := a.currentPort;
    if c in a.usedPortMap { GridGap(a, x, c); }
    ScanOutcome(a, binds);
    GetReachesFreeBase(a, binds, x);
    var (a1, conns) := GetStep(a, binds);
    var b := conns.value.port;
    if b == x {
      GetNKeepsLeases(a1, binds, k - 1);
    } else {
      if c in a.usedPortMap { GridGap(a, b, c); }
      ReachFromBelow(a1, binds, x, k - 1);
    }
  }

  /** With the cursor above a free bindable base `x`, the GETs grant bases
      above the cursor until one is refused, which puts the cursor back at
      portMin; from there `ReachFromBelow` applies. */
  lemma {:induction false} ReachFromAbove(a: Allocator, binds: int -> bool, x: int, k: nat)
    requires WellFormed(a)
    requires Admissible(a, x) && x !in a.usedPortMap && binds(x) && x < a.currentPort
    requires 6 * k >= a.portMax - a.currentPort + (if a.currentPort in a.usedPortMap then 0 else 6) + x - a.portMin + 12
    ensures x in GetN(a, binds, k).usedPortMap
    decreases k
  {
    var c := a.currentPort;
    ScanOutcome(a, binds);
    var (a1, conns) := GetStep(a, binds);
    if conns.None? {
      ReachFromBelow(a1, binds, x, k - 1);
    } else {
      var b := conns.value.port;
      if c in a.usedPortMap { GridGap(a, b, c); }
      ReachFromAbove(a1, binds, x, k - 1);
    }
  }

  /** No permanent leak: with the leases otherwise unchanged, a free base that
      binds is leased again after any k GETs with 6k >= portMax - portMin + 18,
      wherever the cursor stands; a refusal puts the cursor back at portMin. */
  lemma FreeBaseLeasedAgain(a: Allocator, binds: int -> bool, x: int, k: nat)
    requires WellFormed(a)
    requires Admissible(a, x) && x !in a.usedPortMap && binds(x)
    requires 6 * k >= a.portMax - a.portMin + 18
    ensures x in GetN(a, binds, k).usedPortMap
  {
    if a.currentPort <= x {
      ReachFromBelow(a, binds, x, k);
    } else {
      ReachFromAbove(a, binds, x, k);
    }
  }

  /** A RELEASE removes exactly the key `port` and keeps the cursor and range. */
  lemma ReleaseRemovesExactly(a: Allocator, port: int)
    ensures var a' := ReleaseStep(a, port);
      && a'.usedPortMap.Keys == a.usedPortMap.Keys - {port}
      && (forall b :: b in a'.usedPortMap ==> a'.usedPortMap[b] == a.usedPortMap[b])
      && a'.currentPort == a.currentPort && a'.portMin == a.portMin && a'.portMax == a.portMax
  {
  }

  /** Releasing a base with no lease is a no-op. */
  lemma ReleaseUnknownIsNoop(a: Allocator, port: int)
    requires port !in a.usedPortMap
    ensures ReleaseStep(a, port) == a
  {
  }

  /** RELEASE is idempotent. */
  lemma ReleaseIdempotent(a: Allocator, port: int)
    ensures ReleaseStep(ReleaseStep(a, port), port) == ReleaseStep(a, port)
  {
  }

  /** A RELEASE keeps the state well formed. */
  lemma ReleasePreservesWellFormed(a: Allocator, port: int)
    requires WellFormed(a)
    ensures WellFormed(ReleaseStep(a, port))
  {
  }

  /** Any request keeps the state well formed over the same range. */
  lemma ServePreservesWellFormed(a: Allocator, req: Request, binds: int -> bool)
    requires WellFormed(a)
    ensures WellFormed(ServeStep(a, req, binds).0)
    ensures ServeStep(a, req, binds).0.portMin == a.portMin && ServeStep(a, req, binds).0.portMax == a.portMax
  {
    if req.kind == GET {
      GetPreservesWellFormed(a, binds);
    }
  }

  /** Any sequence of requests keeps the state well formed over the same range. */
  lemma {:induction false} RunPreservesWellFormed(a: Allocator, reqs: seq<Request>, binds: seq<int -> bool>)
    requires WellFormed(a) && |binds| == |reqs|
    ensures WellFormed(RunSteps(a, reqs, binds).0)
    ensures RunSteps(a, reqs, binds).0.portMin == a.portMin && RunSteps(a, reqs, binds).0.portMax == a.portMax
    decreases |reqs|
  {
    if reqs != [] {
      ServePreservesWellFormed(a, reqs[0], binds[0]);
      RunPreservesWellFormed(ServeStep(a, reqs[0], binds[0]).0, reqs[1..], binds[1..]);
    }
  }

  /** The owner starts well formed whenever it does not panic. */
  lemma StartWellFormed(portMin: int, portMax: int)
    requires RangeOk(portMin, portMax)
    ensures WellFormed(Start(portMin, portMax)) && Start(portMin, portMax).usedPortMap == map[]
  {
  }

  /** The default range passes the start-up check. */
  lemma DefaultRangeOk()
    ensures RangeOk(DefaultPortMin, DefaultPortMax)
  {
  }

  /** The triplets of two distinct leases share no port. */
  lemma LeasesDisjoint(a: Allocator, b1: int, b2: int)
    requires LeasesOk(a)
    requires b1 in a.usedPortMap && b2 in a.usedPortMap && b1 != b2
    ensures a.usedPortMap[b1].Ports() !! a.usedPortMap[b2].Ports()
  {
    assert Admissible(a, b1) && Admissible(a, b2);
    var q1, q2 := (b1 - a.portMin) / 6, (b2 - a.portMin) / 6;
    assert b1 == a.portMin + 6 * q1 && b2 == a.portMin + 6 * q2;
    assert q1 != q2;
    if q1 < q2 {
      assert b1 + 6 <= b2;
    } else {
      assert b2 + 6 <= b1;
    }
  }

  /** Every port of every lease lies in [portMin, portMax - 2). */
  lemma LeasePortsInRange(a: Allocator, b: int, p: int)
    requires LeasesOk(a)
    requires b in a.usedPortMap && p in a.usedPortMap[b].Ports()
    ensures a.portMin <= p < a.portMax - 2
  {
  }

  /** After any sequence of requests from the start state, no two leases share
      a port and every leased port lies in [portMin, portMax). */
  lemma ReachableLeasesDisjoint(portMin: int, portMax: int, reqs: seq<Request>, binds: seq<int -> bool>, b1: int, b2: int)
    requires RangeOk(portMin, portMax) && |binds| == |reqs|
    requires var m := RunSteps(Start(portMin, portMax), reqs, binds).0.usedPortMap;
      b1 in m && b2 in m && b1 != b2
    ensures var m := RunSteps(Start(portMin, portMax), reqs, binds).0.usedPortMap;
      && m[b1].Ports() !! m[b2].Ports()
      && forall p :: p in m[b1].Ports() ==> portMin <= p < portMax
  {
    RunPreservesWellFormed(Start(portMin, portMax), reqs, binds);
    var a := RunSteps(Start(portMin, portMax), reqs, binds).0;
    LeasesDisjoint(a, b1, b2);
  }

  /** After any sequence of requests from the start state, every port of every
      lease lies in [portMin, portMax). */
  lemma ReachableLeasePortsInRange(portMin: int, portMax: int, reqs: seq<Request>, binds: seq<int -> bool>, b: int, p: int)
    requires RangeOk(portMin, portMax) && |binds| == |reqs|
    requires var m := RunSteps(Start(portMin, portMax), reqs, binds).0.usedPortMap;
      b in m && p in m[b].Ports()
    ensures portMin <= p < portMax
  {
    RunPreservesWellFormed(Start(portMin, portMax), reqs, binds);
    var a := RunSteps(Start(portMin, portMax), reqs, binds).0;
    LeasePortsInRange(a, b, p);
  }

  /** Oracle under which every bind succeeds. */
  function AllBind(port: int): bool
  {
    true
  }

  /** With portMin = 45000 and portMax = 45012, the first GET leases base 45000
      and the second is refused: 45006 fails the guard `45006 < portMax - 6`. */
  lemma TwelvePortRangeHoldsOneLease()
    ensures var (a1, c1) := GetStep(Start(45000, 45012), AllBind);
      && c1 == Some(Bound(45000))
      && GetStep(a1, AllBind).1 == None
  {
    var a0 := Start(45000, 45012);
    var a1 := a0.(usedPortMap := map[45000 := Bound(45000)]);
    assert GetStep(a0, AllBind) == (a1, Some(Bound(45000)));
    var a2 := a1.(currentPort := 45006);
    assert GetStep(a1, AllBind) == GetStep(a2, AllBind);
    assert GetStep(a2, AllBind).1 == None;
  }

  /** The scan does not wrap around: with the cursor on the last admissible
      base, which is leased, a GET is refused although base 45000 is free and
      binds; the refusal resets the cursor, so the next GET leases 45000. */
  lemma ScanDoesNotWrap()
    ensures var a := Allocator(45000, 45024, map[45012 := Bound(45012)], 45012);
      && WellFormed(a)
      && 45000 !in a.usedPortMap && AllBind(45000)
      && GetStep(a, AllBind).1 == None
      && GetStep(GetStep(a, AllBind).0, AllBind).1 == Some(Bound(45000))
  {
    var a := Allocator(45000, 45024, map[45012 := Bound(45012)], 45012);
    var past := a.(currentPort := 45018);
    assert GetStep(a, AllBind) == GetStep(past, AllBind);
    assert GetStep(past, AllBind) == (a.(currentPort := 45000), None);
    var reset := a.(currentPort := 45000);
    assert GetStep(reset, AllBind).1 == Some(Bound(45000));
  }

  /** Two GETs may pass over a free block: from the start state of range
      45000..45024, with every bind succeeding, the first two GETs lease 45000
      and 45006, and 45012 is still free. The third GET leases it. */
  lemma TwoGetsCanMissFreeBase()
    ensures var a := Start(45000, 45024);
      && WellFormed(a) && Admissible(a, 45012)
      && 45012 !in GetN(a, AllBind, 2).usedPortMap
      && 45012 in GetN(a, AllBind, 3).usedPortMap
  {
    var a := Start(45000, 45024);
    var a1 := a.(usedPortMap := map[45000 := Bound(45000)]);
    assert GetStep(a, AllBind).0 == a1;
    var a2 := Allocator(45000, 45024, map[45000 := Bound(45000), 45006 := Bound(45006)], 45006);
    assert GetStep(a1.(currentPort := 45006), AllBind).0 == a2;
    assert GetStep(a1, AllBind).0 == a2;
    var a3 := Allocator(45000, 45024, a2.usedPortMap[45012 := Bound(45012)], 45012);
    assert GetStep(a2.(currentPort := 45012), AllBind).0 == a3;
    assert GetStep(a2, AllBind).0 == a3;
    assert GetN(a, AllBind, 2) == GetN(a2, AllBind, 0);
    assert GetN(a, AllBind, 3) == GetN(a3, AllBind, 0);
  }

  /**
   * The allocator's owner: the lease map and cursor, updated in place.
   */
  class Generator {
    var usedPortMap: map<int, Connections>
    const portMin: int
    const portMax: int
    var currentPort: int

    /** The abstract state. */
    function State(): Allocator
      reads this
    {
      Allocator(portMin, portMax, usedPortMap, currentPort)
    }

    ghost predicate Valid()
      reads this
    {
      WellFormed(State())
    }

    /** Create the owner with an empty map and the cursor at portMin; the
        source panics when the range check fails. */
    constructor (portMin: int, portMax: int)
      requires RangeOk(portMin, portMax)
      ensures Valid()
      ensures State() == Start(portMin, portMax)
    {
      this.usedPortMap := map[];
      this.portMin := portMin;
      this.portMax := portMax;
      this.currentPort := portMin;
    }

    /** The GET branch: scan from the cursor for a free base that binds. */
    method Get(binds: int -> bool) returns (conns: Option<Connections>)
      requires Valid()
      modifies this
      ensures Valid()
      ensures (State(), conns) == GetStep(old(State()), binds)
    {
      ghost var start := State();
      ScanOutcome(start, binds);
      conns := None;
      while true
        invariant Scanning(State())
        invariant GetStep(State(), binds) == GetStep(start, binds)
        decreases portMax - currentPort
      {
        if currentPort !in usedPortMap && currentPort < portMax - 6 {
          if !binds(currentPort) {
            currentPort := currentPort + 6;
          } else {
            conns := Some(Bound(currentPort));
            usedPortMap := usedPortMap[currentPort := conns.value];
            break;
          }
        } else if currentPort < portMax - 6 {
          currentPort := currentPort + 6;
        } else {
          currentPort := portMin;
          conns := None;
          break;
        }
      }
    }

    /** The RELEASE branch: drop the lease at `port` if there is one. */
    method Release(port: int)
      requires Valid()
      modifies this
      ensures Valid()
      ensures State() == ReleaseStep(old(State()), port)
    {
      if port in usedPortMap {
        usedPortMap := usedPortMap - {port};
      }
    }

    /** One turn of the owner loop: dispatch on the request kind. */
    method Serve(req: Request, binds: int -> bool) returns (reply: Reply)
      requires Valid()
      modifies this
      ensures Valid()
      ensures (State(), reply) == ServeStep(old(State()), req, binds)
    {
      if req.kind == GET {
        var conns := Get(binds);
        reply := Conns(conns);
      } else if req.kind == RELEASE {
        Release(req.port);
        reply := NoReply;
      } else {
        reply := NoReply;
      }
    }

    /** The owner loop over the requests that arrive on its channel. */
    method Run(reqs: seq<Request>, binds: seq<int -> bool>) returns (replies: seq<Reply>)
      requires Valid() && |binds| == |reqs|
      modifies this
      ensures Valid()
      ensures (State(), replies) == RunSteps(old(State()), reqs, binds)
    {
      ghost var start := State();
      replies := [];
      var i := 0;
      assert reqs[i..] == reqs && binds[i..] == binds;
      assert RunSteps(start, reqs, binds).1 == replies + RunSteps(start, reqs, binds).1;
      while i < |reqs|
        invariant 0 <= i <= |reqs|
        invariant Valid()
        invariant RunSteps(start, reqs, binds) == (var t := RunSteps(State(), reqs[i..], binds[i..]); (t.0, replies + t.1))
      {
        ghost var before := State();
        assert reqs[i..][1..] == reqs[i + 1..] && binds[i..][1..] == binds[i + 1..];
        var reply := Serve(reqs[i], binds[i]);
        ghost var rest := RunSteps(State(), reqs[i + 1..], binds[i + 1..]);
        assert RunSteps(before, reqs[i..], binds[i..]) == (rest.0, [reply] + rest.1);
        assert replies + ([reply] + rest.1) == (replies + [reply]) + rest.1;
        replies := replies + [reply];
        i := i + 1;
      }
      assert reqs[i..] == [] && binds[i..] == [];
      assert replies + [] == replies;
    }
  }

  /** Ask the owner for a lease; a nil reply becomes an error. */
  method GetConnections(gen: Generator, binds: int -> bool) returns (r: Result<Connections, string>)
    requires gen.Valid()
    modifies gen
    ensures gen.Valid()
    ensures gen.State() == GetStep(old(gen.State()), binds).0
    ensures r == match GetStep(old(gen.State()), binds).1
                 case Some(c) => Success(c)
                 case None => Failure(CantGettingPort)
  {
    var conns := gen.Get(binds);
    if conns.None? {
      return Failure(CantGettingPort);
    }
    return Success(conns.value);
  }

  /** Ask the owner to release the lease at `port`. */
  method ReleaseConnections(gen: Generator, port: int)
    requires gen.Valid()
    modifies gen
    ensures gen.Valid()
    ensures gen.State() == ReleaseStep(old(gen.State()), port)
  {
    gen.Release(port);
  }
}
