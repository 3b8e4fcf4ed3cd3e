/** Two servers dial each other at the same time, in the middle of whatever else they are doing. The tie-break
    of server.go is to leave them with one connection, the one dialled by the smaller key. */
module TwoServers {
  import opened Options
  import opened Bytes
  import opened Registry
  import opened Server

  /** The established links have an end at each server. Link 1 was dialled by the server with the
      smaller key and is the one to keep; link 2 was dialled by the other. Link 3, if there is one, is a second
      direct dial of the smaller key. */
  datatype Delivery = LowKept | LowOther | LowAgain | HighKept | HighOther | HighAgain

  /** Which link ends have been reported to their server. */
  datatype Reported = Reported(
    lowKept: bool, lowOther: bool, lowAgain: bool, highKept: bool, highOther: bool, highAgain: bool)

  /** `low` has the smaller key. `lowDial` and `highDial` are the connection requests, if any, on whose
      behalf links 1 and 2 were dialled; `again` says whether there is a link 3. */
  datatype System = System(
    low: State, high: State, lowDial: Option<nat>, highDial: Option<nat>, again: bool, got: Reported)

  const ALL_REPORTED := Reported(true, true, true, true, true, true)

  predicate Done(got: Reported, d: Delivery) {
    match d
    case LowKept => got.lowKept
    case LowOther => got.lowOther
    case LowAgain => got.lowAgain
    case HighKept => got.highKept
    case HighOther => got.highOther
    case HighAgain => got.highAgain
  }

  /** Elsewhere is any critical section of one of the servers that is none of the counterpart's business. */
  datatype SysEvent =
    | Deliver(d: Delivery)
    | Watch(atLow: bool, p: Peer, addrsFound: bool, lasted: Option<nat>, randFails: bool)
    | Elsewhere(atLow: bool, e: Event)

  function Kept(other: NodeID): Conn { Conn(1, other) }

  function Other(other: NodeID): Conn { Conn(2, other) }

  function Again(other: NodeID): Conn { Conn(3, other) }

  /** A link is down as soon as one of its ends has been closed. */
  predicate Down(sys: System, link: nat) {
    Conn(link, sys.high.local) in sys.low.table.closedConns || Conn(link, sys.low.local) in sys.high.table.closedConns
  }

  /** The critical section neither connects, disconnects nor cleans up after the node. Persistent requests,
      backoffs and listeners of the node may change. */
  predicate Foreign(e: Event, node: NodeID) {
    match e
    case InboundConnected(conn) => conn.key != node
    case OutboundConnected(_, conn) => conn.key != node
    case Terminated(p, _, _, _) => p.key != node
    case DisconnectPeer(key) => key != node
    case _ => true
  }

  /** Each end is delivered once. The watcher of the counterpart wakes up when the link of its peer is down, and
      may then schedule a retry; the dial of that retry is not part of the system. */
  predicate SysEnabled(sys: System, e: SysEvent) {
    match e
    case Deliver(d) => !Done(sys.got, d)
    case Watch(atLow, p, addrsFound, lasted, randFails) =>
      && p.key == (if atLow then sys.high.local else sys.low.local)
      && Enabled(if atLow then sys.low else sys.high, Terminated(p, addrsFound, lasted, randFails))
      && Down(sys, p.conn.id)
    case Elsewhere(atLow, e) =>
      && Foreign(e, if atLow then sys.high.local else sys.low.local)
      && Enabled(if atLow then sys.low else sys.high, e)
  }

  function SysStep(sys: System, e: SysEvent): System
    requires SysEnabled(sys, e)
  {
    match e
    case Deliver(d) => Delivered(sys, d)
    case Watch(atLow, p, addrsFound, lasted, randFails) =>
      var w := Terminated(p, addrsFound, lasted, randFails);
      if atLow then sys.(low := Step(sys.low, w)) else sys.(high := Step(sys.high, w))
    case Elsewhere(atLow, e) =>
      if atLow then sys.(low := Step(sys.low, e)) else sys.(high := Step(sys.high, e))
  }

  function Delivered(sys: System, d: Delivery): System {
    match d
    case LowKept =>
      sys.(low := Outbound(sys.low, sys.lowDial, Kept(sys.high.local)), got := sys.got.(lowKept := true))
    case LowOther =>
      sys.(low := Inbound(sys.low, Other(sys.high.local)), got := sys.got.(lowOther := true))
    case LowAgain =>
      sys.(low := Outbound(sys.low, None, Again(sys.high.local)), got := sys.got.(lowAgain := true))
    case HighKept =>
      sys.(high := Inbound(sys.high, Kept(sys.low.local)), got := sys.got.(highKept := true))
    case HighOther =>
      sys.(high := Outbound(sys.high, sys.highDial, Other(sys.low.local)), got := sys.got.(highOther := true))
    case HighAgain =>
      sys.(high := Inbound(sys.high, Again(sys.low.local)), got := sys.got.(highAgain := true))
  }

  /** The node is not connected, and its two links are new. */
  ghost predicate Unknown(t: Table, node: NodeID) {
    !HasWatcher(t, node) && Kept(node) !in t.closedConns && Other(node) !in t.closedConns
  }

  /** Both servers are in any state in which they do not know each other, and the link ends are about to be
      reported. */
  ghost predicate Start(sys: System) {
    && Inv(sys.low) && Inv(sys.high)
    && Unknown(sys.low.table, sys.high.local) && Unknown(sys.high.table, sys.low.local)
    && Before(sys.low.local.key, sys.high.local.key)
    && sys.got == Reported(false, false, !sys.again, false, false, !sys.again)
  }

  ghost predicate SysRun(sys: System, events: seq<SysEvent>, sys': System)
    decreases events
  {
    if events == [] then sys == sys'
    else SysEnabled(sys, events[0]) && SysRun(SysStep(sys, events[0]), events[1..], sys')
  }

  /** Nothing is left to happen between the two. */
  ghost predicate Quiescent(sys: System) {
    forall e :: SysEnabled(sys, e) ==> e.Elsewhere?
  }

  ghost predicate Holds(s: State, other: NodeID, conn: Conn) {
    other in s.table.peersByPub && s.table.peersByPub[other].conn == conn
  }

  /** Both servers are connected over the link, and it is up. */
  ghost predicate Shared(sys: System, link: nat) {
    && Holds(sys.low, sys.high.local, Conn(link, sys.high.local))
    && Holds(sys.high, sys.low.local, Conn(link, sys.low.local))
    && !Down(sys, link)
  }

  /** Both servers are connected over one link dialled by the smaller key. */
  ghost predicate Agree(sys: System) {
    Shared(sys, 1) || Shared(sys, 3)
  }

  // ----- one side of the system

  ghost predicate HoldsIn(t: Table, other: NodeID, conn: Conn) {
    other in t.peersByPub && t.peersByPub[other].conn == conn
  }

  /** What the peer maps of one server say about its counterpart. `keptIn` says whether the link to keep
      is inbound here; gotKept and gotOther say which ends have been reported. */
  ghost predicate Side(t: Table, other: NodeID, keptIn: bool, gotKept: bool, gotOther: bool) {
    && TableInv(t)
    && Peers(t, other, keptIn)
    && Kept(other) !in t.closedConns
    && (other in t.scheduledPeerConnection ==>
          t.scheduledPeerConnection[other] == Callback(Kept(other), keptIn) && gotKept && gotOther)
    && (gotKept ==> other in t.scheduledPeerConnection || HoldsIn(t, other, Kept(other)))
    && (!gotKept && other in t.peersByPub ==> gotOther && HoldsIn(t, other, Other(other)))
    && (gotOther ==> Other(other) in t.closedConns || HoldsIn(t, other, Other(other)))
  }

  ghost predicate Peers(t: Table, other: NodeID, keptIn: bool) {
    && (forall p :: p in t.watchers && p.key == other ==> Linked(p, other, keptIn))
    && (forall p :: p in t.ignorePeerTermination && p.key == other ==> p.conn == Other(other))
  }

  ghost predicate Linked(p: Peer, other: NodeID, keptIn: bool) {
    (p.conn == Kept(other) && p.inbound == keptIn) || (p.conn == Other(other) && p.inbound == !keptIn)
  }

  lemma KeptAdmitted(t: Table, local: NodeID, other: NodeID, keptIn: bool, gotOther: bool)
    requires Side(t, other, keptIn, false, gotOther) && (keptIn <==> ShouldDropLocal(local, other))
    ensures Side(Admit(t, local, Kept(other), keptIn), other, keptIn, true, gotOther)
  {
    AdmitKeeps(t, local, Kept(other), keptIn);
    if other in t.peersByPub {
      assert t.peersByPub[other] in t.watchers;
    }
  }

  lemma OtherAdmitted(t: Table, local: NodeID, other: NodeID, keptIn: bool, gotKept: bool)
    requires Side(t, other, keptIn, gotKept, false) && (keptIn <==> ShouldDropLocal(local, other))
    ensures Side(Admit(t, local, Other(other), !keptIn), other, keptIn, gotKept, true)
  {
    AdmitKeeps(t, local, Other(other), !keptIn);
  }

  lemma OtherRefused(t: Table, other: NodeID, keptIn: bool, gotKept: bool)
    requires Side(t, other, keptIn, gotKept, false)
    ensures Side(CloseConn(t, Other(other)), other, keptIn, gotKept, true)
  {
    CloseKeeps(t, Other(other));
  }

  /** Only the watcher of the other link ever runs. */
  lemma OtherWatched(t: Table, other: NodeID, keptIn: bool, gotKept: bool, gotOther: bool, p: Peer)
    requires Side(t, other, keptIn, gotKept, gotOther) && p in t.watchers && p.key == other && p.conn != Kept(other)
    ensures Side(WatcherDone(t, p), other, keptIn, gotKept, gotOther)
  {
    WatcherKeeps(t, p);
  }

  // ----- the steps of one server

  lemma KeptArrivesOut(s: State, other: NodeID, gotOther: bool)
    requires Side(s.table, other, false, false, gotOther) && !ShouldDropLocal(s.local, other)
    ensures Side(Outbound(s, None, Kept(other)).table, other, false, true, gotOther)
  {
    if other in s.table.peersByPub { assert s.table.peersByPub[other] in s.table.watchers; }
    KeptAdmitted(s.table, s.local, other, false, gotOther);
  }

  lemma KeptArrivesIn(s: State, other: NodeID, gotOther: bool)
    requires Side(s.table, other, true, false, gotOther) && ShouldDropLocal(s.local, other)
    ensures Side(Inbound(s, Kept(other)).table, other, true, true, gotOther)
  {
    if other in s.table.peersByPub { assert s.table.peersByPub[other] in s.table.watchers; }
    KeptAdmitted(s.table, s.local, other, true, gotOther);
  }

  lemma OtherArrivesIn(s: State, other: NodeID, gotKept: bool)
    requires Side(s.table, other, false, gotKept, false) && !ShouldDropLocal(s.local, other)
    ensures Side(Inbound(s, Other(other)).table, other, false, gotKept, true)
  {
    OtherAdmitted(s.table, s.local, other, false, gotKept);
    OtherRefused(s.table, other, false, gotKept);
  }

  lemma OtherArrivesOut(s: State, other: NodeID, dial: Option<nat>, gotKept: bool)
    requires Side(s.table, other, true, gotKept, false) && ShouldDropLocal(s.local, other)
    ensures Side(Outbound(s, dial, Other(other)).table, other, true, gotKept, true)
  {
    OtherAdmitted(s.table, s.local, other, true, gotKept);
    OtherRefused(s.table, other, true, gotKept);
  }

  // ----- the system

  ghost predicate LowInv(s: State, b: NodeID, gotKept: bool, gotOther: bool) {
    Inv(s) && !ShouldDropLocal(s.local, b) && Side(s.table, b, false, gotKept, gotOther)
  }

  ghost predicate HighInv(s: State, a: NodeID, gotKept: bool, gotOther: bool) {
    Inv(s) && ShouldDropLocal(s.local, a) && Side(s.table, a, true, gotKept, gotOther)
  }

  /** The invariant of the system when the smaller key dials once and directly. */
  ghost predicate SysInv(sys: System) {
    && sys.lowDial == None && sys.got.lowAgain && sys.got.highAgain
    && LowInv(sys.low, sys.high.local, sys.got.lowKept, sys.got.lowOther)
    && HighInv(sys.high, sys.low.local, sys.got.highKept, sys.got.highOther)
  }

  lemma StartKeeps(sys: System)
    requires Start(sys) && sys.lowDial == None && !sys.again
    ensures SysInv(sys)
  {
    LowComesFirst(sys);
    UnknownSide(sys.low.table, sys.high.local, false);
    UnknownSide(sys.high.table, sys.low.local, true);
  }

  lemma LowComesFirst(sys: System)
    requires Start(sys)
    ensures sys.low.local != sys.high.local
    ensures !ShouldDropLocal(sys.low.local, sys.high.local) && ShouldDropLocal(sys.high.local, sys.low.local)
  {
    BeforeIsStrict(sys.low.local.key, sys.high.local.key);
    DropLocalIff(sys.low.local, sys.high.local);
    DropLocalIff(sys.high.local, sys.low.local);
  }

  lemma UnderWatch(t: Table, node: NodeID)
    requires TableInv(t) && (node in t.peersByPub || node in t.scheduledPeerConnection)
    ensures HasWatcher(t, node)
  {
    if node in t.peersByPub {
      assert t.peersByPub[node] in t.watchers;
    } else {
      assert IgnoredFor(t, node);
    }
  }

  lemma NotConnected(t: Table, node: NodeID)
    requires TableInv(t) && !HasWatcher(t, node)
    ensures node !in t.peersByPub && node !in t.scheduledPeerConnection
  {
    if node in t.peersByPub || node in t.scheduledPeerConnection { UnderWatch(t, node); }
  }

  lemma UnknownSide(t: Table, node: NodeID, keptIn: bool)
    requires TableInv(t) && Unknown(t, node)
    ensures Side(t, node, keptIn, false, false)
  {
    NotConnected(t, node);
  }

  lemma LowKeptArrives(s: State, b: NodeID, gotKept: bool, gotOther: bool)
    requires LowInv(s, b, gotKept, gotOther) && !gotKept
    ensures LowInv(Outbound(s, None, Kept(b)), b, true, gotOther)
  {
    OutboundKeeps(s, None, Kept(b));
    KeptArrivesOut(s, b, gotOther);
  }

  lemma LowOtherArrives(s: State, b: NodeID, gotKept: bool, gotOther: bool)
    requires LowInv(s, b, gotKept, gotOther) && !gotOther
    ensures LowInv(Inbound(s, Other(b)), b, gotKept, true)
  {
    InboundKeeps(s, Other(b));
    OtherArrivesIn(s, b, gotKept);
  }

  lemma HighKeptArrives(s: State, a: NodeID, gotKept: bool, gotOther: bool)
    requires HighInv(s, a, gotKept, gotOther) && !gotKept
    ensures HighInv(Inbound(s, Kept(a)), a, true, gotOther)
  {
    InboundKeeps(s, Kept(a));
    KeptArrivesIn(s, a, gotOther);
  }

  lemma HighOtherArrives(s: State, a: NodeID, dial: Option<nat>, gotKept: bool, gotOther: bool)
    requires HighInv(s, a, gotKept, gotOther) && !gotOther
    ensures HighInv(Outbound(s, dial, Other(a)), a, gotKept, true)
  {
    OutboundKeeps(s, dial, Other(a));
    OtherArrivesOut(s, a, dial, gotKept);
  }

  lemma LowReplaced(sys: System, s: State, got: Reported)
    requires SysInv(sys) && s.local == sys.low.local
    requires LowInv(s, sys.high.local, got.lowKept, got.lowOther)
    requires got.highKept == sys.got.highKept && got.highOther == sys.got.highOther && got.lowAgain && got.highAgain
    ensures SysInv(sys.(low := s, got := got))
  {}

  lemma HighReplaced(sys: System, s: State, got: Reported)
    requires SysInv(sys) && s.local == sys.high.local
    requires HighInv(s, sys.low.local, got.highKept, got.highOther)
    requires got.lowKept == sys.got.lowKept && got.lowOther == sys.got.lowOther && got.lowAgain && got.highAgain
    ensures SysInv(sys.(high := s, got := got))
  {}

  lemma SameLocal(s: State, dial: Option<nat>, conn: Conn)
    ensures Inbound(s, conn).local == s.local && Outbound(s, dial, conn).local == s.local
  {}

  lemma DeliverLowKept(sys: System, sys': System)
    requires SysInv(sys) && !sys.got.lowKept
    requires sys' == sys.(low := Outbound(sys.low, None, Kept(sys.high.local)), got := sys.got.(lowKept := true))
    ensures SysInv(sys')
  {
    LowKeptArrives(sys.low, sys.high.local, sys.got.lowKept, sys.got.lowOther);
    SameLocal(sys.low, None, Kept(sys.high.local));
    LowReplaced(sys, sys'.low, sys'.got);
  }

  lemma DeliverLowOther(sys: System, sys': System)
    requires SysInv(sys) && !sys.got.lowOther
    requires sys' == sys.(low := Inbound(sys.low, Other(sys.high.local)), got := sys.got.(lowOther := true))
    ensures SysInv(sys')
  {
    LowOtherArrives(sys.low, sys.high.local, sys.got.lowKept, sys.got.lowOther);
    SameLocal(sys.low, None, Other(sys.high.local));
    LowReplaced(sys, sys'.low, sys'.got);
  }

  lemma DeliverHighKept(sys: System, sys': System)
    requires SysInv(sys) && !sys.got.highKept
    requires sys' == sys.(high := Inbound(sys.high, Kept(sys.low.local)), got := sys.got.(highKept := true))
    ensures SysInv(sys')
  {
    HighKeptArrives(sys.high, sys.low.local, sys.got.highKept, sys.got.highOther);
    SameLocal(sys.high, None, Kept(sys.low.local));
    HighReplaced(sys, sys'.high, sys'.got);
  }

  lemma DeliverHighOther(sys: System, sys': System)
    requires SysInv(sys) && !sys.got.highOther
    requires sys' == sys.(high := Outbound(sys.high, sys.highDial, Other(sys.low.local)), got := sys.got.(highOther := true))
    ensures SysInv(sys')
  {
    HighOtherArrives(sys.high, sys.low.local, sys.highDial, sys.got.highKept, sys.got.highOther);
    SameLocal(sys.high, sys.highDial, Other(sys.low.local));
    HighReplaced(sys, sys'.high, sys'.got);
  }

  lemma DeliverKeeps(sys: System, d: Delivery)
    requires SysInv(sys) && !Done(sys.got, d)
    ensures SysInv(SysStep(sys, Deliver(d)))
  {
    match d
    case LowKept => DeliverLowKept(sys, SysStep(sys, Deliver(d)));
    case LowOther => DeliverLowOther(sys, SysStep(sys, Deliver(d)));
    case HighKept => DeliverHighKept(sys, SysStep(sys, Deliver(d)));
    case HighOther => DeliverHighOther(sys, SysStep(sys, Deliver(d)));
    case LowAgain => assert false;
    case HighAgain => assert false;
  }

  lemma LowWatched(s: State, b: NodeID, gotKept: bool, gotOther: bool, p: Peer, addrsFound: bool, lasted: Option<nat>,
                   randFails: bool, s': State)
    requires LowInv(s, b, gotKept, gotOther) && p in s.table.watchers && p.key == b && p.conn != Kept(b)
    requires Enabled(s, Terminated(p, addrsFound, lasted, randFails))
    requires s' == Terminate(s, p, addrsFound, lasted, randFails)
    ensures LowInv(s', b, gotKept, gotOther)
  {
    TerminateKeeps(s, p, addrsFound, lasted, randFails);
    OtherWatched(s.table, b, false, gotKept, gotOther, p);
  }

  lemma HighWatched(s: State, a: NodeID, gotKept: bool, gotOther: bool, p: Peer, addrsFound: bool, lasted: Option<nat>,
                    randFails: bool, s': State)
    requires HighInv(s, a, gotKept, gotOther) && p in s.table.watchers && p.key == a && p.conn != Kept(a)
    requires Enabled(s, Terminated(p, addrsFound, lasted, randFails))
    requires s' == Terminate(s, p, addrsFound, lasted, randFails)
    ensures HighInv(s', a, gotKept, gotOther)
  {
    TerminateKeeps(s, p, addrsFound, lasted, randFails);
    OtherWatched(s.table, a, true, gotKept, gotOther, p);
  }

  lemma WatchKeeps(sys: System, e: SysEvent, sys': System)
    requires SysInv(sys) && e.Watch? && SysEnabled(sys, e) && sys' == SysStep(sys, e)
    ensures SysInv(sys')
  {
    if e.atLow {
      LowWatched(sys.low, sys.high.local, sys.got.lowKept, sys.got.lowOther, e.p, e.addrsFound, e.lasted, e.randFails,
                 sys'.low);
      LowReplaced(sys, sys'.low, sys.got);
    } else {
      HighWatched(sys.high, sys.low.local, sys.got.highKept, sys.got.highOther, e.p, e.addrsFound, e.lasted, e.randFails,
                  sys'.high);
      HighReplaced(sys, sys'.high, sys.got);
    }
  }

  // ----- what else the servers do

  /** Two tables say the same about a node. */
  ghost predicate AgreeOn(t: Table, t': Table, node: NodeID) {
    && (node in t.peersByPub <==> node in t'.peersByPub)
    && (node in t.peersByPub ==> t.peersByPub[node] == t'.peersByPub[node])
    && (node in t.scheduledPeerConnection <==> node in t'.scheduledPeerConnection)
    && (node in t.scheduledPeerConnection ==> t.scheduledPeerConnection[node] == t'.scheduledPeerConnection[node])
    && (forall p: Peer :: p.key == node ==> (p in t.watchers <==> p in t'.watchers))
    && (forall p: Peer :: p.key == node ==> (p in t.ignorePeerTermination <==> p in t'.ignorePeerTermination))
    && (forall c: Conn :: c.key == node ==> (c in t.closedConns <==> c in t'.closedConns))
  }

  lemma ConnectedForeign(t: Table, conn: Conn, inbound: bool, node: NodeID)
    requires conn.key != node
    ensures AgreeOn(t, PeerConnected(t, conn, inbound), node)
  {
  }

  lemma RemovedForeign(t: Table, p: Peer, node: NodeID)
    requires p.key != node && p.conn.key != node
    ensures AgreeOn(t, RemovePeer(t, p), node)
  {
  }

  lemma DisplacedForeign(t: Table, p: Peer, conn: Conn, inbound: bool, node: NodeID)
    requires p.key != node && p.conn.key != node && conn.key != node
    ensures AgreeOn(t, Displace(t, p, conn, inbound), node)
  {
    RemovedForeign(t, p, node);
  }

  lemma AdmitForeign(t: Table, local: NodeID, conn: Conn, inbound: bool, node: NodeID)
    requires TableInv(t) && conn.key != node
    ensures AgreeOn(t, Admit(t, local, conn, inbound), node)
  {
    ConnectedForeign(t, conn, inbound, node);
    if conn.key in t.peersByPub {
      assert t.peersByPub[conn.key] in t.watchers;
      DisplacedForeign(t, t.peersByPub[conn.key], conn, inbound, node);
    }
  }

  lemma WatcherForeign(t: Table, p: Peer, node: NodeID)
    requires TableInv(t) && p in t.watchers && p.key != node
    ensures AgreeOn(t, WatcherDone(t, p), node)
  {
  }

  lemma InboundForeign(s: State, conn: Conn, node: NodeID)
    requires Inv(s) && conn.key != node
    ensures AgreeOn(s.table, Inbound(s, conn).table, node)
  {
    AdmitForeign(s.table, s.local, conn, true, node);
    assert AgreeOn(s.table, CloseConn(s.table, conn), node);
  }

  lemma OutboundForeign(s: State, dial: Option<nat>, conn: Conn, node: NodeID)
    requires Inv(s) && conn.key != node
    ensures AgreeOn(s.table, Outbound(s, dial, conn).table, node)
  {
    AdmitForeign(s.table, s.local, conn, false, node);
    assert AgreeOn(s.table, CloseConn(s.table, conn), node);
  }

  lemma DisconnectForeign(s: State, key: NodeID, node: NodeID)
    requires Inv(s) && key != node
    ensures AgreeOn(s.table, Disconnect(s, key).table, node)
  {
    if key in s.table.peersByPub { assert s.table.peersByPub[key] in s.table.watchers; }
  }

  lemma StepForeign(s: State, e: Event, node: NodeID)
    requires Inv(s) && Enabled(s, e) && Foreign(e, node)
    ensures AgreeOn(s.table, Step(s, e).table, node) && Step(s, e).local == s.local
  {
    if e.InboundConnected? {
      InboundForeign(s, e.conn, node);
    } else if e.OutboundConnected? {
      OutboundForeign(s, e.request, e.conn, node);
    } else if e.Terminated? {
      WatcherForeign(s.table, e.peer, node);
    } else if e.DisconnectPeer? {
      DisconnectForeign(s, e.key, node);
    } else {
      assert Step(s, e).table == s.table;
    }
  }

  lemma SideForeign(t: Table, t': Table, node: NodeID, keptIn: bool, gotKept: bool, gotOther: bool)
    requires Side(t, node, keptIn, gotKept, gotOther) && TableInv(t') && AgreeOn(t, t', node)
    ensures Side(t', node, keptIn, gotKept, gotOther)
  {
  }

  lemma ElsewhereKeeps(sys: System, atLow: bool, e: Event)
    requires SysInv(sys) && SysEnabled(sys, Elsewhere(atLow, e))
    ensures SysInv(SysStep(sys, Elsewhere(atLow, e)))
  {
    var s, node := if atLow then sys.low else sys.high, if atLow then sys.high.local else sys.low.local;
    StepKeeps(s, e);
    StepForeign(s, e, node);
    if atLow {
      SideForeign(s.table, Step(s, e).table, node, false, sys.got.lowKept, sys.got.lowOther);
    } else {
      SideForeign(s.table, Step(s, e).table, node, true, sys.got.highKept, sys.got.highOther);
    }
  }

  lemma {:induction false} SysRunKeeps(sys: System, events: seq<SysEvent>, sys': System)
    requires SysInv(sys) && SysRun(sys, events, sys')
    ensures SysInv(sys')
    decreases events
  {
    if events != [] {
      match events[0]
      case Deliver(d) => DeliverKeeps(sys, d); SysRunKeeps(SysStep(sys, events[0]), events[1..], sys');
      case Watch(_, _, _, _, _) => WatchKeeps(sys, events[0], SysStep(sys, events[0])); SysRunKeeps(SysStep(sys, events[0]), events[1..], sys');
      case Elsewhere(atLow, e) => ElsewhereKeeps(sys, atLow, e); SysRunKeeps(SysStep(sys, events[0]), events[1..], sys');
    }
  }

  /** A side with both ends reported and no watcher left to run is connected over the kept link. */
  lemma SideSettled(s: State, other: NodeID, keptIn: bool)
    requires Inv(s) && Side(s.table, other, keptIn, true, true)
    requires forall p :: p in s.table.watchers && p.key == other ==> p.conn != Other(other)
    ensures Holds(s, other, Kept(other))
  {
    assert other in s.table.scheduledPeerConnection ==> IgnoredFor(s.table, other);
  }

  /** When nothing is left to happen, no watcher of a link that is down is left to run. */
  lemma NoWatch(sys: System, atLow: bool, p: Peer)
    requires Quiescent(sys) && Down(sys, 2)
    requires Inv(if atLow then sys.low else sys.high) && p in (if atLow then sys.low else sys.high).table.watchers
    requires p.key == if atLow then sys.high.local else sys.low.local
    ensures p.conn.id != 2
  {
    WatcherNeverStuck(if atLow then sys.low else sys.high, p, false, None, false);
    assert !SysEnabled(sys, Watch(atLow, p, false, None, false));
  }

  lemma Settled(sys: System)
    requires SysInv(sys) && Quiescent(sys)
    ensures Shared(sys, 1)
  {
    AllReported(sys);
    OtherIsDown(sys);
    forall p | p in sys.low.table.watchers && p.key == sys.high.local ensures p.conn.id != 2 {
      NoWatch(sys, true, p);
    }
    forall p | p in sys.high.table.watchers && p.key == sys.low.local ensures p.conn.id != 2 {
      NoWatch(sys, false, p);
    }
    SideSettled(sys.low, sys.high.local, false);
    SideSettled(sys.high, sys.low.local, true);
  }

  lemma AllReported(sys: System)
    requires Quiescent(sys)
    ensures sys.got == ALL_REPORTED
  {
    assert !SysEnabled(sys, Deliver(LowKept)) && !SysEnabled(sys, Deliver(LowOther));
    assert !SysEnabled(sys, Deliver(HighKept)) && !SysEnabled(sys, Deliver(HighOther));
    assert !SysEnabled(sys, Deliver(LowAgain)) && !SysEnabled(sys, Deliver(HighAgain));
  }

  lemma OtherIsDown(sys: System)
    requires SysInv(sys) && sys.got == ALL_REPORTED
    ensures Down(sys, 2)
  {}

  /** With one direct dial from the smaller key, every run that has come to rest has left both servers
      with the kept link, and that link has never been closed by either end. */
  lemma Agreement(sys: System, events: seq<SysEvent>, sys': System)
    requires Start(sys) && sys.lowDial == None && !sys.again && SysRun(sys, events, sys')
    ensures !Down(sys', 1)
    ensures Quiescent(sys') ==> Shared(sys', 1)
  {
    StartKeeps(sys);
    SysRunKeeps(sys, events, sys');
    if Quiescent(sys') { Settled(sys'); }
  }

  // ----- every run comes to rest

  /** What a server still has under way with a node. */
  ghost function Load(t: Table, node: NodeID): nat {
    (if HasWatcher(t, node) then 1 else 0) + (if node in t.scheduledPeerConnection then 1 else 0)
  }

  function Missing(got: Reported): nat {
    (if got.lowKept then 0 else 1) + (if got.lowOther then 0 else 1) + (if got.lowAgain then 0 else 1)
    + (if got.highKept then 0 else 1) + (if got.highOther then 0 else 1) + (if got.highAgain then 0 else 1)
  }

  /** A bound on the number of steps still to come between the two. */
  ghost function Measure(sys: System): nat {
    3 * Missing(sys.got) + Load(sys.low.table, sys.high.local) + Load(sys.high.table, sys.low.local)
  }

  lemma AdmitLoad(t: Table, local: NodeID, conn: Conn, inbound: bool)
    requires conn.key in t.scheduledPeerConnection ==> conn.key !in t.peersByPub
    ensures Load(Admit(t, local, conn, inbound), conn.key) <= Load(t, conn.key) + 1
  {
    var t' := Admit(t, local, conn, inbound);
    if conn.key in t.peersByPub { assert t'.watchers == t.watchers; }
  }

  lemma InboundLoad(s: State, conn: Conn)
    requires Inv(s)
    ensures Load(Inbound(s, conn).table, conn.key) <= Load(s.table, conn.key) + 1 && Inbound(s, conn).local == s.local
  {
    AdmitLoad(s.table, s.local, conn, true);
  }

  lemma OutboundLoad(s: State, dial: Option<nat>, conn: Conn)
    requires Inv(s)
    ensures Load(Outbound(s, dial, conn).table, conn.key) <= Load(s.table, conn.key) + 1
    ensures Outbound(s, dial, conn).local == s.local
  {
    AdmitLoad(s.table, s.local, conn, false);
  }

  lemma WatchLoad(t: Table, p: Peer)
    requires TableInv(t) && p in t.watchers
    ensures Load(WatcherDone(t, p), p.key) < Load(t, p.key)
  {
    var t' := WatcherDone(t, p);
    if p !in t.ignorePeerTermination {
      assert t'.watchers == t.watchers - {p};
    }
  }

  lemma ForeignLoad(t: Table, t': Table, node: NodeID)
    requires AgreeOn(t, t', node)
    ensures Load(t', node) == Load(t, node)
  {
    if HasWatcher(t, node) {
      var p :| p in t.watchers && p.key == node;
      assert p in t'.watchers;
    }
  }

  lemma LowDecreases(sys: System, s: State, got: Reported, sys': System)
    requires s.local == sys.low.local && Load(s.table, sys.high.local) <= Load(sys.low.table, sys.high.local) + 1
    requires Missing(got) < Missing(sys.got) && sys' == sys.(low := s, got := got)
    ensures Measure(sys') < Measure(sys)
  {
  }

  lemma HighDecreases(sys: System, s: State, got: Reported, sys': System)
    requires s.local == sys.high.local && Load(s.table, sys.low.local) <= Load(sys.high.table, sys.low.local) + 1
    requires Missing(got) < Missing(sys.got) && sys' == sys.(high := s, got := got)
    ensures Measure(sys') < Measure(sys)
  {
  }

  lemma LowInDecreases(sys: System, conn: Conn, got: Reported, sys': System)
    requires Inv(sys.low) && conn.key == sys.high.local && Missing(got) < Missing(sys.got)
    requires sys' == sys.(low := Inbound(sys.low, conn), got := got)
    ensures Measure(sys') < Measure(sys)
  {
    InboundLoad(sys.low, conn);
    LowDecreases(sys, sys'.low, got, sys');
  }

  lemma LowOutDecreases(sys: System, dial: Option<nat>, conn: Conn, got: Reported, sys': System)
    requires Inv(sys.low) && conn.key == sys.high.local && Missing(got) < Missing(sys.got)
    requires sys' == sys.(low := Outbound(sys.low, dial, conn), got := got)
    ensures Measure(sys') < Measure(sys)
  {
    OutboundLoad(sys.low, dial, conn);
    LowDecreases(sys, sys'.low, got, sys');
  }

  lemma HighInDecreases(sys: System, conn: Conn, got: Reported, sys': System)
    requires Inv(sys.high) && conn.key == sys.low.local && Missing(got) < Missing(sys.got)
    requires sys' == sys.(high := Inbound(sys.high, conn), got := got)
    ensures Measure(sys') < Measure(sys)
  {
    InboundLoad(sys.high, conn);
    HighDecreases(sys, sys'.high, got, sys');
  }

  lemma HighOutDecreases(sys: System, dial: Option<nat>, conn: Conn, got: Reported, sys': System)
    requires Inv(sys.high) && conn.key == sys.low.local && Missing(got) < Missing(sys.got)
    requires sys' == sys.(high := Outbound(sys.high, dial, conn), got := got)
    ensures Measure(sys') < Measure(sys)
  {
    OutboundLoad(sys.high, dial, conn);
    HighDecreases(sys, sys'.high, got, sys');
  }

  lemma OneLess(sys: System, d: Delivery)
    requires !Done(sys.got, d)
    ensures Missing(Delivered(sys, d).got) < Missing(sys.got)
  {
    var got := sys.got;
    var got' := match d
      case LowKept => got.(lowKept := true)
      case LowOther => got.(lowOther := true)
      case LowAgain => got.(lowAgain := true)
      case HighKept => got.(highKept := true)
      case HighOther => got.(highOther := true)
      case HighAgain => got.(highAgain := true);
    assert Missing(got') < Missing(got);
    assert Delivered(sys, d).got == got';
  }

  lemma DeliverDecreases(sys: System, d: Delivery, sys': System)
    requires Inv(sys.low) && Inv(sys.high) && !Done(sys.got, d) && sys' == Delivered(sys, d)
    ensures Measure(sys') < Measure(sys)
  {
    OneLess(sys, d);
    match d
    case LowKept => LowOutDecreases(sys, sys.lowDial, Kept(sys.high.local), sys'.got, sys');
    case LowOther => LowInDecreases(sys, Other(sys.high.local), sys'.got, sys');
    case LowAgain => LowOutDecreases(sys, None, Again(sys.high.local), sys'.got, sys');
    case HighKept => HighInDecreases(sys, Kept(sys.low.local), sys'.got, sys');
    case HighOther => HighOutDecreases(sys, sys.highDial, Other(sys.low.local), sys'.got, sys');
    case HighAgain => HighInDecreases(sys, Again(sys.low.local), sys'.got, sys');
  }

  lemma ElsewhereLoad(s: State, e: Event, node: NodeID)
    requires Inv(s) && Enabled(s, e) && Foreign(e, node)
    ensures Load(Step(s, e).table, node) == Load(s.table, node) && Step(s, e).local == s.local
  {
    StepForeign(s, e, node);
    ForeignLoad(s.table, Step(s, e).table, node);
  }

  /** Every step between the two uses up some of the measure, and the others leave it alone. */
  lemma StepDecreases(sys: System, e: SysEvent)
    requires Inv(sys.low) && Inv(sys.high) && SysEnabled(sys, e)
    ensures if e.Elsewhere? then Measure(SysStep(sys, e)) == Measure(sys) else Measure(SysStep(sys, e)) < Measure(sys)
  {
    match e
    case Deliver(d) => DeliverDecreases(sys, d, SysStep(sys, e));
    case Watch(atLow, p, _, _, _) => WatchLoad(if atLow then sys.low.table else sys.high.table, p);
    case Elsewhere(atLow, e) =>
      if atLow { ElsewhereLoad(sys.low, e, sys.high.local); } else { ElsewhereLoad(sys.high, e, sys.low.local); }
  }

  lemma SysStepInv(sys: System, e: SysEvent)
    requires Inv(sys.low) && Inv(sys.high) && SysEnabled(sys, e)
    ensures Inv(SysStep(sys, e).low) && Inv(SysStep(sys, e).high)
  {
    match e
    case Deliver(d) =>
      match d {
        case LowKept => OutboundKeeps(sys.low, sys.lowDial, Kept(sys.high.local));
        case LowOther => InboundKeeps(sys.low, Other(sys.high.local));
        case HighKept => InboundKeeps(sys.high, Kept(sys.low.local));
        case HighOther => OutboundKeeps(sys.high, sys.highDial, Other(sys.low.local));
        case LowAgain => OutboundKeeps(sys.low, None, Again(sys.high.local));
        case HighAgain => InboundKeeps(sys.high, Again(sys.low.local));
      }
    case Watch(atLow, p, addrsFound, lasted, randFails) =>
      StepKeeps(if atLow then sys.low else sys.high, Terminated(p, addrsFound, lasted, randFails));
    case Elsewhere(atLow, e) =>
      StepKeeps(if atLow then sys.low else sys.high, e);
  }

  /** The number of steps between the two. */
  function OwnSteps(events: seq<SysEvent>): nat {
    if events == [] then 0 else (if events[0].Elsewhere? then 0 else 1) + OwnSteps(events[1..])
  }

  /** The two have at most as many steps with each other as the measure of their start says: twelve for two links,
      when they do not know each other, and eighteen for three. */
  lemma {:induction false} RunBounded(sys: System, events: seq<SysEvent>, sys': System)
    requires Inv(sys.low) && Inv(sys.high) && SysRun(sys, events, sys')
    ensures OwnSteps(events) <= Measure(sys)
    ensures Start(sys) ==> OwnSteps(events) <= if sys.again then 18 else 12
    decreases events
  {
    if Start(sys) {
      NotConnected(sys.low.table, sys.high.local);
      NotConnected(sys.high.table, sys.low.local);
    }
    if events != [] {
      StepDecreases(sys, events[0]);
      SysStepInv(sys, events[0]);
      RunBounded(SysStep(sys, events[0]), events[1..], sys');
    }
  }

  // ----- runs that fail

  lemma Prepend(sys: System, e: SysEvent, events: seq<SysEvent>, sys': System)
    requires SysEnabled(sys, e) && SysRun(SysStep(sys, e), events, sys')
    ensures SysRun(sys, [e] + events, sys')
  {
    assert ([e] + events)[1..] == events;
  }

  /** The node is neither connected nor has it anything under way. */
  ghost predicate Gone(t: Table, node: NodeID) {
    node !in t.peersByPub && node !in t.scheduledPeerConnection && !HasWatcher(t, node)
  }

  /** s is a server that knew nothing of the node, which table t says, and has connected to it once since. */
  ghost predicate OnlyPeer(s: State, t: Table, conn: Conn, inbound: bool) {
    && Inv(s) && TableInv(t) && !HasWatcher(t, conn.key)
    && s.table == PeerConnected(t, conn, inbound).(closedConns := s.table.closedConns)
  }

  /** The watcher of the only peer of a node leaves nothing behind. */
  lemma Abandoned(s: State, t: Table, conn: Conn, inbound: bool, s': State)
    requires OnlyPeer(s, t, conn, inbound)
    ensures Enabled(s, Gives(t, conn, inbound))
    ensures s' == Step(s, Gives(t, conn, inbound)) ==>
      s'.local == s.local && Gone(s'.table, conn.key) && s.table.closedConns <= s'.table.closedConns
  {
    NotConnected(t, conn.key);
    var p := Peer(t.nextPeer, conn.key, inbound, conn);
    TerminateKeeps(s, p, false, None, false);
    assert p !in t.ignorePeerTermination;
    assert WatcherDone(s.table, p).watchers == s.table.watchers - {p};
  }

  function Gives(t: Table, conn: Conn, inbound: bool): Event {
    Terminated(Peer(t.nextPeer, conn.key, inbound, conn), false, None, false)
  }

  function Watching(atLow: bool, t: Table, conn: Conn, inbound: bool): SysEvent {
    Watch(atLow, Peer(t.nextPeer, conn.key, inbound, conn), false, None, false)
  }

  /** Everything has been reported, and nothing is left between the two. */
  ghost predicate Parted(sys: System) {
    sys.got == ALL_REPORTED && Gone(sys.low.table, sys.high.local) && Gone(sys.high.table, sys.low.local)
  }

  lemma PartedForGood(sys: System)
    requires Parted(sys)
    ensures Quiescent(sys) && !Agree(sys)
  {
  }

  /** When each server holds only a link that is down, both give up. */
  lemma BothAbandon(sys: System, low: Table, lowConn: Conn, lowIn: bool, high: Table, highConn: Conn, highIn: bool)
    returns (sys': System)
    requires sys.got == ALL_REPORTED && lowConn.key == sys.high.local && highConn.key == sys.low.local
    requires OnlyPeer(sys.low, low, lowConn, lowIn) && OnlyPeer(sys.high, high, highConn, highIn)
    requires Down(sys, lowConn.id) && Down(sys, highConn.id)
    ensures SysRun(sys, [Watching(true, low, lowConn, lowIn)] + ([Watching(false, high, highConn, highIn)] + []), sys')
    ensures Parted(sys')
  {
    var e, f := Watching(true, low, lowConn, lowIn), Watching(false, high, highConn, highIn);
    Abandoned(sys.low, low, lowConn, lowIn, sys.low);
    var mid := sys.(low := Step(sys.low, Gives(low, lowConn, lowIn)));
    Abandoned(sys.low, low, lowConn, lowIn, mid.low);
    Abandoned(sys.high, high, highConn, highIn, sys.high);
    sys' := mid.(high := Step(sys.high, Gives(high, highConn, highIn)));
    Abandoned(sys.high, high, highConn, highIn, sys'.high);
    Prepend(mid, f, [], sys');
    Prepend(sys, e, [f] + [], sys');
  }

  // ----- the dial for a connection request

  /** An inbound link cancels the pending requests of its key, so the link that a request dialled is
      then ignored and closed. */
  lemma LowCrossed(s: State, b: NodeID, dial: Option<nat>, s': State)
    requires Inv(s) && Unknown(s.table, b) && dial.Some?
    requires s' == Outbound(Inbound(s, Other(b)), dial, Kept(b))
    ensures OnlyPeer(s', s.table, Other(b), true) && s'.local == s.local && Kept(b) in s'.table.closedConns
  {
    NotConnected(s.table, b);
    InboundKeeps(s, Other(b));
    OutboundKeeps(Inbound(s, Other(b)), dial, Kept(b));
  }

  lemma HighCrossed(s: State, a: NodeID, dial: Option<nat>, s': State)
    requires Inv(s) && Unknown(s.table, a) && ShouldDropLocal(s.local, a)
    requires s' == Outbound(Inbound(s, Kept(a)), dial, Other(a))
    ensures OnlyPeer(s', s.table, Kept(a), true) && s'.local == s.local && Other(a) in s'.table.closedConns
  {
    NotConnected(s.table, a);
    InboundKeeps(s, Kept(a));
    OutboundKeeps(Inbound(s, Kept(a)), dial, Other(a));
  }

  /** The state after the deliveries of the failing run: each server accepts the other's link first. */
  function Crossed(sys: System): System {
    sys.(low := Outbound(Inbound(sys.low, Other(sys.high.local)), sys.lowDial, Kept(sys.high.local)),
         high := Outbound(Inbound(sys.high, Kept(sys.low.local)), sys.highDial, Other(sys.low.local)),
         got := ALL_REPORTED)
  }

  function CrossedDeliveries(rest: seq<SysEvent>): seq<SysEvent> {
    [Deliver(LowOther)] + ([Deliver(LowKept)] + ([Deliver(HighKept)] + ([Deliver(HighOther)] + rest)))
  }

  lemma CrossedRun(sys: System, rest: seq<SysEvent>, sys': System)
    requires sys.got == Reported(false, false, true, false, false, true) && SysRun(Crossed(sys), rest, sys')
    ensures SysRun(sys, CrossedDeliveries(rest), sys')
  {
    var s1 := SysStep(sys, Deliver(LowOther));
    SameLocal(sys.low, None, Other(sys.high.local));
    var s2 := SysStep(s1, Deliver(LowKept));
    SameLocal(s1.low, sys.lowDial, Kept(sys.high.local));
    var s3 := SysStep(s2, Deliver(HighKept));
    SameLocal(sys.high, None, Kept(sys.low.local));
    assert SysStep(s3, Deliver(HighOther)) == Crossed(sys);
    Prepend(s3, Deliver(HighOther), rest, sys');
    Prepend(s2, Deliver(HighKept), [Deliver(HighOther)] + rest, sys');
    Prepend(s1, Deliver(LowKept), [Deliver(HighKept)] + ([Deliver(HighOther)] + rest), sys');
    Prepend(sys, Deliver(LowOther), [Deliver(LowKept)] + ([Deliver(HighKept)] + ([Deliver(HighOther)] + rest)), sys');
  }

  /** When the smaller key's link was dialled for a connection request, the run in which each server
      accepts the other's link first ends with no connection between the two at all. */
  lemma RequestedDialCanFail(sys: System) returns (events: seq<SysEvent>, sys': System)
    requires Start(sys) && sys.lowDial.Some? && !sys.again
    ensures SysRun(sys, events, sys') && Parted(sys')
  {
    var a, b, crossed := sys.low.local, sys.high.local, Crossed(sys);
    LowComesFirst(sys);
    LowCrossed(sys.low, b, sys.lowDial, crossed.low);
    HighCrossed(sys.high, a, sys.highDial, crossed.high);
    sys' := BothAbandon(crossed, sys.low.table, Other(b), true, sys.high.table, Kept(a), true);
    var rest := [Watching(true, sys.low.table, Other(b), true)] + ([Watching(false, sys.high.table, Kept(a), true)] + []);
    CrossedRun(sys, rest, sys');
    events := CrossedDeliveries(rest);
  }

  // ----- a second direct dial

  /** The smaller key accepts its second link first, and then no other. */
  lemma LowTwice(s: State, b: NodeID, dial: Option<nat>, s': State)
    requires Inv(s) && !HasWatcher(s.table, b) && !ShouldDropLocal(s.local, b)
    requires s' == Inbound(Outbound(Outbound(s, None, Again(b)), dial, Kept(b)), Other(b))
    ensures OnlyPeer(s', s.table, Again(b), false) && s'.local == s.local && Kept(b) in s'.table.closedConns
  {
    NotConnected(s.table, b);
    OutboundKeeps(s, None, Again(b));
    OutboundKeeps(Outbound(s, None, Again(b)), dial, Kept(b));
    InboundKeeps(Outbound(Outbound(s, None, Again(b)), dial, Kept(b)), Other(b));
  }

  /** The greater key accepts the first link first, and then no other. */
  lemma HighTwice(s: State, a: NodeID, dial: Option<nat>, s': State)
    requires Inv(s) && !HasWatcher(s.table, a) && ShouldDropLocal(s.local, a)
    requires s' == Outbound(Inbound(Inbound(s, Kept(a)), Again(a)), dial, Other(a))
    ensures OnlyPeer(s', s.table, Kept(a), true) && s'.local == s.local && Again(a) in s'.table.closedConns
  {
    NotConnected(s.table, a);
    InboundKeeps(s, Kept(a));
    InboundKeeps(Inbound(s, Kept(a)), Again(a));
    OutboundKeeps(Inbound(Inbound(s, Kept(a)), Again(a)), dial, Other(a));
  }

  function Twice(sys: System): System {
    var a, b := sys.low.local, sys.high.local;
    sys.(low := Inbound(Outbound(Outbound(sys.low, None, Again(b)), sys.lowDial, Kept(b)), Other(b)),
         high := Outbound(Inbound(Inbound(sys.high, Kept(a)), Again(a)), sys.highDial, Other(a)),
         got := ALL_REPORTED)
  }

  function LowTwiceDeliveries(rest: seq<SysEvent>): seq<SysEvent> {
    [Deliver(LowAgain)] + ([Deliver(LowKept)] + ([Deliver(LowOther)] + rest))
  }

  function HighTwiceDeliveries(rest: seq<SysEvent>): seq<SysEvent> {
    [Deliver(HighKept)] + ([Deliver(HighAgain)] + ([Deliver(HighOther)] + rest))
  }

  lemma LowTwiceRun(sys: System, mid: System, rest: seq<SysEvent>, sys': System)
    requires sys.got == Reported(false, false, false, false, false, false) && SysRun(mid, rest, sys')
    requires mid == sys.(low := Inbound(Outbound(Outbound(sys.low, None, Again(sys.high.local)), sys.lowDial,
                                        Kept(sys.high.local)), Other(sys.high.local)),
                         got := Reported(true, true, true, false, false, false))
    ensures SysRun(sys, LowTwiceDeliveries(rest), sys')
  {
    var s1 := SysStep(sys, Deliver(LowAgain));
    var s2 := SysStep(s1, Deliver(LowKept));
    assert SysStep(s2, Deliver(LowOther)) == mid;
    Prepend(s2, Deliver(LowOther), rest, sys');
    Prepend(s1, Deliver(LowKept), [Deliver(LowOther)] + rest, sys');
    Prepend(sys, Deliver(LowAgain), [Deliver(LowKept)] + ([Deliver(LowOther)] + rest), sys');
  }

  lemma HighTwiceRun(sys: System, mid: System, rest: seq<SysEvent>, sys': System)
    requires sys.got == Reported(true, true, true, false, false, false) && SysRun(mid, rest, sys')
    requires mid == sys.(high := Outbound(Inbound(Inbound(sys.high, Kept(sys.low.local)), Again(sys.low.local)),
                                          sys.highDial, Other(sys.low.local)), got := ALL_REPORTED)
    ensures SysRun(sys, HighTwiceDeliveries(rest), sys')
  {
    var s1 := SysStep(sys, Deliver(HighKept));
    var s2 := SysStep(s1, Deliver(HighAgain));
    assert SysStep(s2, Deliver(HighOther)) == mid;
    Prepend(s2, Deliver(HighOther), rest, sys');
    Prepend(s1, Deliver(HighAgain), [Deliver(HighOther)] + rest, sys');
    Prepend(sys, Deliver(HighKept), [Deliver(HighAgain)] + ([Deliver(HighOther)] + rest), sys');
  }

  /** When the smaller key dials twice, the run in which the two servers accept different ones of its links first
      ends with no connection between the two either: each closes the link that the other holds. */
  lemma SecondDialCanFail(sys: System) returns (events: seq<SysEvent>, sys': System)
    requires Start(sys) && sys.again
    ensures SysRun(sys, events, sys') && Parted(sys')
  {
    var a, b, twice := sys.low.local, sys.high.local, Twice(sys);
    LowComesFirst(sys);
    LowTwice(sys.low, b, sys.lowDial, twice.low);
    HighTwice(sys.high, a, sys.highDial, twice.high);
    sys' := BothAbandon(twice, sys.low.table, Again(b), false, sys.high.table, Kept(a), true);
    var rest := [Watching(true, sys.low.table, Again(b), false)] + ([Watching(false, sys.high.table, Kept(a), true)] + []);
    var mid := sys.(low := twice.low, got := Reported(true, true, true, false, false, false));
    HighTwiceRun(mid, twice, rest, sys');
    LowTwiceRun(sys, mid, HighTwiceDeliveries(rest), sys');
    events := LowTwiceDeliveries(HighTwiceDeliveries(rest));
  }

  // ----- the exact condition

  /** In every interleaving, whatever has come to rest is in agreement. */
  ghost predicate AlwaysAgrees(sys: System) {
    forall events, sys' :: SysRun(sys, events, sys') && Quiescent(sys') ==> Agree(sys')
  }

  lemma Refuted(sys: System, events: seq<SysEvent>, sys': System)
    requires SysRun(sys, events, sys') && Parted(sys')
    ensures !AlwaysAgrees(sys)
  {
    PartedForGood(sys');
  }

  /** The tie-break works in every interleaving exactly when the smaller key dialled once, and directly. */
  lemma AgreementIff(sys: System)
    requires Start(sys)
    ensures AlwaysAgrees(sys) <==> sys.lowDial.None? && !sys.again
  {
    if sys.again {
      var events, sys' := SecondDialCanFail(sys);
      Refuted(sys, events, sys');
    } else if sys.lowDial.Some? {
      var events, sys' := RequestedDialCanFail(sys);
      Refuted(sys, events, sys');
    } else {
      forall events, sys' | SysRun(sys, events, sys') && Quiescent(sys') ensures Agree(sys') {
        Agreement(sys, events, sys');
      }
    }
  }
}
