/** The peer registry of server.go: the maps guarded by the server mutex, and the critical sections
    that change them, up to shutdown. */
module Registry {
  import opened Bytes

  /** An established network connection with the node that owns the key. */
  datatype Conn = Conn(id: nat, key: NodeID)

  /** A peer object; the id stands for its address in memory. */
  datatype Peer = Peer(id: nat, key: NodeID, inbound: bool, conn: Conn)

  /** A connection callback: peerConnected(conn, _, inbound). */
  datatype Callback = Callback(conn: Conn, inbound: bool)

  // ----- the peer maps

  /** peersByPub, inboundPeers, outboundPeers, ignorePeerTermination and scheduledPeerConnection,
      with the peers whose termination watcher has not finished and the connections closed so far. */
  datatype Table = Table(
    peersByPub: map<NodeID, Peer>,
    inboundPeers: map<NodeID, Peer>,
    outboundPeers: map<NodeID, Peer>,
    ignorePeerTermination: set<Peer>,
    scheduledPeerConnection: map<NodeID, Callback>,
    watchers: set<Peer>,
    closedConns: set<Conn>,
    nextPeer: nat)

  const EMPTY_TABLE := Table(map[], map[], map[], {}, map[], {}, {}, 0)

  /** removePeer: disconnects the peer and deletes whatever its key maps to. */
  function RemovePeer(t: Table, p: Peer): Table {
    t.(peersByPub := t.peersByPub - {p.key},
       inboundPeers := if p.inbound then t.inboundPeers - {p.key} else t.inboundPeers,
       outboundPeers := if p.inbound then t.outboundPeers else t.outboundPeers - {p.key},
       closedConns := t.closedConns + {p.conn})
  }

  /** peerConnected: creates a peer, adds it with addPeer and starts its termination watcher. */
  function PeerConnected(t: Table, conn: Conn, inbound: bool): Table {
    var p := Peer(t.nextPeer, conn.key, inbound, conn);
    t.(peersByPub := t.peersByPub[p.key := p],
       inboundPeers := if inbound then t.inboundPeers[p.key := p] else t.inboundPeers,
       outboundPeers := if inbound then t.outboundPeers else t.outboundPeers[p.key := p],
       watchers := t.watchers + {p},
       nextPeer := t.nextPeer + 1)
  }

  function CloseConn(t: Table, conn: Conn): Table {
    t.(closedConns := t.closedConns + {conn})
  }

  /** Removing the connected peer in favour of a connection that waits for its watcher. */
  function Displace(t: Table, p: Peer, conn: Conn, inbound: bool): Table {
    var t' := RemovePeer(t, p);
    t'.(ignorePeerTermination := t'.ignorePeerTermination + {p},
        scheduledPeerConnection := t'.scheduledPeerConnection[conn.key := Callback(conn, inbound)])
  }

  /** The end of peerTerminationWatcher as far as the peer maps go. */
  function WatcherDone(t: Table, p: Peer): Table {
    var t' := t.(watchers := t.watchers - {p});
    if p in t.ignorePeerTermination then
      var t'' := t'.(ignorePeerTermination := t'.ignorePeerTermination - {p});
      if p.key in t.scheduledPeerConnection then
        var cb := t.scheduledPeerConnection[p.key];
        PeerConnected(t''.(scheduledPeerConnection := t''.scheduledPeerConnection - {p.key}), cb.conn, cb.inbound)
      else t''
    else RemovePeer(t', p)
  }

  /** bytes.Compare(a, b) > 0 on two serialized keys. */
  predicate Greater(a: seq<byte>, b: seq<byte>) {
    if a == [] then false
    else if b == [] then true
    else a[0] > b[0] || (a[0] == b[0] && Greater(a[1..], b[1..]))
  }

  /** shouldDropLocalConnection: the connection of the node with the smaller key is kept. */
  predicate ShouldDropLocal(local: NodeID, remote: NodeID) {
    Greater(local.key, remote.key)
  }

  /** Of two different keys exactly one is greater, so that both ends drop the same connection. */
  lemma {:induction false} GreaterTotal(a: seq<byte>, b: seq<byte>)
    requires a != b
    ensures Greater(a, b) <==> !Greater(b, a)
  {
    if a != [] && b != [] && a[0] == b[0] {
      assert a == [a[0]] + a[1..] && b == [b[0]] + b[1..];
      GreaterTotal(a[1..], b[1..]);
    }
  }

  /** a comes before b in the order of serialized keys: at the first difference it has the smaller byte, or it ends
      there. */
  ghost predicate Before(a: seq<byte>, b: seq<byte>) {
    exists i: nat :: FirstDifference(a, b, i)
  }

  ghost predicate FirstDifference(a: seq<byte>, b: seq<byte>, i: nat) {
    i <= |a| && i < |b| && a[..i] == b[..i] && (i == |a| || a[i] < b[i])
  }

  /** The local connection is dropped exactly when the remote key comes first. */
  lemma DropLocalIff(local: NodeID, remote: NodeID)
    ensures ShouldDropLocal(local, remote) <==> Before(remote.key, local.key)
  {
    GreaterIff(local.key, remote.key);
  }

  lemma {:induction false} GreaterIff(a: seq<byte>, b: seq<byte>)
    ensures Greater(a, b) <==> Before(b, a)
    decreases |a|
  {
    if a != [] && (b == [] || a[0] > b[0]) {
      assert FirstDifference(b, a, 0);
    } else if a != [] && a[0] == b[0] {
      GreaterIff(a[1..], b[1..]);
      SameStart(b, a);
    }
  }

  /** Equal first bytes do not matter. */
  lemma SameStart(a: seq<byte>, b: seq<byte>)
    requires a != [] && b != [] && a[0] == b[0]
    ensures Before(a, b) <==> Before(a[1..], b[1..])
  {
    if Before(a, b) {
      var i: nat :| FirstDifference(a, b, i);
      assert i > 0;
      assert a[1..][..i - 1] == a[..i][1..] && b[1..][..i - 1] == b[..i][1..];
      assert FirstDifference(a[1..], b[1..], i - 1);
    }
    if Before(a[1..], b[1..]) {
      var i: nat :| FirstDifference(a[1..], b[1..], i);
      assert a[..i + 1] == [a[0]] + a[1..][..i] && b[..i + 1] == [b[0]] + b[1..][..i];
      assert FirstDifference(a, b, i + 1);
    }
  }

  /** So of two keys at most one comes first. */
  lemma BeforeIsStrict(a: seq<byte>, b: seq<byte>)
    requires Before(a, b)
    ensures a != b && !Before(b, a)
  {
    var i: nat :| FirstDifference(a, b, i);
    if i == |a| { assert a == a[..i]; }
    GreaterIff(b, a);
    GreaterIff(a, b);
    GreaterTotal(a, b);
  }

  /** The outcome of a connection attempt that reaches the tie-break. */
  function Admit(t: Table, local: NodeID, conn: Conn, inbound: bool): Table {
    if conn.key !in t.peersByPub then PeerConnected(t, conn, inbound)
    else if inbound != ShouldDropLocal(local, conn.key) then CloseConn(t, conn)
    else Displace(t, t.peersByPub[conn.key], conn, inbound)
  }

  /** peersByPub is the disjoint union of inboundPeers and outboundPeers. */
  ghost predicate Directions(t: Table) {
    && (forall k :: k in t.peersByPub ==> t.peersByPub[k].key == k)
    && (forall k :: k in t.inboundPeers <==> k in t.peersByPub && t.peersByPub[k].inbound)
    && (forall k :: k in t.outboundPeers <==> k in t.peersByPub && !t.peersByPub[k].inbound)
    && (forall k :: k in t.inboundPeers ==> t.inboundPeers[k] == t.peersByPub[k])
    && (forall k :: k in t.outboundPeers ==> t.outboundPeers[k] == t.peersByPub[k])
  }

  /** A key has a scheduled connection exactly when one of its peers is ignored, and then it is not
      connected. */
  ghost predicate Waiting(t: Table) {
    && (forall p :: p in t.ignorePeerTermination ==> p.key in t.scheduledPeerConnection && p in t.watchers)
    && (forall k :: k in t.scheduledPeerConnection ==>
          t.scheduledPeerConnection[k].conn.key == k && k !in t.peersByPub && IgnoredFor(t, k))
  }

  ghost predicate IgnoredFor(t: Table, k: NodeID) {
    exists p :: p in t.ignorePeerTermination && p.key == k
  }

  /** The outstanding watchers are those of the connected and of the ignored peers, one per key. */
  ghost predicate Watched(t: Table) {
    && (forall p :: p in t.watchers ==> p.id < t.nextPeer && p.conn.key == p.key)
    && (forall p :: p in t.watchers && p !in t.ignorePeerTermination ==>
          p.key in t.peersByPub && t.peersByPub[p.key] == p)
    && (forall k :: k in t.peersByPub ==> t.peersByPub[k] in t.watchers)
    && (forall p, q :: p in t.watchers && q in t.watchers && p.key == q.key ==> p == q)
  }

  /** The invariant of the peer maps. */
  ghost predicate TableInv(t: Table) {
    Directions(t) && Waiting(t) && Watched(t)
  }

  lemma ConnectedDirections(t: Table, conn: Conn, inbound: bool)
    requires Directions(t) && conn.key !in t.peersByPub
    ensures Directions(PeerConnected(t, conn, inbound))
  {}

  lemma ConnectedWaiting(t: Table, conn: Conn, inbound: bool)
    requires Waiting(t) && conn.key !in t.scheduledPeerConnection
    ensures Waiting(PeerConnected(t, conn, inbound))
  {
    var t' := PeerConnected(t, conn, inbound);
    forall k | k in t'.scheduledPeerConnection ensures IgnoredFor(t', k) {
      assert IgnoredFor(t, k);
    }
  }

  lemma ConnectedWatched(t: Table, conn: Conn, inbound: bool)
    requires Waiting(t) && Watched(t) && conn.key !in t.peersByPub && conn.key !in t.scheduledPeerConnection
    ensures Watched(PeerConnected(t, conn, inbound))
  {}

  lemma PeerConnectedKeeps(t: Table, conn: Conn, inbound: bool)
    requires TableInv(t) && conn.key !in t.peersByPub && conn.key !in t.scheduledPeerConnection
    ensures TableInv(PeerConnected(t, conn, inbound))
  {
    ConnectedDirections(t, conn, inbound);
    ConnectedWaiting(t, conn, inbound);
    ConnectedWatched(t, conn, inbound);
  }

  lemma RemoveDirections(t: Table, p: Peer)
    requires Directions(t) && p.key in t.peersByPub && t.peersByPub[p.key] == p
    ensures Directions(RemovePeer(t, p))
  {}

  lemma DisplaceWaiting(t: Table, p: Peer, conn: Conn, inbound: bool)
    requires Waiting(t) && conn.key !in t.scheduledPeerConnection && p.key == conn.key && p in t.watchers
    ensures Waiting(Displace(t, p, conn, inbound))
  {
    var t' := Displace(t, p, conn, inbound);
    assert p in t'.ignorePeerTermination;
    forall k | k in t'.scheduledPeerConnection && k != conn.key ensures IgnoredFor(t', k) {
      assert IgnoredFor(t, k);
      var q :| q in t.ignorePeerTermination && q.key == k;
      assert q in t'.ignorePeerTermination;
    }
  }

  lemma DisplaceWatched(t: Table, p: Peer, conn: Conn, inbound: bool)
    requires Directions(t) && Watched(t) && p.key == conn.key && p.key in t.peersByPub && t.peersByPub[p.key] == p
    ensures Watched(Displace(t, p, conn, inbound))
  {}

  lemma DisplaceKeeps(t: Table, p: Peer, conn: Conn, inbound: bool)
    requires TableInv(t) && conn.key in t.peersByPub && t.peersByPub[conn.key] == p
    requires conn.key !in t.scheduledPeerConnection
    ensures TableInv(Displace(t, p, conn, inbound))
  {
    RemoveDirections(t, p);
    DisplaceWaiting(t, p, conn, inbound);
    DisplaceWatched(t, p, conn, inbound);
  }

  lemma AdmitKeeps(t: Table, local: NodeID, conn: Conn, inbound: bool)
    requires TableInv(t) && conn.key !in t.scheduledPeerConnection
    ensures TableInv(Admit(t, local, conn, inbound))
  {
    if conn.key !in t.peersByPub {
      PeerConnectedKeeps(t, conn, inbound);
    } else if inbound != ShouldDropLocal(local, conn.key) {
      CloseKeeps(t, conn);
    } else {
      DisplaceKeeps(t, t.peersByPub[conn.key], conn, inbound);
    }
  }

  lemma CloseKeeps(t: Table, conn: Conn)
    requires TableInv(t)
    ensures TableInv(CloseConn(t, conn))
  {
    var t' := CloseConn(t, conn);
    forall k | k in t'.scheduledPeerConnection ensures IgnoredFor(t', k) {
      assert IgnoredFor(t, k);
    }
  }

  /** Each key has one outstanding watcher at most, so the peer that an unignored watcher removes is
      the one it watched, and no other key is touched. */
  lemma WatcherOwns(t: Table, p: Peer)
    requires TableInv(t) && p in t.watchers && p !in t.ignorePeerTermination
    ensures p.key in t.peersByPub && t.peersByPub[p.key] == p
    ensures WatcherDone(t, p).peersByPub == t.peersByPub - {p.key}
  {}

  lemma RemovedWaiting(t: Table, t': Table, p: Peer)
    requires Waiting(t) && p !in t.ignorePeerTermination
    requires t' == RemovePeer(t.(watchers := t.watchers - {p}), p)
    ensures Waiting(t')
  {
    forall k | k in t'.scheduledPeerConnection ensures IgnoredFor(t', k) {
      assert IgnoredFor(t, k);
    }
  }

  lemma RemovedWatched(t: Table, t': Table, p: Peer)
    requires Directions(t) && Watched(t) && p in t.watchers && p !in t.ignorePeerTermination
    requires t' == RemovePeer(t.(watchers := t.watchers - {p}), p)
    ensures Watched(t')
  {}

  lemma RemovedKeeps(t: Table, t': Table, p: Peer)
    requires TableInv(t) && p in t.watchers && p !in t.ignorePeerTermination
    requires t' == RemovePeer(t.(watchers := t.watchers - {p}), p)
    ensures TableInv(t')
  {
    RemoveDirections(t.(watchers := t.watchers - {p}), p);
    RemovedWaiting(t, t', p);
    RemovedWatched(t, t', p);
  }

  lemma UnscheduleKeeps(t: Table, p: Peer, t1: Table)
    requires TableInv(t) && p in t.ignorePeerTermination
    requires t1 == t.(watchers := t.watchers - {p}, ignorePeerTermination := t.ignorePeerTermination - {p},
                      scheduledPeerConnection := t.scheduledPeerConnection - {p.key})
    ensures Directions(t1) && Waiting(t1) && Watched(t1)
  {
    forall k | k in t1.scheduledPeerConnection ensures IgnoredFor(t1, k) {
      assert IgnoredFor(t, k);
      var q :| q in t.ignorePeerTermination && q.key == k;
      assert q in t1.ignorePeerTermination;
    }
  }

  lemma WatcherKeeps(t: Table, p: Peer)
    requires TableInv(t) && p in t.watchers
    ensures TableInv(WatcherDone(t, p))
  {
    if p in t.ignorePeerTermination {
      var t1 := t.(watchers := t.watchers - {p}, ignorePeerTermination := t.ignorePeerTermination - {p},
                   scheduledPeerConnection := t.scheduledPeerConnection - {p.key});
      UnscheduleKeeps(t, p, t1);
      PeerConnectedKeeps(t1, t.scheduledPeerConnection[p.key].conn, t.scheduledPeerConnection[p.key].inbound);
    } else {
      RemovedKeeps(t, WatcherDone(t, p), p);
    }
  }
}
