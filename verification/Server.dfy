/** The registry as a whole: every critical section of server.go that changes it, as one step of a
    state machine, and what all runs of these steps keep. */
module Server {
  import opened Options
  import opened Bytes
  import opened Registry
  import opened Channels
  import opened Backoff

  /** persistentPeers, persistentPeersBackoff and persistentConnReqs. */
  datatype Persist = Persist(
    peers: map<NodeID, bool>,
    backoff: map<NodeID, int>,
    connReqs: map<NodeID, seq<nat>>)

  datatype State = State(local: NodeID, cfg: Config, table: Table, signals: Signals, persist: Persist)

  function Init(local: NodeID, cfg: Config): State {
    State(local, cfg, EMPTY_TABLE, NO_SIGNALS, Persist(map[], map[], map[]))
  }

  /** The critical sections, with the choices that the environment makes. */
  datatype Event =
    | InboundConnected(conn: Conn)
    | OutboundConnected(request: Option<nat>, conn: Conn)
    | Terminated(peer: Peer, addrsFound: bool, lasted: Option<nat>, randFails: bool)
    | NotifyOffline(key: NodeID)
    | DisconnectPeer(key: NodeID)
    | PrunePersistent(key: NodeID)
    | ConnectPermanent(key: NodeID, connReq: nat)
    | MarkPersistent(key: NodeID)
    | WatchNewChannel(key: NodeID)
    | RetryConnect(key: NodeID, connReqs: seq<nat>)
    | AddConnReq(key: NodeID, connReq: nat)

  /** cancelConnReqs. */
  function CancelConnReqs(s: State, key: NodeID): State {
    s.(signals := CancelRetry(s.signals, key), persist := s.persist.(connReqs := s.persist.connReqs - {key}))
  }

  function WithTable(s: State, t: Table): State {
    s.(table := t)
  }

  /** InboundPeerConnected. */
  function Inbound(s: State, conn: Conn): State {
    var t, k := s.table, conn.key;
    if k in t.inboundPeers || k in t.scheduledPeerConnection then WithTable(s, CloseConn(t, conn))
    else if k in t.peersByPub && !ShouldDropLocal(s.local, k) then WithTable(s, CloseConn(t, conn))
    else WithTable(CancelConnReqs(s, k), Admit(t, s.local, conn, true))
  }

  /** OutboundPeerConnected. The pending requests are cancelled before the tie-break. */
  function Outbound(s: State, connReq: Option<nat>, conn: Conn): State {
    var t, k := s.table, conn.key;
    if k in t.outboundPeers then WithTable(s, CloseConn(t, conn))
    else if k !in s.persist.connReqs && connReq.Some? then WithTable(s, CloseConn(t, conn))
    else if k in t.scheduledPeerConnection then WithTable(s, CloseConn(t, conn))
    else WithTable(CancelConnReqs(s, k), Admit(t, s.local, conn, false))
  }

  function Previous(p: Persist, key: NodeID): Option<int> {
    if key in p.backoff then Some(p.backoff[key]) else None
  }

  /** The critical section of peerTerminationWatcher. */
  function Terminate(s: State, p: Peer, addrsFound: bool, lasted: Option<nat>, randFails: bool): State
    requires Previous(s.persist, p.key).Some? ==> Doubled(s.persist.backoff[p.key], s.cfg.maxBackoff) >= 10
  {
    var s' := Cleaned(s, p);
    if p in s.table.ignorePeerTermination || p.key !in s.persist.peers || !addrsFound then s'
    else
      var b := NextPeerBackoff(s.cfg, Previous(s.persist, p.key), lasted, randFails);
      s'.(signals := EnsureRetry(s'.signals, p.key),
          persist := s'.persist.(backoff := s'.persist.backoff[p.key := b]))
  }

  function Forget(s: State, key: NodeID): State {
    s.(persist := s.persist.(peers := s.persist.peers - {key}, backoff := s.persist.backoff - {key}))
  }

  function DefaultBackoff(s: State, key: NodeID): map<NodeID, int> {
    if key in s.persist.backoff then s.persist.backoff else s.persist.backoff[key := s.cfg.minBackoff]
  }

  function AppendReq(p: Persist, key: NodeID, connReq: nat): map<NodeID, seq<nat>> {
    p.connReqs[key := (if key in p.connReqs then p.connReqs[key] else []) + [connReq]]
  }

  /** DisconnectPeer: an error, and no change, when the peer is not connected. */
  function Disconnect(s: State, key: NodeID): State {
    if key !in s.table.peersByPub then s
    else WithTable(Forget(CancelConnReqs(s, key), key), CloseConn(s.table, s.table.peersByPub[key].conn))
  }

  /** prunePersistentPeerConnection: only for peers that were not requested as permanent. */
  function Prune(s: State, key: NodeID): State {
    if key in s.persist.peers && !s.persist.peers[key] then CancelConnReqs(Forget(s, key), key) else s
  }

  /** ConnectToPeer with perm set: an error, and no change, when the peer is connected. */
  function ConnectPerm(s: State, key: NodeID, connReq: nat): State {
    if key in s.table.peersByPub then s
    else s.(persist := Persist(s.persist.peers[key := true], DefaultBackoff(s, key), AppendReq(s.persist, key, connReq)))
  }

  /** NotifyWhenOffline. */
  function Notified(s: State, key: NodeID): State {
    s.(signals := Notify(s.signals, key, key in s.table.peersByPub))
  }

  function Step(s: State, e: Event): State
    requires Enabled(s, e)
  {
    match e
    case InboundConnected(conn) => Inbound(s, conn)
    case OutboundConnected(connReq, conn) => Outbound(s, connReq, conn)
    case Terminated(p, addrsFound, lasted, randFails) => Terminate(s, p, addrsFound, lasted, randFails)
    case NotifyOffline(key) => Notified(s, key)
    case DisconnectPeer(key) => Disconnect(s, key)
    case PrunePersistent(key) => Prune(s, key)
    case ConnectPermanent(key, connReq) => ConnectPerm(s, key, connReq)
    case MarkPersistent(key) =>
      s.(persist := s.persist.(peers := s.persist.peers[key := false], backoff := DefaultBackoff(s, key)))
    case WatchNewChannel(key) =>
      if key in s.persist.peers then s else s.(persist := s.persist.(peers := s.persist.peers[key := false]))
    case RetryConnect(key, connReqs) =>
      s.(signals := EnsureRetry(s.signals, key),
         persist := s.persist.(connReqs := s.persist.connReqs[key := connReqs]))
    case AddConnReq(key, connReq) => s.(persist := s.persist.(connReqs := AppendReq(s.persist, key, connReq)))
  }

  /** A watcher runs once, after its peer has gone; everything else may happen at any time. The
      second conjunct is what rand.Int demands when a backoff is computed. */
  predicate Enabled(s: State, e: Event) {
    match e
    case Terminated(p, _, _, _) =>
      p in s.table.watchers
      && (Previous(s.persist, p.key).Some? ==> Doubled(s.persist.backoff[p.key], s.cfg.maxBackoff) >= 10)
    case _ => true
  }

  ghost predicate PersistInv(cfg: Config, p: Persist) {
    && p.backoff.Keys <= p.peers.Keys
    && forall k :: k in p.backoff ==> Backoff.InRange(cfg, p.backoff[k])
  }

  /** A listener waits only for keys that still have an outstanding watcher. */
  ghost predicate ListenersWatched(t: Table, c: Signals) {
    forall k :: k in c.listeners ==> HasWatcher(t, k)
  }

  ghost predicate HasWatcher(t: Table, k: NodeID) {
    exists p :: p in t.watchers && p.key == k
  }

  /** What every run keeps. */
  ghost predicate Inv(s: State) {
    && ValidConfig(s.cfg)
    && TableInv(s.table)
    && SignalInv(s.signals)
    && PersistInv(s.cfg, s.persist)
    && ListenersWatched(s.table, s.signals)
  }

  /** Watchers of other keys survive every change of the table. */
  ghost predicate WatchersGrow(t: Table, t': Table) {
    t.watchers <= t'.watchers
  }

  lemma StillWatched(t: Table, t': Table, c: Signals, c': Signals)
    requires ListenersWatched(t, c) && WatchersGrow(t, t') && c'.listeners.Keys <= c.listeners.Keys
    ensures ListenersWatched(t', c')
  {
    forall k | k in c'.listeners ensures HasWatcher(t', k) {
      assert HasWatcher(t, k);
      var p :| p in t.watchers && p.key == k;
      assert p in t'.watchers;
    }
  }

  lemma CancelKeepsAll(s: State, key: NodeID)
    requires Inv(s)
    ensures Inv(CancelConnReqs(s, key))
  {
    CancelKeeps(s.signals, key);
    StillWatched(s.table, s.table, s.signals, CancelConnReqs(s, key).signals);
  }

  lemma TableStep(s: State, t: Table)
    requires Inv(s) && TableInv(t) && WatchersGrow(s.table, t)
    ensures Inv(WithTable(s, t))
  {
    StillWatched(s.table, t, s.signals, s.signals);
  }

  lemma ClosedKeeps(s: State, conn: Conn)
    requires Inv(s)
    ensures Inv(WithTable(s, CloseConn(s.table, conn)))
  {
    CloseKeeps(s.table, conn);
    TableStep(s, CloseConn(s.table, conn));
  }

  lemma AdmittedKeeps(s: State, conn: Conn, inbound: bool)
    requires Inv(s) && conn.key !in s.table.scheduledPeerConnection
    ensures Inv(WithTable(CancelConnReqs(s, conn.key), Admit(s.table, s.local, conn, inbound)))
  {
    CancelKeepsAll(s, conn.key);
    AdmitKeeps(s.table, s.local, conn, inbound);
    TableStep(CancelConnReqs(s, conn.key), Admit(s.table, s.local, conn, inbound));
  }

  lemma InboundKeeps(s: State, conn: Conn)
    requires Inv(s)
    ensures Inv(Inbound(s, conn))
  {
    ClosedKeeps(s, conn);
    if conn.key !in s.table.scheduledPeerConnection { AdmittedKeeps(s, conn, true); }
  }

  lemma OutboundKeeps(s: State, connReq: Option<nat>, conn: Conn)
    requires Inv(s)
    ensures Inv(Outbound(s, connReq, conn))
  {
    ClosedKeeps(s, conn);
    if conn.key !in s.table.scheduledPeerConnection { AdmittedKeeps(s, conn, false); }
  }

  /** A watcher that finishes takes the listeners of its key with it. */
  lemma ReleasedWatched(t: Table, c: Signals, p: Peer)
    requires ListenersWatched(t, c) && SignalInv(c) && p in t.watchers
    ensures ListenersWatched(WatcherDone(t, p), Release(c, p.key))
  {
    ReleaseKeeps(c, p.key);
    var t', c' := WatcherDone(t, p), Release(c, p.key);
    forall k | k in c'.listeners ensures HasWatcher(t', k) {
      assert HasWatcher(t, k);
      var q :| q in t.watchers && q.key == k;
      assert q in t'.watchers;
    }
  }

  /** The part of peerTerminationWatcher before reconnection. */
  function Cleaned(s: State, p: Peer): State {
    s.(signals := Release(s.signals, p.key), table := WatcherDone(s.table, p))
  }

  lemma CleanedKeeps(s: State, p: Peer)
    requires Inv(s) && p in s.table.watchers
    ensures Inv(Cleaned(s, p))
  {
    WatcherKeeps(s.table, p);
    ReleaseKeeps(s.signals, p.key);
    ReleasedWatched(s.table, s.signals, p);
  }

  lemma ReconnectKeeps(s: State, key: NodeID, b: int)
    requires Inv(s) && Backoff.InRange(s.cfg, b) && key in s.persist.peers
    ensures Inv(s.(signals := EnsureRetry(s.signals, key),
                   persist := s.persist.(backoff := s.persist.backoff[key := b])))
  {
    EnsureKeeps(s.signals, key);
    StillWatched(s.table, s.table, s.signals, EnsureRetry(s.signals, key));
  }

  lemma TerminateKeeps(s: State, p: Peer, addrsFound: bool, lasted: Option<nat>, randFails: bool)
    requires Inv(s) && p in s.table.watchers
    ensures Enabled(s, Terminated(p, addrsFound, lasted, randFails))
    ensures Inv(Terminate(s, p, addrsFound, lasted, randFails))
  {
    NextInRange(s.cfg, Previous(s.persist, p.key), lasted, randFails);
    CleanedKeeps(s, p);
    if p.key in s.persist.peers {
      ReconnectKeeps(Cleaned(s, p), p.key, NextPeerBackoff(s.cfg, Previous(s.persist, p.key), lasted, randFails));
    }
  }

  lemma NotifiedKeeps(s: State, key: NodeID)
    requires Inv(s)
    ensures Inv(Notified(s, key))
  {
    var connected := key in s.table.peersByPub;
    NotifyKeeps(s.signals, key, connected);
    var c' := Notify(s.signals, key, connected);
    forall k | k in c'.listeners ensures HasWatcher(s.table, k) {
      if k in s.signals.listeners {
        assert HasWatcher(s.table, k);
      } else {
        assert s.table.peersByPub[k] in s.table.watchers;
      }
    }
  }

  lemma DisconnectKeeps(s: State, key: NodeID)
    requires Inv(s)
    ensures Inv(Disconnect(s, key))
  {
    if key in s.table.peersByPub {
      CancelKeepsAll(s, key);
      var s1 := Forget(CancelConnReqs(s, key), key);
      ClosedKeeps(s1, s.table.peersByPub[key].conn);
    }
  }

  lemma PruneKeeps(s: State, key: NodeID)
    requires Inv(s)
    ensures Inv(Prune(s, key))
  {
    CancelKeepsAll(Forget(s, key), key);
  }

  lemma RetryKeeps(s: State, key: NodeID, connReqs: seq<nat>)
    requires Inv(s)
    ensures Inv(Step(s, RetryConnect(key, connReqs)))
  {
    EnsureKeeps(s.signals, key);
    StillWatched(s.table, s.table, s.signals, EnsureRetry(s.signals, key));
  }

  /** Every step keeps the invariant. */
  lemma StepKeeps(s: State, e: Event)
    requires Inv(s) && Enabled(s, e)
    ensures Inv(Step(s, e))
  {
    match e
    case InboundConnected(conn) => InboundKeeps(s, conn);
    case OutboundConnected(connReq, conn) => OutboundKeeps(s, connReq, conn);
    case Terminated(p, addrsFound, lasted, randFails) => TerminateKeeps(s, p, addrsFound, lasted, randFails);
    case NotifyOffline(key) => NotifiedKeeps(s, key);
    case DisconnectPeer(key) => DisconnectKeeps(s, key);
    case PrunePersistent(key) => PruneKeeps(s, key);
    case RetryConnect(key, connReqs) => RetryKeeps(s, key, connReqs);
    case _ =>
  }

  /** States reached by a sequence of steps. */
  ghost predicate Run(s: State, events: seq<Event>, s': State)
    decreases events
  {
    if events == [] then s == s'
    else Enabled(s, events[0]) && Run(Step(s, events[0]), events[1..], s')
  }

  /** The registry invariant holds after every run. */
  lemma {:induction false} RunKeeps(s: State, events: seq<Event>, s': State)
    requires Inv(s) && Run(s, events, s')
    ensures Inv(s')
    decreases events
  {
    if events != [] {
      StepKeeps(s, events[0]);
      RunKeeps(Step(s, events[0]), events[1..], s');
    }
  }

  /** What the invariant means, for every run of a server from its start until it is stopped. */
  lemma EveryRun(local: NodeID, cfg: Config, events: seq<Event>, s: State)
    requires ValidConfig(cfg) && Run(Init(local, cfg), events, s)
    // peersByPub is the disjoint union of the two direction maps
    ensures s.table.inboundPeers.Keys !! s.table.outboundPeers.Keys
    ensures s.table.peersByPub == s.table.inboundPeers + s.table.outboundPeers
    // the keys of the ignored peers are the scheduled keys, and these are not connected
    ensures (set p | p in s.table.ignorePeerTermination :: p.key) == s.table.scheduledPeerConnection.Keys
    ensures s.table.scheduledPeerConnection.Keys !! s.table.peersByPub.Keys
    // each key has one outstanding watcher at most
    ensures forall p, q :: p in s.table.watchers && q in s.table.watchers && p.key == q.key ==> p == q
    // a watcher that finishes evicts its own peer and no other
    ensures forall p :: p in s.table.watchers ==> EvictsOnly(s.table, p)
    // every stored channel is open
    ensures forall k, i :: k in s.signals.listeners && 0 <= i < |s.signals.listeners[k]| ==>
      s.signals.listeners[k][i] !in s.signals.closed
    ensures forall k :: k in s.signals.retryCancels ==> s.signals.retryCancels[k] !in s.signals.closed
    // no channel is closed twice, and every offline channel is closed or can still be closed
    ensures !s.signals.panicked
    ensures forall ch :: ch in s.signals.offline ==>
      ch in s.signals.closed || HasWatcher(s.table, s.signals.offline[ch])
    // backoffs belong to persistent peers and stay in range
    ensures s.persist.backoff.Keys <= s.persist.peers.Keys
    ensures forall k :: k in s.persist.backoff ==> Backoff.InRange(cfg, s.persist.backoff[k])
  {
    RunKeeps(Init(local, cfg), events, s);
    SameConfig(Init(local, cfg), events, s);
    DisjointUnion(s.table);
    IgnoredAreScheduled(s.table);
    OfflineAccounted(s.table, s.signals);
    forall p | p in s.table.watchers ensures EvictsOnly(s.table, p) {
      WatcherEvicts(s.table, p);
    }
  }

  /** Once the watcher has run its peer is gone, and every other peer is where it was. */
  ghost predicate EvictsOnly(t: Table, p: Peer) {
    var t' := WatcherDone(t, p);
    && (p.key in t'.peersByPub ==> t'.peersByPub[p.key] != p)
    && (forall k :: k in t.peersByPub && t.peersByPub[k] != p ==>
          k in t'.peersByPub && t'.peersByPub[k] == t.peersByPub[k])
  }

  lemma WatcherEvicts(t: Table, p: Peer)
    requires TableInv(t) && p in t.watchers
    ensures EvictsOnly(t, p)
  {
    if p !in t.ignorePeerTermination { WatcherOwns(t, p); }
  }

  lemma DisjointUnion(t: Table)
    requires Directions(t)
    ensures t.inboundPeers.Keys !! t.outboundPeers.Keys
    ensures t.peersByPub == t.inboundPeers + t.outboundPeers
  {}

  lemma IgnoredAreScheduled(t: Table)
    requires Waiting(t)
    ensures (set p | p in t.ignorePeerTermination :: p.key) == t.scheduledPeerConnection.Keys
    ensures t.scheduledPeerConnection.Keys !! t.peersByPub.Keys
  {
    forall k | k in t.scheduledPeerConnection ensures k in set p | p in t.ignorePeerTermination :: p.key {
      assert IgnoredFor(t, k);
    }
  }

  lemma OfflineAccounted(t: Table, c: Signals)
    requires Accounted(c) && ListenersWatched(t, c)
    ensures forall ch :: ch in c.offline ==> ch in c.closed || HasWatcher(t, c.offline[ch])
  {}

  lemma {:induction false} SameConfig(s: State, events: seq<Event>, s': State)
    requires Run(s, events, s')
    ensures s'.cfg == s.cfg && s'.local == s.local
    decreases events
  {
    if events != [] { SameConfig(Step(s, events[0]), events[1..], s'); }
  }

  /** A watcher can always finish: no run leads to a state in which its backoff cannot be drawn. */
  lemma WatcherNeverStuck(s: State, p: Peer, addrsFound: bool, lasted: Option<nat>, randFails: bool)
    requires Inv(s) && p in s.table.watchers
    ensures Enabled(s, Terminated(p, addrsFound, lasted, randFails))
  {
    TerminateKeeps(s, p, addrsFound, lasted, randFails);
  }
}
