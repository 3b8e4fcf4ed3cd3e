/** What the critical sections of the registry come to, told from the outside: which connection is kept, what is
    closed, and what remains to be retried. */
module ServerOutcomes {
  import opened Options
  import opened Bytes
  import opened Registry
  import opened Channels
  import opened Backoff
  import opened Server

  /** Nothing happens except that the new connection is closed. */
  ghost predicate Closed(s: State, s': State, conn: Conn) {
    s' == s.(table := s.table.(closedConns := s.table.closedConns + {conn}))
  }

  /** Pending requests and retries for the node are off, and nothing is closed but the retry channel. */
  ghost predicate Cancelled(s: State, s': State, key: NodeID) {
    && s'.persist.connReqs == s.persist.connReqs - {key}
    && s'.signals.retryCancels == s.signals.retryCancels - {key}
    && s'.signals.closed == s.signals.closed + (if key in s.signals.retryCancels then {s.signals.retryCancels[key]} else {})
    && s'.signals.listeners == s.signals.listeners
  }

  /** The node, so far unknown, is connected. */
  ghost predicate Connects(s: State, s': State, conn: Conn, inbound: bool) {
    && conn.key in s'.table.peersByPub && s'.table.peersByPub[conn.key].conn == conn
    && s'.table.peersByPub[conn.key].inbound == inbound
    && s'.table.peersByPub[conn.key] in s'.table.watchers
    && s'.table.peersByPub - {conn.key} == s.table.peersByPub && s'.table.closedConns == s.table.closedConns
    && s'.persist.peers == s.persist.peers && s'.persist.backoff == s.persist.backoff && Cancelled(s, s', conn.key)
  }

  /** The connected peer makes way for the connection, which takes over when its watcher has run. */
  ghost predicate Replaces(s: State, s': State, conn: Conn, inbound: bool)
    requires conn.key in s.table.peersByPub
  {
    var p := s.table.peersByPub[conn.key];
    && s'.table.peersByPub == s.table.peersByPub - {conn.key}
    && s'.table.closedConns == s.table.closedConns + {p.conn}
    && p in s'.table.ignorePeerTermination && p in s'.table.watchers
    && s'.table.scheduledPeerConnection == s.table.scheduledPeerConnection[conn.key := Callback(conn, inbound)]
    && s'.persist.peers == s.persist.peers && s'.persist.backoff == s.persist.backoff && Cancelled(s, s', conn.key)
  }

  /** An inbound connection from a node that is neither connected inbound nor scheduled is kept unless there is an
      outbound one and the local key comes first. */
  ghost predicate InboundResult(s: State, s': State, conn: Conn) {
    var t, k := s.table, conn.key;
    if k in t.inboundPeers || k in t.scheduledPeerConnection then Closed(s, s', conn)
    else if k !in t.peersByPub then Connects(s, s', conn, true)
    else if Before(k.key, s.local.key) then Replaces(s, s', conn, true)
    else Closed(s, s', conn)
  }

  /** An outbound connection is kept unless there is an inbound one and the remote key comes first. A connection
      made for a request that is no longer pending is closed. */
  ghost predicate OutboundResult(s: State, s': State, connReq: Option<nat>, conn: Conn) {
    var t, k := s.table, conn.key;
    if k in t.outboundPeers || k in t.scheduledPeerConnection || (connReq.Some? && k !in s.persist.connReqs)
    then Closed(s, s', conn)
    else if k !in t.peersByPub then Connects(s, s', conn, false)
    else if Before(k.key, s.local.key) then
      && s'.table == s.table.(closedConns := s.table.closedConns + {conn})
      && s'.persist.peers == s.persist.peers && s'.persist.backoff == s.persist.backoff && Cancelled(s, s', k)
    else Replaces(s, s', conn, false)
  }

  lemma CancelOutcome(s: State, key: NodeID)
    requires Inv(s)
    ensures Cancelled(s, CancelConnReqs(s, key), key)
  {
  }

  lemma InboundOutcome(s: State, conn: Conn)
    requires Inv(s)
    ensures InboundResult(s, Inbound(s, conn), conn)
  {
    DropLocalIff(s.local, conn.key);
    CancelOutcome(s, conn.key);
    if conn.key in s.table.peersByPub { assert s.table.peersByPub[conn.key] in s.table.watchers; }
  }

  lemma OutboundOutcome(s: State, connReq: Option<nat>, conn: Conn)
    requires Inv(s)
    ensures OutboundResult(s, Outbound(s, connReq, conn), connReq, conn)
  {
    var t, k, s' := s.table, conn.key, Outbound(s, connReq, conn);
    if !(k in t.outboundPeers || k in t.scheduledPeerConnection || (connReq.Some? && k !in s.persist.connReqs)) {
      DropLocalIff(s.local, k);
      CancelOutcome(s, k);
      if k !in t.peersByPub {
        assert Connects(s, s', conn, false);
      } else if Before(k.key, s.local.key) {
        assert s'.table == CloseConn(t, conn);
      } else {
        assert t.peersByPub[k] in t.watchers;
        assert Replaces(s, s', conn, false);
      }
    }
  }

  /** What becomes of the connection of a watched peer. A displaced one is followed by the connection that was waiting;
      any other is disconnected. */
  ghost predicate Leaves(t: Table, t': Table, p: Peer) {
    && p !in t'.watchers
    && (if p in t.ignorePeerTermination then
          && p.key in t.scheduledPeerConnection && p.key !in t'.scheduledPeerConnection
          && p.key in t'.peersByPub && t'.peersByPub[p.key].conn == t.scheduledPeerConnection[p.key].conn
          && t'.peersByPub[p.key].inbound == t.scheduledPeerConnection[p.key].inbound
          && t'.closedConns == t.closedConns
        else
          p.key !in t'.peersByPub && t'.closedConns == t.closedConns + {p.conn})
  }

  /** A persistent peer that was not displaced and can be found is to be retried: it has its next backoff and an open
      canceller. Nothing is retried otherwise. */
  ghost predicate RetryDue(s: State, s': State, p: Peer, addrsFound: bool, lasted: Option<nat>, randFails: bool) {
    if p !in s.table.ignorePeerTermination && p.key in s.persist.peers && addrsFound then
      && BackoffDue(s.cfg, s.persist, s'.persist, p.key, lasted, randFails)
      && CancellerOpen(s.signals, s'.signals, p.key)
    else
      s'.persist == s.persist && s'.signals.retryCancels == s.signals.retryCancels
  }

  ghost predicate BackoffDue(cfg: Config, p: Persist, p': Persist, key: NodeID, lasted: Option<nat>, randFails: bool) {
    && p' == p.(backoff := p'.backoff)
    && key in p'.backoff && p'.backoff - {key} == p.backoff - {key}
    && NextIs(cfg, Previous(p, key), lasted, randFails, p'.backoff[key])
  }

  ghost predicate CancellerOpen(c: Signals, c': Signals, key: NodeID) {
    && key in c'.retryCancels && c'.retryCancels[key] !in c'.closed
    && c'.retryCancels - {key} == c.retryCancels - {key}
    && (key in c.retryCancels ==> c'.retryCancels == c.retryCancels)
  }

  lemma TerminateOutcome(s: State, p: Peer, addrsFound: bool, lasted: Option<nat>, randFails: bool, s': State)
    requires Inv(s) && Enabled(s, Terminated(p, addrsFound, lasted, randFails))
    requires s' == Terminate(s, p, addrsFound, lasted, randFails)
    ensures Leaves(s.table, s'.table, p) && RetryDue(s, s', p, addrsFound, lasted, randFails)
  {
    WatcherOutcome(s.table, p);
    RetryOutcome(s, p, addrsFound, lasted, randFails, s');
  }

  lemma RetryOutcome(s: State, p: Peer, addrsFound: bool, lasted: Option<nat>, randFails: bool, s': State)
    requires ValidConfig(s.cfg) && SignalInv(s.signals) && PersistInv(s.cfg, s.persist)
    requires Enabled(s, Terminated(p, addrsFound, lasted, randFails))
    requires s' == Terminate(s, p, addrsFound, lasted, randFails)
    ensures RetryDue(s, s', p, addrsFound, lasted, randFails)
  {
    ReleasedRetries(s.signals, p.key);
    CancellerOutcome(s.signals, p.key);
    NextIsNext(s.cfg, Previous(s.persist, p.key), lasted, randFails);
  }

  lemma CancellerOutcome(c: Signals, key: NodeID)
    requires SignalInv(c)
    ensures CancellerOpen(c, EnsureRetry(Release(c, key), key), key)
  {
    ReleasedRetries(c, key);
    ReleaseKeeps(c, key);
    EnsureKeeps(Release(c, key), key);
  }

  lemma ReleasedRetries(c: Signals, key: NodeID)
    requires SignalInv(c)
    ensures Release(c, key).retryCancels == c.retryCancels
  {
    if key in c.listeners { CloseAllOpen(c, c.listeners[key]); }
  }

  lemma WatcherOutcome(t: Table, p: Peer)
    requires TableInv(t) && p in t.watchers
    ensures Leaves(t, WatcherDone(t, p), p)
  {
  }

  /** A node that is disconnected on purpose is forgotten as a persistent peer, and its connection is closed. Its
      watcher does the rest. */
  ghost predicate DisconnectResult(s: State, s': State, key: NodeID) {
    if key !in s.table.peersByPub then s' == s
    else
      && s'.table == s.table.(closedConns := s.table.closedConns + {s.table.peersByPub[key].conn})
      && s'.persist.peers == s.persist.peers - {key} && s'.persist.backoff == s.persist.backoff - {key}
      && Cancelled(s, s', key)
  }

  lemma DisconnectOutcome(s: State, key: NodeID)
    requires Inv(s)
    ensures DisconnectResult(s, Disconnect(s, key), key)
  {
    CancelOutcome(s, key);
  }

  /** A peer that was requested as permanent is untouched, as is a node that is not persistent; any other persistent
      peer is gone with its backoff and its requests. */
  ghost predicate PruneResult(s: State, s': State, key: NodeID) {
    if key !in s.persist.peers || s.persist.peers[key] then s' == s
    else
      && s'.table == s.table
      && s'.persist.peers == s.persist.peers - {key} && s'.persist.backoff == s.persist.backoff - {key}
      && Cancelled(s, s', key)
  }

  lemma PruneOutcome(s: State, key: NodeID)
    requires Inv(s)
    ensures PruneResult(s, Prune(s, key), key)
  {
    CancelOutcome(Forget(s, key), key);
  }

  /** A permanent connection is wanted from now on, by one request more; a known backoff stays, a missing one starts at
      the minimum. */
  lemma ConnectPermOutcome(s: State, key: NodeID, connReq: nat)
    ensures var s' := ConnectPerm(s, key, connReq);
      if key in s.table.peersByPub then s' == s
      else
        && s'.table == s.table && s'.signals == s.signals
        && s'.persist.peers == s.persist.peers[key := true]
        && s'.persist.backoff
           == s.persist.backoff[key := if key in s.persist.backoff then s.persist.backoff[key] else s.cfg.minBackoff]
        && key in s'.persist.connReqs && s'.persist.connReqs - {key} == s.persist.connReqs - {key}
        && s'.persist.connReqs[key] == (if key in s.persist.connReqs then s.persist.connReqs[key] else []) + [connReq]
  {
    var s' := ConnectPerm(s, key, connReq);
    if key !in s.table.peersByPub {
      assert s'.persist.connReqs - {key} == s.persist.connReqs - {key};
    }
  }

  /** A new channel makes its peer persistent, without undoing a request for permanence. */
  lemma NewChannelOutcome(s: State, key: NodeID)
    ensures var s' := Step(s, WatchNewChannel(key));
      && key in s'.persist.peers && s'.table == s.table && s'.signals == s.signals
      && (if key in s.persist.peers then s' == s else !s'.persist.peers[key])
      && s'.persist.peers - {key} == s.persist.peers - {key}
  {
  }

  /** Marking a peer as persistent keeps a known backoff and does not make the peer permanent. */
  lemma MarkOutcome(s: State, key: NodeID, s': State)
    requires s' == Step(s, MarkPersistent(key))
    ensures s'.table == s.table && s'.signals == s.signals && s'.persist.connReqs == s.persist.connReqs
    ensures key in s'.persist.peers && !s'.persist.peers[key] && s'.persist.peers - {key} == s.persist.peers - {key}
    ensures if key in s.persist.backoff then s'.persist.backoff == s.persist.backoff
            else s'.persist.backoff == s.persist.backoff[key := s.cfg.minBackoff]
  {
  }

  /** A retry replaces the pending requests of the node, and can be cancelled. */
  lemma RetryConnectOutcome(s: State, key: NodeID, connReqs: seq<nat>, s': State)
    requires SignalInv(s.signals) && s' == Step(s, RetryConnect(key, connReqs))
    ensures s'.table == s.table && s'.persist == s.persist.(connReqs := s'.persist.connReqs)
    ensures key in s'.persist.connReqs && s'.persist.connReqs[key] == connReqs
    ensures s'.persist.connReqs - {key} == s.persist.connReqs - {key}
    ensures CancellerOpen(s.signals, s'.signals, key)
  {
    EnsureKeeps(s.signals, key);
  }

  /** A further request is added to those pending. */
  lemma AddRequestOutcome(s: State, key: NodeID, connReq: nat, s': State)
    requires s' == Step(s, AddConnReq(key, connReq))
    ensures s' == s.(persist := s.persist.(connReqs := s'.persist.connReqs))
    ensures key in s'.persist.connReqs && s'.persist.connReqs - {key} == s.persist.connReqs - {key}
    ensures s'.persist.connReqs[key] == (if key in s.persist.connReqs then s.persist.connReqs[key] else []) + [connReq]
  {
  }
}
