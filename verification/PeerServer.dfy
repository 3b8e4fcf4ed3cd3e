/** The registry methods of server.go in their own form: methods that update the maps of the server. Each
    takes the step of the state machine, keeps its invariant, and says what became of its connection or channel. */
module PeerServer {
  import opened Options
  import opened Bytes
  import opened Registry
  import opened Channels
  import opened Backoff
  import opened Server
  import opened ServerOutcomes

  /** A connection is closed, held by a peer, or waiting for a watcher: none is lost. */
  ghost predicate AccountedFor(t: Table, conn: Conn) {
    || conn in t.closedConns
    || (conn.key in t.peersByPub && t.peersByPub[conn.key].conn == conn)
    || (conn.key in t.scheduledPeerConnection && t.scheduledPeerConnection[conn.key].conn == conn)
  }

  lemma NoneLost(s: State, connReq: Option<nat>, conn: Conn)
    ensures AccountedFor(Inbound(s, conn).table, conn) && AccountedFor(Outbound(s, connReq, conn).table, conn)
  {
  }

  /** Every channel that was handed out for a node is closed once the watcher of its peer has run. */
  lemma AllReleased(s: State, p: Peer, addrsFound: bool, lasted: Option<nat>, randFails: bool, s': State)
    requires Inv(s) && Enabled(s, Terminated(p, addrsFound, lasted, randFails))
    requires s' == Terminate(s, p, addrsFound, lasted, randFails)
    ensures forall ch :: ch in s.signals.offline && s.signals.offline[ch] == p.key ==> ch in s'.signals.closed
  {
    ReleaseKeeps(s.signals, p.key);
  }

  lemma NewChannel(c: Signals, key: NodeID, connected: bool)
    requires SignalInv(c)
    ensures c.next !in c.offline && (c.next in Notify(c, key, connected).closed <==> !connected)
  {
  }

  class RegistryServer {
    const local: NodeID
    const cfg: Config

    var peersByPub: map<NodeID, Peer>
    var inboundPeers: map<NodeID, Peer>
    var outboundPeers: map<NodeID, Peer>
    var ignorePeerTermination: set<Peer>
    var scheduledPeerConnection: map<NodeID, Callback>
    var peerDisconnectedListeners: map<NodeID, seq<nat>>
    var persistentRetryCancels: map<NodeID, nat>
    var persistentPeers: map<NodeID, bool>
    var persistentPeersBackoff: map<NodeID, int>
    var persistentConnReqs: map<NodeID, seq<nat>>

    // what the environment can see: goroutines not yet finished, closed connections and channels
    var watchers: set<Peer>
    var closedConns: set<Conn>
    var closedChans: set<nat>
    var nextPeer: nat
    var nextChan: nat
    var offline: map<nat, NodeID>
    var panicked: bool

    ghost function ViewTable(): Table
      reads this
    {
      Table(peersByPub, inboundPeers, outboundPeers, ignorePeerTermination, scheduledPeerConnection,
            watchers, closedConns, nextPeer)
    }

    ghost function ViewSignals(): Signals
      reads this
    {
      Signals(peerDisconnectedListeners, persistentRetryCancels, closedChans, nextChan, offline, panicked)
    }

    ghost function ViewPersist(): Persist
      reads this
    {
      Persist(persistentPeers, persistentPeersBackoff, persistentConnReqs)
    }

    /** The abstract state. */
    ghost function View(): State
      reads this
    {
      State(local, cfg, ViewTable(), ViewSignals(), ViewPersist())
    }

    constructor (local: NodeID, cfg: Config)
      ensures View() == Init(local, cfg) && (ValidConfig(cfg) ==> Inv(View()))
    {
      this.local, this.cfg := local, cfg;
      peersByPub, inboundPeers, outboundPeers := map[], map[], map[];
      ignorePeerTermination, scheduledPeerConnection := {}, map[];
      peerDisconnectedListeners, persistentRetryCancels := map[], map[];
      persistentPeers, persistentPeersBackoff, persistentConnReqs := map[], map[], map[];
      watchers, closedConns, closedChans, nextPeer, nextChan, offline, panicked := {}, {}, {}, 0, 0, map[], false;
    }

    method CloseChan(ch: nat)
      modifies this`closedChans, this`panicked
      ensures ViewSignals() == Close(old(ViewSignals()), ch)
    {
      if ch in closedChans {
        panicked := true;
      } else {
        closedChans := closedChans + {ch};
      }
    }

    /** addPeer and the start of the peer's goroutines. */
    method FinalizeConnection(conn: Conn, inbound: bool)
      modifies this`peersByPub, this`inboundPeers, this`outboundPeers, this`watchers, this`nextPeer
      ensures ViewTable() == PeerConnected(old(ViewTable()), conn, inbound)
    {
      var p := Peer(nextPeer, conn.key, inbound, conn);
      nextPeer := nextPeer + 1;
      peersByPub := peersByPub[p.key := p];
      if inbound {
        inboundPeers := inboundPeers[p.key := p];
      } else {
        outboundPeers := outboundPeers[p.key := p];
      }
      watchers := watchers + {p};
    }

    method Remove(p: Peer)
      modifies this`peersByPub, this`inboundPeers, this`outboundPeers, this`closedConns
      ensures ViewTable() == RemovePeer(old(ViewTable()), p)
    {
      closedConns := closedConns + {p.conn};
      peersByPub := peersByPub - {p.key};
      if p.inbound {
        inboundPeers := inboundPeers - {p.key};
      } else {
        outboundPeers := outboundPeers - {p.key};
      }
    }

    method CancelRequests(key: NodeID)
      modifies this`persistentRetryCancels, this`persistentConnReqs, this`closedChans, this`panicked
      ensures ViewSignals() == CancelRetry(old(ViewSignals()), key)
      ensures ViewPersist() == old(ViewPersist()).(connReqs := old(persistentConnReqs) - {key})
    {
      if key in persistentRetryCancels {
        CloseChan(persistentRetryCancels[key]);
        persistentRetryCancels := persistentRetryCancels - {key};
      }
      if key in persistentConnReqs {
        persistentConnReqs := persistentConnReqs - {key};
      }
      assert ViewPersist().connReqs == old(persistentConnReqs) - {key};
    }

    /** The tie-break that both connection handlers share. */
    method Replace(connected: Peer, conn: Conn, inbound: bool)
      modifies this`peersByPub, this`inboundPeers, this`outboundPeers, this`closedConns,
               this`ignorePeerTermination, this`scheduledPeerConnection
      ensures ViewTable() == Displace(old(ViewTable()), connected, conn, inbound)
    {
      Remove(connected);
      ignorePeerTermination := ignorePeerTermination + {connected};
      scheduledPeerConnection := scheduledPeerConnection[conn.key := Callback(conn, inbound)];
    }

    /** The switch on findPeerByPubStr, once a connection has not been ignored. */
    method AdmitConn(conn: Conn, inbound: bool)
      modifies this`peersByPub, this`inboundPeers, this`outboundPeers, this`closedConns, this`watchers,
               this`nextPeer, this`ignorePeerTermination, this`scheduledPeerConnection
      ensures ViewTable() == Admit(old(ViewTable()), local, conn, inbound)
    {
      if conn.key !in peersByPub {
        FinalizeConnection(conn, inbound);
      } else {
        var dropLocal := ShouldDropLocal(local, conn.key);
        if (inbound && !dropLocal) || (!inbound && dropLocal) {
          closedConns := closedConns + {conn};
          return;
        }
        Replace(peersByPub[conn.key], conn, inbound);
      }
    }

    method Refuse(conn: Conn)
      modifies this`closedConns
      ensures View() == WithTable(old(View()), CloseConn(old(ViewTable()), conn))
    {
      closedConns := closedConns + {conn};
    }

    method Accept(conn: Conn, inbound: bool)
      modifies this
      ensures View() == WithTable(CancelConnReqs(old(View()), conn.key), Admit(old(ViewTable()), local, conn, inbound))
    {
      CancelRequests(conn.key);
      AdmitConn(conn, inbound);
    }

    method InboundPeerConnected(conn: Conn)
      requires Inv(View())
      modifies this
      ensures View() == Inbound(old(View()), conn) && InboundResult(old(View()), View(), conn)
      ensures Inv(View()) && AccountedFor(ViewTable(), conn)
    {
      ghost var before := View();
      DecideInbound(conn);
      InboundKeeps(before, conn);
      NoneLost(before, None, conn);
      InboundOutcome(before, conn);
    }

    method DecideInbound(conn: Conn)
      modifies this
      ensures View() == Inbound(old(View()), conn)
    {
      if conn.key in inboundPeers {
        Refuse(conn);
        return;
      }
      if conn.key in scheduledPeerConnection {
        Refuse(conn);
        return;
      }
      // an inbound connection that loses the tie-break leaves the pending requests alone
      if conn.key in peersByPub && !ShouldDropLocal(local, conn.key) {
        Refuse(conn);
        return;
      }
      Accept(conn, true);
    }

    method OutboundPeerConnected(connReq: Option<nat>, conn: Conn)
      requires Inv(View())
      modifies this
      ensures View() == Outbound(old(View()), connReq, conn) && OutboundResult(old(View()), View(), connReq, conn)
      ensures Inv(View()) && AccountedFor(ViewTable(), conn)
    {
      ghost var before := View();
      DecideOutbound(connReq, conn);
      OutboundKeeps(before, connReq, conn);
      NoneLost(before, connReq, conn);
      OutboundOutcome(before, connReq, conn);
    }

    method DecideOutbound(connReq: Option<nat>, conn: Conn)
      modifies this
      ensures View() == Outbound(old(View()), connReq, conn)
    {
      if conn.key in outboundPeers {
        Refuse(conn);
        return;
      }
      if conn.key !in persistentConnReqs && connReq.Some? {
        Refuse(conn);
        return;
      }
      if conn.key in scheduledPeerConnection {
        Refuse(conn);
        return;
      }
      Accept(conn, false);
    }

    /** Closing the offline channels of a key, one after the other. */
    method ReleaseListeners(key: NodeID)
      modifies this`peerDisconnectedListeners, this`closedChans, this`panicked
      ensures ViewSignals() == Release(old(ViewSignals()), key)
    {
      if key in peerDisconnectedListeners {
        var chs := peerDisconnectedListeners[key];
        ghost var before := ViewSignals();
        for i := 0 to |chs|
          invariant ViewSignals() == CloseAll(before, chs[..i])
        {
          assert chs[..i + 1][..i] == chs[..i];
          CloseChan(chs[i]);
        }
        assert chs[..|chs|] == chs;
        peerDisconnectedListeners := peerDisconnectedListeners - {key};
      }
    }

    /** The end of the watcher goroutine as far as the peer maps go. Returns whether the peer had been
        displaced, in which case the waiting connection has taken its place. */
    method FinishPeer(p: Peer) returns (displaced: bool)
      modifies this`peersByPub, this`inboundPeers, this`outboundPeers, this`closedConns, this`watchers,
               this`nextPeer, this`ignorePeerTermination, this`scheduledPeerConnection
      ensures ViewTable() == WatcherDone(old(ViewTable()), p)
      ensures displaced == (p in old(ignorePeerTermination))
    {
      watchers := watchers - {p};
      displaced := p in ignorePeerTermination;
      if displaced {
        ignorePeerTermination := ignorePeerTermination - {p};
        if p.key in scheduledPeerConnection {
          var cb := scheduledPeerConnection[p.key];
          scheduledPeerConnection := scheduledPeerConnection - {p.key};
          FinalizeConnection(cb.conn, cb.inbound);
        }
      } else {
        Remove(p);
      }
    }

    /** Recording the next backoff and a canceller for the retry. */
    method ScheduleRetry(key: NodeID, lasted: Option<nat>, randFails: bool)
      requires Previous(ViewPersist(), key).Some? ==> Doubled(persistentPeersBackoff[key], cfg.maxBackoff) >= 10
      modifies this`persistentPeersBackoff, this`persistentRetryCancels, this`nextChan
      ensures ViewSignals() == EnsureRetry(old(ViewSignals()), key)
      ensures ViewPersist() == old(ViewPersist()).(backoff := old(persistentPeersBackoff)[key :=
        NextPeerBackoff(cfg, Previous(old(ViewPersist()), key), lasted, randFails)])
    {
      var previous := if key in persistentPeersBackoff then Some(persistentPeersBackoff[key]) else None;
      persistentPeersBackoff := persistentPeersBackoff[key := NextPeerBackoff(cfg, previous, lasted, randFails)];
      if key !in persistentRetryCancels {
        persistentRetryCancels := persistentRetryCancels[key := nextChan];
        nextChan := nextChan + 1;
      }
    }

    /** The backoff of a watched peer can always be drawn, and all its listeners are notified. */
    method PeerTerminationWatcher(p: Peer, addrsFound: bool, lasted: Option<nat>, randFails: bool)
      requires Inv(View()) && p in watchers
      modifies this
      ensures Enabled(old(View()), Terminated(p, addrsFound, lasted, randFails))
      ensures View() == Terminate(old(View()), p, addrsFound, lasted, randFails) && Inv(View())
      ensures Leaves(old(ViewTable()), ViewTable(), p)
      ensures RetryDue(old(View()), View(), p, addrsFound, lasted, randFails)
      ensures forall ch :: ch in old(offline) && old(offline)[ch] == p.key ==> ch in closedChans
    {
      ghost var before := View();
      TerminateKeeps(before, p, addrsFound, lasted, randFails);
      CleanUp(p, addrsFound, lasted, randFails);
      AllReleased(before, p, addrsFound, lasted, randFails, View());
      TerminateOutcome(before, p, addrsFound, lasted, randFails, View());
    }

    method CleanUp(p: Peer, addrsFound: bool, lasted: Option<nat>, randFails: bool)
      requires Enabled(View(), Terminated(p, addrsFound, lasted, randFails))
      modifies this
      ensures View() == Terminate(old(View()), p, addrsFound, lasted, randFails)
    {
      ReleaseListeners(p.key);
      var displaced := FinishPeer(p);
      assert View() == Cleaned(old(View()), p);
      if displaced || p.key !in persistentPeers || !addrsFound {
        return;
      }
      ScheduleRetry(p.key, lasted, randFails);
    }

    /** make(chan struct{}), handed out for a key. */
    method MakeOffline(key: NodeID) returns (c: nat)
      modifies this`nextChan, this`offline
      ensures c == old(nextChan)
      ensures ViewSignals() == old(ViewSignals()).(next := c + 1, offline := old(offline)[c := key])
    {
      c := nextChan;
      nextChan := nextChan + 1;
      offline := offline[c := key];
    }

    /** The channel returned is a new one, closed exactly when the peer is not connected. */
    method NotifyWhenOffline(key: NodeID) returns (c: nat)
      requires Inv(View())
      modifies this
      ensures View() == Notified(old(View()), key) && Inv(View())
      ensures c !in old(offline) && (c in closedChans <==> key !in peersByPub)
    {
      ghost var before := View();
      c := Listen(key);
      NotifiedKeeps(before, key);
      NewChannel(before.signals, key, key in peersByPub);
    }

    method Listen(key: NodeID) returns (c: nat)
      modifies this`peerDisconnectedListeners, this`nextChan, this`offline, this`closedChans, this`panicked
      ensures View() == Notified(old(View()), key)
      ensures c == old(nextChan)
    {
      c := MakeOffline(key);
      if key !in peersByPub {
        CloseChan(c);
        assert ViewSignals() == Notify(old(ViewSignals()), key, false);
        return;
      }
      peerDisconnectedListeners := AddListener(peerDisconnectedListeners, key, c);
      assert ViewSignals() == Notify(old(ViewSignals()), key, true);
    }

    method Disconnect(key: NodeID) returns (found: bool)
      requires Inv(View())
      modifies this
      ensures View() == Server.Disconnect(old(View()), key) && Inv(View()) && DisconnectResult(old(View()), View(), key)
      ensures found == (key in old(peersByPub)) && (!found ==> View() == old(View()))
    {
      ghost var before := View();
      found := Drop(key);
      DisconnectKeeps(before, key);
      DisconnectOutcome(before, key);
    }

    method Drop(key: NodeID) returns (found: bool)
      modifies this
      ensures View() == Server.Disconnect(old(View()), key)
      ensures found == (key in old(peersByPub)) && (!found ==> View() == old(View()))
    {
      found := key in peersByPub;
      if !found {
        return;
      }
      CancelRequests(key);
      persistentPeers := persistentPeers - {key};
      persistentPeersBackoff := persistentPeersBackoff - {key};
      closedConns := closedConns + {peersByPub[key].conn};
    }

    method PrunePersistentPeerConnection(key: NodeID)
      requires Inv(View())
      modifies this
      ensures View() == Prune(old(View()), key) && Inv(View()) && PruneResult(old(View()), View(), key)
    {
      ghost var before := View();
      ForgetUnlessPermanent(key);
      PruneKeeps(before, key);
      PruneOutcome(before, key);
    }

    method ForgetUnlessPermanent(key: NodeID)
      modifies this
      ensures View() == Prune(old(View()), key)
    {
      if key in persistentPeers && !persistentPeers[key] {
        persistentPeers := persistentPeers - {key};
        persistentPeersBackoff := persistentPeersBackoff - {key};
        CancelRequests(key);
      }
    }
  }
}
