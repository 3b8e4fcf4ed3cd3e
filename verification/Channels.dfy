/** The signalling channels of server.go: offline listeners and retry cancellers. A Go channel that is
    closed twice panics, so the model records a panic. */
module Channels {
  import opened Bytes

  /** peerDisconnectedListeners and persistentRetryCancels, with the channels closed so far and, for
      every channel that NotifyWhenOffline has returned, the key it was asked for. */
  datatype Signals = Signals(
    listeners: map<NodeID, seq<nat>>,
    retryCancels: map<NodeID, nat>,
    closed: set<nat>,
    next: nat,
    offline: map<nat, NodeID>,
    panicked: bool)

  const NO_SIGNALS := Signals(map[], map[], {}, 0, map[], false)

  /** close(ch). */
  function Close(c: Signals, ch: nat): Signals {
    if ch in c.closed then c.(panicked := true) else c.(closed := c.closed + {ch})
  }

  function CloseAll(c: Signals, chs: seq<nat>): Signals {
    if chs == [] then c else Close(CloseAll(c, chs[..|chs| - 1]), chs[|chs| - 1])
  }

  /** The offline notifications of peerTerminationWatcher. */
  function Release(c: Signals, key: NodeID): Signals {
    if key in c.listeners
    then var c' := CloseAll(c, c.listeners[key]); c'.(listeners := c'.listeners - {key})
    else c
  }

  /** The first part of cancelConnReqs. */
  function CancelRetry(c: Signals, key: NodeID): Signals {
    if key in c.retryCancels
    then var c' := Close(c, c.retryCancels[key]); c'.(retryCancels := c'.retryCancels - {key})
    else c
  }

  /** Creating a retry canceller unless there is one. */
  function EnsureRetry(c: Signals, key: NodeID): Signals {
    if key in c.retryCancels then c else c.(retryCancels := c.retryCancels[key := c.next], next := c.next + 1)
  }

  /** NotifyWhenOffline: the channel is closed at once when the peer is not connected. */
  function Notify(c: Signals, key: NodeID, connected: bool): Signals {
    var ch := c.next;
    var c' := c.(next := c.next + 1, offline := c.offline[ch := key]);
    if !connected then Close(c', ch)
    else c'.(listeners := AddListener(c'.listeners, key, ch))
  }

  /** Appending to the slice of a key, which is empty when the key is new. */
  function AddListener(listeners: map<NodeID, seq<nat>>, key: NodeID, ch: nat): map<NodeID, seq<nat>> {
    listeners[key := (if key in listeners then listeners[key] else []) + [ch]]
  }

  /** Every stored channel is open and stored once. */
  ghost predicate Stored(c: Signals) {
    && (forall k, i :: k in c.listeners && 0 <= i < |c.listeners[k]| ==>
          var ch := c.listeners[k][i];
          ch < c.next && ch !in c.closed && ch in c.offline && c.offline[ch] == k)
    && (forall k, i, j :: k in c.listeners && 0 <= i < j < |c.listeners[k]| ==>
          c.listeners[k][i] != c.listeners[k][j])
    && (forall k :: k in c.retryCancels ==>
          var ch := c.retryCancels[k];
          ch < c.next && ch !in c.closed && ch !in c.offline)
    && (forall k, l :: k in c.retryCancels && l in c.retryCancels && k != l ==>
          c.retryCancels[k] != c.retryCancels[l])
  }

  /** Every channel handed out is closed or still stored for its key. */
  ghost predicate Accounted(c: Signals) {
    && (forall ch :: ch in c.offline ==> ch < c.next)
    && (forall ch :: ch in c.closed ==> ch < c.next)
    && (forall ch :: ch in c.offline && ch !in c.closed ==>
          c.offline[ch] in c.listeners && ch in c.listeners[c.offline[ch]])
  }

  ghost predicate SignalInv(c: Signals) {
    !c.panicked && Stored(c) && Accounted(c)
  }

  lemma {:induction false} CloseAllOpen(c: Signals, chs: seq<nat>)
    requires !c.panicked
    requires forall i :: 0 <= i < |chs| ==> chs[i] !in c.closed
    requires forall i, j :: 0 <= i < j < |chs| ==> chs[i] != chs[j]
    ensures CloseAll(c, chs) == c.(closed := c.closed + set i | 0 <= i < |chs| :: chs[i])
  {
    if chs != [] {
      var init := chs[..|chs| - 1];
      CloseAllOpen(c, init);
      assert (set i | 0 <= i < |chs| :: chs[i]) == (set i | 0 <= i < |init| :: init[i]) + {chs[|chs| - 1]};
    }
  }

  lemma ReleaseKeeps(c: Signals, key: NodeID)
    requires SignalInv(c)
    ensures SignalInv(Release(c, key))
    ensures Release(c, key).listeners == c.listeners - {key}
    ensures forall ch :: ch in c.offline && c.offline[ch] == key ==> ch in Release(c, key).closed
  {
    if key in c.listeners {
      CloseAllOpen(c, c.listeners[key]);
    }
  }

  lemma CancelKeeps(c: Signals, key: NodeID)
    requires SignalInv(c)
    ensures SignalInv(CancelRetry(c, key)) && CancelRetry(c, key).listeners == c.listeners
    ensures key !in CancelRetry(c, key).retryCancels
  {}

  lemma EnsureKeeps(c: Signals, key: NodeID)
    requires SignalInv(c)
    ensures SignalInv(EnsureRetry(c, key)) && EnsureRetry(c, key).listeners == c.listeners
  {}

  lemma NotifyKeeps(c: Signals, key: NodeID, connected: bool)
    requires SignalInv(c)
    ensures SignalInv(Notify(c, key, connected))
    ensures Notify(c, key, connected).listeners.Keys <= c.listeners.Keys + if connected then {key} else {}
  {
    var c' := Notify(c, key, connected);
    if connected {
      assert c.next in c'.listeners[key];
      forall ch | ch in c'.offline && ch !in c'.closed
        ensures c'.offline[ch] in c'.listeners && ch in c'.listeners[c'.offline[ch]]
      {
        if ch != c.next { assert ch in c.listeners[c.offline[ch]]; }
      }
    }
  }
}
