/** amp.ShardTracker: creating, cancelling and reconstructing the shards of a payment. */
module ShardTracker {
  import opened Options
  import opened Amp

  type Hash = seq<bv8> -> seq<bv8>

  /** The sharer and the tracked shards of a tracker. */
  datatype Tracker = Tracker(sharer: Sharer, shards: map<nat, Child>)

  function Init(root: Share): Tracker {
    Tracker(Sharer(root, root), map[])
  }

  /** What NewShard draws from the random source: the child index, and a left share. */
  datatype Draw = Draw(index: Option<uint32>, left: Option<Share>)

  /** NewShard, or None when it fails. */
  function Issue(sha: Hash, t: Tracker, pid: nat, last: bool, draw: Draw): Option<(Tracker, Child)> {
    if draw.index.None? then None
    else if last then
      Some((Tracker(t.sharer.Zero(), t.shards[pid := t.sharer.DeriveAt(sha, draw.index.value)]),
            t.sharer.DeriveAt(sha, draw.index.value)))
    else if t.sharer.Split(draw.left).None? then None
    else
      Some((Tracker(t.sharer.Split(draw.left).value.1,
                    t.shards[pid := t.sharer.Split(draw.left).value.0.DeriveAt(sha, draw.index.value)]),
            t.sharer.Split(draw.left).value.0.DeriveAt(sha, draw.index.value)))
  }

  /** CancelShard, or None when the pid is not tracked. */
  function Withdraw(t: Tracker, pid: nat): Option<Tracker> {
    if pid !in t.shards then None else Some(Tracker(t.sharer.Merge(t.shards[pid]), t.shards - {pid}))
  }

  /** The current share and all tracked shares together give the root. */
  ghost predicate Conserved(root: Share, t: Tracker) {
    Xor(t.sharer.curr, XorMap(t.shards)) == root
  }

  /** Every tracked child is derived from the root by its own descriptor. */
  ghost predicate Derived(sha: Hash, root: Share, t: Tracker) {
    t.sharer.root == root && forall pid :: pid in t.shards ==> t.shards[pid] == DeriveChild(sha, root, t.shards[pid].desc)
  }

  ghost predicate Inv(sha: Hash, root: Share, t: Tracker) {
    Conserved(root, t) && Derived(sha, root, t)
  }

  lemma InitInv(sha: Hash, root: Share)
    ensures Inv(sha, root, Init(root))
  {
    XorLaws(root, ZeroShare(), ZeroShare());
  }

  /** What NewShard has done: without randomness, and when there is nothing left to split, it fails and changes
      nothing. Otherwise the share comes out of the current one, all of it for the last shard, and the child that
      belongs to it is tracked. */
  ghost predicate Issued(sha: Hash, t: Tracker, t': Tracker, pid: nat, last: bool, draw: Draw, r: Option<Child>) {
    if draw.index.None? || (!last && (draw.left.None? || t.sharer.curr == ZeroShare())) then
      r.None? && t' == t
    else
      && r.Some? && t'.shards == t.shards[pid := r.value] && t'.sharer.root == t.sharer.root
      && Belongs(sha, t.sharer.root, r.value) && r.value.desc.index == draw.index.value
      && Xor(t'.sharer.curr, r.value.desc.share) == t.sharer.curr
      && (if last then t'.sharer.curr == ZeroShare() else r.value.desc.share == draw.left.value)
  }

  lemma NewShardTakes(sha: Hash, t: Tracker, pid: nat, last: bool, draw: Draw)
    ensures match Issue(sha, t, pid, last, draw)
            case None => Issued(sha, t, t, pid, last, draw, None)
            case Some((t', c)) => Issued(sha, t, t', pid, last, draw, Some(c))
  {
    match Issue(sha, t, pid, last, draw)
    case None =>
    case Some((t', c)) =>
      DerivedIff(sha, t.sharer.root, c.desc, c);
      XorLaws(ZeroShare(), t.sharer.curr, ZeroShare());
      XorLaws(t.sharer.curr, ZeroShare(), ZeroShare());
      if !last {
        SplitConserves(t.sharer, draw.left);
        var (left, right) := t.sharer.Split(draw.left).value;
        XorLaws(left.curr, right.curr, ZeroShare());
      }
  }

  lemma CancelZero(x: Share, a: Share)
    ensures Xor(x, a) == x <==> a == ZeroShare()
  {
    XorLaws(x, x, a);
    XorLaws(a, ZeroShare(), ZeroShare());
    XorLaws(ZeroShare(), a, ZeroShare());
    XorLaws(x, ZeroShare(), ZeroShare());
  }

  lemma MoveShare(curr': Share, c: Share, rest: Share)
    ensures Xor(Xor(curr', c), rest) == Xor(curr', Xor(rest, c))
  {
    XorLaws(curr', c, rest);
    XorLaws(c, rest, ZeroShare());
  }

  /** Taking c out of the current share and tracking it leaves the sum of everything but pid alone. */
  lemma Tracked(curr: Share, curr': Share, shards: map<nat, Child>, pid: nat, c: Child)
    requires Xor(curr', c.desc.share) == curr
    ensures Xor(curr', XorMap(shards[pid := c])) == Xor(curr, XorMap(shards - {pid}))
  {
    var rest := shards - {pid};
    assert shards[pid := c] == rest[pid := c];
    XorMapInsert(rest, pid, c);
    MoveShare(curr', c.desc.share, XorMap(rest));
  }

  /** Dropping the share of pid from the sum changes it unless that share is zero. */
  lemma Dropped(curr: Share, shards: map<nat, Child>, pid: nat)
    ensures Xor(curr, XorMap(shards - {pid})) == Xor(curr, XorMap(shards))
       <==> (pid in shards ==> shards[pid].desc.share == ZeroShare())
  {
    if pid in shards {
      var lost := shards[pid].desc.share;
      XorMapAny(shards, pid);
      XorLaws(curr, XorMap(shards - {pid}), lost);
      CancelZero(Xor(curr, XorMap(shards - {pid})), lost);
    } else {
      assert shards - {pid} == shards;
    }
  }

  /** NewShard conserves the root exactly when it does not overwrite a tracked share other than zero. */
  lemma NewShardConserves(sha: Hash, root: Share, t: Tracker, pid: nat, last: bool, draw: Draw)
    requires Inv(sha, root, t) && Issue(sha, t, pid, last, draw).Some?
    ensures var t' := Issue(sha, t, pid, last, draw).value.0;
      && Derived(sha, root, t')
      && (Conserved(root, t') <==> (pid in t.shards ==> t.shards[pid].desc.share == ZeroShare()))
  {
    NewShardTakes(sha, t, pid, last, draw);
    var (t', c) := Issue(sha, t, pid, last, draw).value;
    DerivedIff(sha, root, c.desc, c);
    Tracked(t.sharer.curr, t'.sharer.curr, t.shards, pid, c);
    Dropped(t.sharer.curr, t.shards, pid);
  }

  /** The second of two shards with the same attempt identifier loses the first: the payment is then complete for
      the sender, and its receiver computes a wrong root. */
  lemma ReissueLoses(sha: Hash, root: Share, pid: nat, left: Share, i: uint32, j: uint32)
    requires root != ZeroShare() && left != ZeroShare()
    ensures var t1 := Step(sha, Init(root), New(pid, false, Draw(Some(i), Some(left))));
      var t2 := Step(sha, t1, New(pid, true, Draw(Some(j), None)));
      && Conserved(root, t1) && !Conserved(root, t2)
      && t2.sharer.curr == ZeroShare() && t2.shards.Keys == {pid} && XorSeq([t2.shards[pid].desc]) != root
  {
    InitInv(sha, root);
    var e1, e2 := Draw(Some(i), Some(left)), Draw(Some(j), None);
    NewShardConserves(sha, root, Init(root), pid, false, e1);
    var t1 := Issue(sha, Init(root), pid, false, e1).value.0;
    NewShardConserves(sha, root, t1, pid, true, e2);
    var t2 := Issue(sha, t1, pid, true, e2).value.0;
    var desc := t2.shards[pid].desc;
    OneListed(desc);
    CancelZero(root, left);
    assert desc.share == Xor(root, left);
  }

  lemma OneListed(desc: ChildDesc)
    ensures XorSeq([desc]) == desc.share
  {
    assert [desc][..0] == [];
    XorLaws(ZeroShare(), desc.share, ZeroShare());
    XorLaws(desc.share, ZeroShare(), ZeroShare());
  }

  lemma CancelConserves(sha: Hash, root: Share, t: Tracker, pid: nat)
    requires Inv(sha, root, t) && pid in t.shards
    ensures var t' := Withdraw(t, pid).value;
      Inv(sha, root, t') && t'.shards == t.shards - {pid} && t.sharer.curr == Xor(t'.sharer.curr, t.shards[pid].desc.share)
  {
    XorLaws(t.sharer.curr, t.shards[pid].desc.share, t.shards[pid].desc.share);
    XorLaws(t.sharer.curr, ZeroShare(), ZeroShare());
    XorMapAny(t.shards, pid);
    MoveShare(t.sharer.curr, t.shards[pid].desc.share, XorMap(t.shards - {pid}));
  }

  // ----- runs

  datatype Event = New(pid: nat, last: bool, draw: Draw) | Cancel(pid: nat)

  /** The tracker after an event; a failing operation changes nothing. */
  function Step(sha: Hash, t: Tracker, e: Event): Tracker {
    match e
    case New(pid, last, draw) =>
      if Issue(sha, t, pid, last, draw).Some? then Issue(sha, t, pid, last, draw).value.0 else t
    case Cancel(pid) => if Withdraw(t, pid).Some? then Withdraw(t, pid).value else t
  }

  /** Attempt identifiers are not reused while they are tracked. */
  predicate Proper(t: Tracker, e: Event) {
    e.New? ==> e.pid !in t.shards
  }

  ghost predicate Run(sha: Hash, t: Tracker, events: seq<Event>, t': Tracker)
    decreases events
  {
    if events == [] then t == t'
    else Proper(t, events[0]) && Run(sha, Step(sha, t, events[0]), events[1..], t')
  }

  lemma {:induction false} RunConserves(sha: Hash, root: Share, t: Tracker, events: seq<Event>, t': Tracker)
    requires Inv(sha, root, t) && Run(sha, t, events, t')
    ensures Inv(sha, root, t')
    decreases events
  {
    if events != [] {
      match events[0]
      case New(pid, last, draw) =>
        if Issue(sha, t, pid, last, draw).Some? { NewShardConserves(sha, root, t, pid, last, draw); }
        RunConserves(sha, root, Step(sha, t, events[0]), events[1..], t');
      case Cancel(pid) =>
        if pid in t.shards { CancelConserves(sha, root, t, pid); }
        RunConserves(sha, root, Step(sha, t, events[0]), events[1..], t');
    }
  }

  // ----- the receiver

  /** ReconstructChildren: the root is accumulated in place. The children are those that belong to the descriptors
      and to the exclusive or of all shares. */
  method ReconstructChildren(sha: Hash, descs: seq<ChildDesc>) returns (children: seq<Child>)
    ensures Rebuilt(sha, descs, children)
  {
    children := DeriveAll(sha, descs);
    forall i | 0 <= i < |descs| ensures children[i].desc == descs[i] && Belongs(sha, XorSeq(descs), children[i]) {
      DerivedIff(sha, XorSeq(descs), descs[i], children[i]);
    }
  }

  ghost predicate Rebuilt(sha: Hash, descs: seq<ChildDesc>, children: seq<Child>) {
    && |children| == |descs|
    && forall i :: 0 <= i < |descs| ==> children[i].desc == descs[i] && Belongs(sha, XorSeq(descs), children[i])
  }

  method DeriveAll(sha: Hash, descs: seq<ChildDesc>) returns (children: seq<Child>)
    ensures |children| == |descs|
    ensures forall i :: 0 <= i < |descs| ==> children[i] == DeriveChild(sha, XorSeq(descs), descs[i])
  {
    var root := new bv8[SHARE_SIZE](_ => 0);
    assert root[..] == ZeroShare();
    for i := 0 to |descs|
      invariant root.Length == SHARE_SIZE && root[..] == XorSeq(descs[..i])
    {
      assert descs[..i + 1][..i] == descs[..i];
      var share := new bv8[SHARE_SIZE](k requires 0 <= k < SHARE_SIZE => descs[i].share[k]);
      assert share[..] == descs[i].share;
      XorInto(root, root, share);
    }
    assert descs[..|descs|] == descs;
    children := [];
    for i := 0 to |descs|
      invariant |children| == i
      invariant forall j :: 0 <= j < i ==> children[j] == DeriveChild(sha, XorSeq(descs), descs[j])
    {
      children := children + [DeriveChild(sha, root[..], descs[i])];
    }
  }

  /** The receiver of all tracked descriptors, in any order, computes the true root exactly when the
      current share is zero, and then rebuilds exactly the tracked children. */
  lemma Reconstruction(sha: Hash, root: Share, t: Tracker, pids: seq<nat>, descs: seq<ChildDesc>, children: seq<Child>)
    requires Inv(sha, root, t) && Listing(t.shards, pids, descs) && Rebuilt(sha, descs, children)
    ensures XorSeq(descs) == root <==> t.sharer.curr == ZeroShare()
    ensures t.sharer.curr == ZeroShare() ==> forall i :: 0 <= i < |descs| ==> children[i] == t.shards[pids[i]]
  {
    AnyListing(t.shards, pids, descs);
    XorLaws(t.sharer.curr, XorMap(t.shards), ZeroShare());
    CancelZero(XorMap(t.shards), t.sharer.curr);
    if t.sharer.curr == ZeroShare() {
      forall i | 0 <= i < |descs| ensures children[i] == t.shards[pids[i]] {
        DerivedIff(sha, root, descs[i], children[i]);
      }
    }
  }

  /** Every preimage that the receiver rebuilds settles the hash that the sender gave out for that shard. */
  ghost predicate AllSettle(sha: Hash, t: Tracker, pids: seq<nat>, children: seq<Child>) {
    |children| == |pids| && forall i :: 0 <= i < |pids| ==>
      pids[i] in t.shards && sha(children[i].preimage) == t.shards[pids[i]].hash
  }

  /** What a payment in flight means for its receiver, for every run of the sender: when all shares have been
      handed out, and only then, the receiver has the root, and the preimages settle the hashes. */
  lemma EveryRun(sha: Hash, root: Share, events: seq<Event>, t: Tracker, pids: seq<nat>, descs: seq<ChildDesc>,
                 children: seq<Child>)
    requires Run(sha, Init(root), events, t) && Listing(t.shards, pids, descs) && Rebuilt(sha, descs, children)
    ensures Conserved(root, t)
    ensures forall pid :: pid in t.shards ==> Belongs(sha, root, t.shards[pid])
    ensures XorSeq(descs) == root <==> t.sharer.curr == ZeroShare()
    ensures t.sharer.curr == ZeroShare() ==> forall i :: 0 <= i < |descs| ==> children[i] == t.shards[pids[i]]
    ensures t.sharer.curr == ZeroShare() ==> AllSettle(sha, t, pids, children)
  {
    InitInv(sha, root);
    RunConserves(sha, root, Init(root), events, t);
    Reconstruction(sha, root, t, pids, descs, children);
    forall pid | pid in t.shards ensures Belongs(sha, root, t.shards[pid]) {
      DerivedIff(sha, root, t.shards[pid].desc, t.shards[pid]);
    }
  }

  // ----- the tracker object

  class TrackerObject {
    const sha: Hash
    const root: Share
    var sharer: Sharer
    var shards: map<nat, Child>

    ghost function View(): Tracker
      reads this
    {
      Tracker(sharer, shards)
    }

    constructor (sha: Hash, root: Share)
      ensures this.sha == sha && this.root == root
      ensures View() == Init(root) && Inv(sha, root, View())
    {
      this.sha, this.root := sha, root;
      sharer, shards := Sharer(root, root), map[];
      InitInv(sha, root);
    }

    /** The tracked children stay derived from the root, and the root is conserved unless a share is lost. */
    method NewShard(pid: nat, last: bool, draw: Draw) returns (r: Option<Child>)
      requires Inv(sha, root, View())
      modifies this
      ensures r.None? <==> Issue(sha, old(View()), pid, last, draw).None?
      ensures r.None? ==> View() == old(View())
      ensures r.Some? ==> Issue(sha, old(View()), pid, last, draw) == Some((View(), r.value))
      ensures Issued(sha, old(View()), View(), pid, last, draw, r)
      ensures Derived(sha, root, View())
      ensures Conserved(root, View())
        <==> (r.Some? && pid in old(shards) ==> old(shards)[pid].desc.share == ZeroShare())
    {
      ghost var before := View();
      r := TakeShare(pid, last, draw);
      NewShardTakes(sha, before, pid, last, draw);
      if r.Some? { NewShardConserves(sha, root, before, pid, last, draw); }
    }

    method TakeShare(pid: nat, last: bool, draw: Draw) returns (r: Option<Child>)
      modifies this
      ensures r.None? <==> Issue(sha, old(View()), pid, last, draw).None?
      ensures r.None? ==> View() == old(View())
      ensures r.Some? ==> Issue(sha, old(View()), pid, last, draw) == Some((View(), r.value))
    {
      if draw.index.None? { return None; }
      var child: Child;
      if last {
        child := sharer.DeriveAt(sha, draw.index.value);
        sharer := sharer.Zero();
      } else {
        var halves := sharer.Split(draw.left);
        if halves.None? { return None; }
        sharer := halves.value.1;
        child := halves.value.0.DeriveAt(sha, draw.index.value);
      }
      shards := shards[pid := child];
      r := Some(child);
    }

    method CancelShard(pid: nat) returns (found: bool)
      requires Inv(sha, root, View())
      modifies this
      ensures found == (pid in old(shards))
      ensures if found then Withdraw(old(View()), pid) == Some(View()) else View() == old(View())
      ensures Inv(sha, root, View())
    {
      if pid !in shards { return false; }
      CancelConserves(sha, root, View(), pid);
      var c := shards[pid];
      shards := shards - {pid};
      sharer := sharer.Merge(c);
      found := true;
    }

    /** The hash is that of the tracked child, which belongs to the root. */
    method GetHash(pid: nat) returns (hash: Option<seq<bv8>>)
      requires Inv(sha, root, View())
      ensures hash == if pid in shards then Some(shards[pid].hash) else None
      ensures pid in shards ==> Belongs(sha, root, shards[pid])
    {
      if pid !in shards { return None; }
      DerivedIff(sha, root, shards[pid].desc, shards[pid]);
      hash := Some(shards[pid].hash);
    }
  }
}
