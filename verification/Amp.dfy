/** AMP secret sharing of amp/: shares, children, and the shard tracker. */
module Amp {
  import opened Options

  const SHARE_SIZE: nat := 32

  type Share = s: seq<bv8> | |s| == SHARE_SIZE witness seq(SHARE_SIZE, i => 0)

  /** The all-zero share. */
  function ZeroShare(): Share {
    seq(SHARE_SIZE, i => 0)
  }

  /** The byte-wise exclusive or. */
  function Xor(x: Share, y: Share): Share {
    seq(SHARE_SIZE, i requires 0 <= i < SHARE_SIZE => x[i] ^ y[i])
  }

  lemma XorLaws(x: Share, y: Share, z: Share)
    ensures Xor(x, y) == Xor(y, x)
    ensures Xor(Xor(x, y), z) == Xor(x, Xor(y, z))
    ensures Xor(x, ZeroShare()) == x
    ensures Xor(x, x) == ZeroShare()
  {
    forall i | 0 <= i < SHARE_SIZE ensures (x[i] ^ y[i]) ^ z[i] == x[i] ^ (y[i] ^ z[i]) && x[i] ^ x[i] == 0 {}
  }

  /** Share.Xor: z may be the same slice as x or y. */
  method XorInto(z: array<bv8>, x: array<bv8>, y: array<bv8>)
    requires z.Length == x.Length == y.Length == SHARE_SIZE
    modifies z
    ensures z[..] == Xor(old(x[..]), old(y[..]))
    ensures forall i :: 0 <= i < SHARE_SIZE ==> z[i] == old(x[i]) ^ old(y[i])
  {
    for i := 0 to z.Length
      invariant forall j :: 0 <= j < i ==> z[j] == old(x[j]) ^ old(y[j])
      invariant forall j :: i <= j < z.Length ==> x[j] == old(x[j]) && y[j] == old(y[j])
    {
      z[i] := x[i] ^ y[i];
    }
  }

  // ----- children

  type uint32 = x: int | 0 <= x < 0x1_0000_0000

  datatype ChildDesc = ChildDesc(share: Share, index: uint32)

  datatype Child = Child(desc: ChildDesc, preimage: seq<bv8>, hash: seq<bv8>)

  function BigEndian32(x: uint32): seq<bv8> {
    [(x / 0x100_0000) as bv8, (x / 0x1_0000 % 256) as bv8, (x / 0x100 % 256) as bv8, (x % 256) as bv8]
  }

  function Preimage(sha: seq<bv8> -> seq<bv8>, root: Share, desc: ChildDesc): seq<bv8> {
    sha(root + desc.share + BigEndian32(desc.index))
  }

  /** DeriveChild, for a given hash function. */
  function DeriveChild(sha: seq<bv8> -> seq<bv8>, root: Share, desc: ChildDesc): Child {
    Child(desc, Preimage(sha, root, desc), sha(Preimage(sha, root, desc)))
  }

  /** What a child's preimage is the hash of: the root, then the share, then the index with its most significant
      byte first. */
  ghost predicate Encodes(m: seq<bv8>, root: Share, desc: ChildDesc) {
    && |m| == 68 && m[..32] == root && m[32..64] == desc.share
    && Number32(m[64..]) == desc.index
  }

  ghost function Number32(b: seq<bv8>): int
    requires |b| == 4
  {
    b[0] as int * 0x100_0000 + b[1] as int * 0x1_0000 + b[2] as int * 0x100 + b[3] as int
  }

  /** The child has the preimage that belongs to its descriptor and the root, and the hash that the preimage
      settles. */
  ghost predicate Belongs(sha: seq<bv8> -> seq<bv8>, root: Share, c: Child) {
    && (exists m :: Encodes(m, root, c.desc) && c.preimage == sha(m))
    && c.hash == sha(c.preimage)
  }

  lemma ByteRound(n: int)
    requires 0 <= n < 256
    ensures (n as bv8) as int == n
  {
    var high, low := n / 16, n % 16;
    assert ((16 * high + low) as bv8) as int == 16 * high + low;
  }

  lemma SameByte(a: bv8, b: bv8)
    requires a as int == b as int
    ensures a == b
  {
  }

  lemma Digits(x: uint32)
    ensures x / 0x100_0000 * 0x100_0000 + x / 0x1_0000 % 256 * 0x1_0000 + x / 0x100 % 256 * 0x100 + x % 256 == x
    ensures x / 0x100_0000 < 256
  {
    assert x / 0x1_0000 == x / 0x100 / 256 && x / 0x100_0000 == x / 0x1_0000 / 256;
  }

  lemma SameDigits(a: int, b: int, c: int, d: int, a': int, b': int, c': int, d': int)
    requires 0 <= b < 256 && 0 <= c < 256 && 0 <= d < 256 && 0 <= b' < 256 && 0 <= c' < 256 && 0 <= d' < 256
    requires a * 0x100_0000 + b * 0x1_0000 + c * 0x100 + d == a' * 0x100_0000 + b' * 0x1_0000 + c' * 0x100 + d'
    ensures a == a' && b == b' && c == c' && d == d'
  {
  }

  lemma BigEndianNumber(x: uint32)
    ensures Number32(BigEndian32(x)) == x
  {
    Digits(x);
    ByteRound(x / 0x100_0000);
    ByteRound(x / 0x1_0000 % 256);
    ByteRound(x / 0x100 % 256);
    ByteRound(x % 256);
  }

  lemma NumberOnce(b: seq<bv8>, c: seq<bv8>)
    requires |b| == |c| == 4 && Number32(b) == Number32(c)
    ensures b == c
  {
    SameDigits(b[0] as int, b[1] as int, b[2] as int, b[3] as int, c[0] as int, c[1] as int, c[2] as int, c[3] as int);
    SameByte(b[0], c[0]);
    SameByte(b[1], c[1]);
    SameByte(b[2], c[2]);
    SameByte(b[3], c[3]);
  }

  /** No other message encodes the same, and a message encodes nothing else. */
  lemma EncodesOnce(m: seq<bv8>, root: Share, desc: ChildDesc, m': seq<bv8>, root': Share, desc': ChildDesc)
    requires Encodes(m, root, desc) && Encodes(m', root', desc')
    ensures m == m' <==> root == root' && desc == desc'
  {
    if root == root' && desc == desc' {
      NumberOnce(m[64..], m'[64..]);
      assert m == m[..32] + m[32..64] + m[64..];
      assert m' == m'[..32] + m'[32..64] + m'[64..];
    }
  }

  /** DeriveChild gives the one child that belongs to the descriptor and the root. */
  lemma DerivedIff(sha: seq<bv8> -> seq<bv8>, root: Share, desc: ChildDesc, c: Child)
    ensures c == DeriveChild(sha, root, desc) <==> c.desc == desc && Belongs(sha, root, c)
  {
    var m := root + desc.share + BigEndian32(desc.index);
    assert m[..32] == root && m[32..64] == desc.share && m[64..] == BigEndian32(desc.index);
    BigEndianNumber(desc.index);
    assert Encodes(m, root, desc);
    if c.desc == desc && Belongs(sha, root, c) {
      var m' :| Encodes(m', root, c.desc) && c.preimage == sha(m');
      EncodesOnce(m, root, desc, m', root, desc);
    }
  }

  // ----- the exclusive or of many shares

  /** The exclusive or of a list of shares. */
  ghost function XorSeq(descs: seq<ChildDesc>): Share {
    if descs == [] then ZeroShare() else Xor(XorSeq(descs[..|descs| - 1]), descs[|descs| - 1].share)
  }

  ghost function AnyKey(shards: map<nat, Child>): (pid: nat)
    requires shards != map[]
    ensures pid in shards
  {
    assert shards.Keys != {};
    var pid :| pid in shards; pid
  }

  /** The exclusive or of all tracked shares. */
  ghost function XorMap(shards: map<nat, Child>): Share {
    if shards == map[] then ZeroShare()
    else Xor(XorMap(shards - {AnyKey(shards)}), shards[AnyKey(shards)].desc.share)
  }

  lemma Exchange(a: Share, b: Share, c: Share)
    ensures Xor(Xor(a, b), c) == Xor(Xor(a, c), b)
  {
    XorLaws(a, b, c);
    XorLaws(a, c, b);
    XorLaws(b, c, a);
  }

  /** The order in which shares are taken does not matter. */
  lemma {:induction false} XorMapAny(shards: map<nat, Child>, pid: nat)
    requires pid in shards
    ensures XorMap(shards) == Xor(XorMap(shards - {pid}), shards[pid].desc.share)
    decreases shards
  {
    var q := AnyKey(shards);
    if q != pid {
      XorMapAny(shards - {q}, pid);
      XorMapAny(shards - {pid}, q);
      assert shards - {q} - {pid} == shards - {pid} - {q};
      Exchange(XorMap(shards - {q} - {pid}), shards[pid].desc.share, shards[q].desc.share);
    }
  }

  lemma XorMapInsert(shards: map<nat, Child>, pid: nat, c: Child)
    requires pid !in shards
    ensures XorMap(shards[pid := c]) == Xor(XorMap(shards), c.desc.share)
  {
    XorMapAny(shards[pid := c], pid);
    assert shards[pid := c] - {pid} == shards;
  }

  /** A listing of the tracked shards in some order. */
  ghost predicate Listing(shards: map<nat, Child>, pids: seq<nat>, descs: seq<ChildDesc>) {
    && |pids| == |descs|
    && (forall i, j :: 0 <= i < j < |pids| ==> pids[i] != pids[j])
    && (forall pid :: pid in shards <==> pid in pids)
    && (forall i :: 0 <= i < |pids| ==> shards[pids[i]].desc == descs[i])
  }

  lemma ListingShorter(shards: map<nat, Child>, pids: seq<nat>, descs: seq<ChildDesc>)
    requires Listing(shards, pids, descs) && pids != []
    ensures var n := |pids| - 1; Listing(shards - {pids[n]}, pids[..n], descs[..n])
  {
    assert pids == pids[..|pids| - 1] + [pids[|pids| - 1]];
  }

  lemma {:induction false} AnyListing(shards: map<nat, Child>, pids: seq<nat>, descs: seq<ChildDesc>)
    requires Listing(shards, pids, descs)
    ensures XorSeq(descs) == XorMap(shards)
    decreases |pids|
  {
    if pids == [] {
      assert shards.Keys == {};
      assert shards == map[];
    } else {
      var n := |pids| - 1;
      var pid := pids[n];
      ListingShorter(shards, pids, descs);
      AnyListing(shards - {pid}, pids[..n], descs[..n]);
      XorMapAny(shards, pid);
    }
  }

  // ----- the sharer

  /** SeedSharer: Split, Merge, Zero and Child make new sharers. */
  datatype Sharer = Sharer(root: Share, curr: Share) {

    function Zero(): Sharer { Sharer(root, ZeroShare()) }

    function Merge(c: Child): Sharer { Sharer(root, Xor(curr, c.desc.share)) }

    function DeriveAt(sha: seq<bv8> -> seq<bv8>, index: uint32): Child {
      DeriveChild(sha, root, ChildDesc(curr, index))
    }

    /** Split: an error for the zero sharer and when no random left share can be drawn. */
    function Split(random: Option<Share>): Option<(Sharer, Sharer)> {
      if curr == ZeroShare() || random.None? then None
      else Some((Sharer(root, random.value), Sharer(root, Xor(curr, random.value))))
    }
  }

  lemma SplitConserves(s: Sharer, random: Option<Share>)
    requires s.Split(random).Some?
    ensures var (left, right) := s.Split(random).value;
      Xor(left.curr, right.curr) == s.curr && left.root == right.root == s.root
  {
    XorLaws(random.value, s.curr, random.value);
    XorLaws(random.value, random.value, s.curr);
    XorLaws(s.curr, random.value, ZeroShare());
    XorLaws(s.curr, ZeroShare(), ZeroShare());
  }

  /** Merging a child of a sharer into its zero sharer gives the sharer back. */
  lemma MergeIntoZero(sha: seq<bv8> -> seq<bv8>, s: Sharer, index: uint32)
    ensures s.Zero().Merge(s.DeriveAt(sha, index)) == s
  {
    XorLaws(ZeroShare(), s.curr, ZeroShare());
    XorLaws(s.curr, ZeroShare(), ZeroShare());
  }
}
