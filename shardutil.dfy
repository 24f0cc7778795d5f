/** The shard predicate: a managed object is reconciled by this replica iff
    the 32-bit FNV-1a hash of its name, reduced modulo the number of
    replicas, is this replica's shard. */
module ShardUtil {

  type byte = bv8
  type uint32 = x: int | 0 <= x < 0x1_0000_0000

  const OffsetBasis: bv32 := 2166136261
  const Prime: bv32 := 16777619

  /** One FNV-1a round: XOR the byte in, then multiply modulo 2^32. */
  function Round(h: bv32, b: byte): bv32 {
    (h ^ (b as bv32)) * Prime
  }

  /** The hash state after feeding `s` into a hasher whose state is `h`. */
  function Feed(h: bv32, s: seq<byte>): bv32
    decreases |s|
  {
    if s == [] then h else Feed(Round(h, s[0]), s[1..])
  }

  /** `hashString`: FNV-1a 32 of the name's bytes. */
  function HashString(s: seq<byte>): bv32 {
    Feed(OffsetBasis, s)
  }

  /** Writing a name in two pieces gives the same state as writing it at
      once: the hasher's `Write` is a left fold. */
  lemma {:induction false} FeedAppend(h: bv32, s: seq<byte>, t: seq<byte>)
    ensures Feed(h, s + t) == Feed(Feed(h, s), t)
    decreases |s|
  {
    if s != [] {
      assert (s + t)[1..] == s[1..] + t;
      FeedAppend(Round(h, s[0]), s[1..], t);
    } else {
      assert s + t == t;
    }
  }

  /** The hash of a name extended by one byte is one more round on the
      hash of the name. */
  lemma HashSnoc(s: seq<byte>, b: byte)
    ensures HashString(s + [b]) == Round(HashString(s), b)
  {
    FeedAppend(OffsetBasis, s, [b]);
  }

  /** The standard FNV-1a 32 test vectors for "" and "a". */
  lemma HashVectors()
    ensures HashString([]) == 2166136261
    ensures HashString([0x61]) == 0xe40c292c
  {
  }

  /** The hasher as it runs: start from the offset basis and apply one round
      per byte. */
  method HashLoop(s: seq<byte>) returns (h: bv32)
    ensures h == HashString(s)
  {
    h := OffsetBasis;
    var i := 0;
    while i < |s|
      invariant 0 <= i <= |s|
      invariant Feed(h, s[i..]) == HashString(s)
    {
      assert s[i..][1..] == s[i + 1..];
      h := Round(h, s[i]);
      i := i + 1;
    }
    assert s[i..] == [];
  }

  /** `isResourceForShardHelper` on the object's name.  `hash % totalShards`
      divides by zero in Go when `totalShards == 0`, so callers must supply a
      positive replica count. */
  function IsResourceForShardHelper(name: seq<byte>, targetShard: uint32, totalShards: uint32): (r: bool)
    requires totalShards > 0
    ensures r ==> targetShard < totalShards
    ensures r <==> ShardOf(name, totalShards) == targetShard
  {
    (HashString(name) as int) % (totalShards as int) == targetShard
  }

  /** The one shard that accepts a name. */
  function ShardOf(name: seq<byte>, totalShards: uint32): (shard: uint32)
    requires totalShards > 0
    ensures shard < totalShards
  {
    (HashString(name) as int) % (totalShards as int)
  }

  /** Every name is accepted by exactly one shard in [0, totalShards). */
  lemma ExactlyOneShard(name: seq<byte>, totalShards: uint32)
    requires totalShards > 0
    ensures exists t: uint32 :: t < totalShards && IsResourceForShardHelper(name, t, totalShards)
    ensures forall t1: uint32, t2: uint32 ::
      IsResourceForShardHelper(name, t1, totalShards) && IsResourceForShardHelper(name, t2, totalShards) ==> t1 == t2
  {
    var s := ShardOf(name, totalShards);
    assert IsResourceForShardHelper(name, s, totalShards);
  }

  /** A target shard outside [0, totalShards) accepts nothing. */
  lemma OutOfRangeShardAcceptsNothing(name: seq<byte>, targetShard: uint32, totalShards: uint32)
    requires 0 < totalShards <= targetShard
    ensures !IsResourceForShardHelper(name, targetShard, totalShards)
  {
  }

  /** The parts of a Kubernetes object the predicate can see. */
  datatype Object = Object(name: seq<byte>, namespace: seq<byte>, labels: map<seq<byte>, seq<byte>>)

  /** The four controller-runtime event kinds. */
  datatype Event =
    | CreateEvent(obj: Object)
    | UpdateEvent(objectOld: Object, objectNew: Object)
    | DeleteEvent(obj: Object)
    | GenericEvent(obj: Object)

  /** The object each event kind is judged by: `ObjectNew` for updates,
      `Object` for the others. */
  function Subject(e: Event): (o: Object)
    ensures e.UpdateEvent? ==> o == e.objectNew
    ensures !e.UpdateEvent? ==> o == e.obj
  {
    match e
    case CreateEvent(o) => o
    case UpdateEvent(_, n) => n
    case DeleteEvent(o) => o
    case GenericEvent(o) => o
  }

  /** `IsResourceForShard(targetShard, totalShards)` applied to an event. */
  function IsResourceForShard(targetShard: uint32, totalShards: uint32, e: Event): (r: bool)
    requires totalShards > 0
    ensures r ==> targetShard < totalShards
  {
    IsResourceForShardHelper(Subject(e).name, targetShard, totalShards)
  }

  /** Only the name of the judged object matters: two events whose judged
      objects share a name are filtered alike, whatever their kinds, their
      namespaces, labels or (for updates) old objects. */
  lemma OnlyNameMatters(targetShard: uint32, totalShards: uint32, e1: Event, e2: Event)
    requires totalShards > 0
    requires Subject(e1).name == Subject(e2).name
    ensures IsResourceForShard(targetShard, totalShards, e1) == IsResourceForShard(targetShard, totalShards, e2)
  {
  }

  /** For any event, exactly one shard in [0, totalShards) processes it. */
  lemma EveryEventHasOneShard(totalShards: uint32, e: Event)
    requires totalShards > 0
    ensures IsResourceForShard(ShardOf(Subject(e).name, totalShards), totalShards, e)
    ensures forall t: uint32 :: IsResourceForShard(t, totalShards, e) ==> t == ShardOf(Subject(e).name, totalShards)
  {
  }
}
