/** The arithmetic of consumer group lag (consumer/group_health.go), as a function of what the cluster reports. */
module Lag {
  import opened GoStrings
  import opened Options
  import opened Sequences
  import opened SetSums

  const MIN_INT64 := -0x8000_0000_0000_0000
  const MAX_INT64 := 0x7FFF_FFFF_FFFF_FFFF

  type int64 = x: int | -0x8000_0000_0000_0000 <= x <= 0x7FFF_FFFF_FFFF_FFFF
  type int32 = x: int | -0x8000_0000 <= x <= 0x7FFF_FFFF

  /** Two's complement wrap-around of a 64-bit result. */
  function Wrap64(x: int): int64
    decreases if x > MAX_INT64 then x - MAX_INT64 else if x < MIN_INT64 then MIN_INT64 - x else 0
  {
    if x > MAX_INT64 then Wrap64(x - 0x1_0000_0000_0000_0000)
    else if x < MIN_INT64 then Wrap64(x + 0x1_0000_0000_0000_0000)
    else x
  }

  lemma WrapPeriodic(x: int)
    ensures Wrap64(x + 0x1_0000_0000_0000_0000) == Wrap64(x)
    ensures MIN_INT64 <= x <= MAX_INT64 ==> Wrap64(x) == x
  {
  }

  /** Wrapping after every addition or once at the end is the same. */
  lemma {:induction false} WrapAdd(x: int, y: int)
    ensures Wrap64(Wrap64(x) + y) == Wrap64(x + y)
    decreases if x > MAX_INT64 then x - MAX_INT64 else if x < MIN_INT64 then MIN_INT64 - x else 0
  {
    if x > MAX_INT64 {
      WrapAdd(x - 0x1_0000_0000_0000_0000, y);
      WrapPeriodic(x + y - 0x1_0000_0000_0000_0000);
    } else if x < MIN_INT64 {
      WrapAdd(x + 0x1_0000_0000_0000_0000, y);
      WrapPeriodic(x + y);
    }
  }

  /** A committed offset; a negative one means that none is committed. */
  datatype Block = Block(failed: bool, offset: int64)

  /** What client and admin report; `None` is an error, and for `block` a nil block. */
  datatype Cluster = Cluster(
    partitions: GoString -> Option<seq<int32>>,
    newest: (GoString, int32) -> Option<int64>,
    offsetsOk: bool,
    block: (GoString, int32) -> Option<Block>)

  /**
    How far the committed offset is behind the newest: with none committed everything is, and one at or past
    the newest is not behind at all.
    */
  predicate Behind(newest: int, committed: int, lag: int) {
    newest >= 0 ==> lag == if committed < 0 then newest else if committed >= newest then 0 else newest - committed
  }

  /** The lag of one partition, in the machine's arithmetic. */
  function LagOf(latest: int64, committed: int64): (lag: int64)
    ensures lag >= 0
  {
    var lag := if committed >= 0 then Wrap64(latest - committed) else latest;
    if lag < 0 then 0 else lag
  }

  /** Every lookup for the partition succeeds. */
  predicate PartitionReadable(c: Cluster, t: GoString, p: int32) {
    c.newest(t, p).Some? && c.block(t, p).Some? && !c.block(t, p).value.failed
  }

  predicate TopicReadable(c: Cluster, t: GoString) {
    c.partitions(t).Some? && forall p | p in c.partitions(t).value :: PartitionReadable(c, t, p)
  }

  predicate Readable(c: Cluster, topics: set<GoString>) {
    c.offsetsOk && forall t | t in topics :: TopicReadable(c, t)
  }

  function PartitionsOf(c: Cluster, t: GoString): seq<int32> {
    if c.partitions(t).Some? then c.partitions(t).value else []
  }

  function PartitionLag(c: Cluster, t: GoString, p: int32): (lag: int64)
    ensures lag >= 0
  {
    if PartitionReadable(c, t, p) then LagOf(c.newest(t, p).value, c.block(t, p).value.offset) else 0
  }

  /** With a non-negative newest offset the subtraction cannot wrap, and the lag is at most that offset. */
  lemma LagInRange(latest: int64, committed: int64)
    requires latest >= 0
    ensures LagOf(latest, committed) ==
            if committed < 0 then latest else if latest <= committed then 0 else latest - committed
    ensures LagOf(latest, committed) <= latest
  {
  }

  /** The lag of a readable partition, from its newest and its committed offset. */
  lemma PartitionLagExactly(c: Cluster, t: GoString, p: int32)
    requires c.newest(t, p).Some? && c.block(t, p).Some? && !c.block(t, p).value.failed
    ensures Behind(c.newest(t, p).value, c.block(t, p).value.offset, PartitionLag(c, t, p))
  {
    if c.newest(t, p).value >= 0 {
      LagInRange(c.newest(t, p).value, c.block(t, p).value.offset);
    }
  }

  function LagAt(c: Cluster, t: GoString): int32 -> int {
    (p: int32) => PartitionLag(c, t, p)
  }

  ghost function TopicLag(c: Cluster, t: GoString): int {
    Sum(PartitionsOf(c, t), LagAt(c, t))
  }

  ghost function TopicLags(c: Cluster): GoString -> int {
    (t: GoString) => TopicLag(c, t)
  }

  /** The sum of the lags of all partitions of `topics`, as a mathematical integer. */
  ghost function TotalLag(c: Cluster, topics: set<GoString>): int {
    SumSet(topics, TopicLags(c))
  }

  /** `m` is the greatest partition lag of `topics`, or zero when there is no partition. */
  ghost predicate IsMaxLag(c: Cluster, topics: set<GoString>, m: int) {
    && m >= 0
    && (forall t, p | t in topics && p in PartitionsOf(c, t) :: PartitionLag(c, t, p) <= m)
    && (m == 0 || exists t, p :: t in topics && p in PartitionsOf(c, t) && PartitionLag(c, t, p) == m)
  }

  // ---- The rendered key ----------------------------------------------------------------------

  /** `fmt.Sprintf("%s[%d]", topic, partition)` */
  function Key(t: GoString, p: int32): GoString {
    t + "[" + RenderInt(p) + "]"
  }

  /** The last bracket of a key is the one after the topic. */
  lemma BracketPosition(t: GoString, p: int32)
    ensures |Key(t, p)| >= |t| + 3 && Key(t, p)[|t|] == '['
    ensures forall i | |t| < i < |Key(t, p)| :: Key(t, p)[i] != '['
  {
    var k, r := Key(t, p), RenderInt(p);
    forall i | |t| < i < |k| ensures k[i] != '[' {
      if i < |k| - 1 {
        assert k[i] == r[i - |t| - 1];
      }
    }
  }

  /** A key is the topic, and in brackets the partition as a decimal number. */
  lemma KeyLayout(t: GoString, p: int32)
    ensures var k := Key(t, p);
            && |k| >= |t| + 3 && k[..|t|] == t && k[|t|] == '[' && k[|k| - 1] == ']'
            && SpellsInt(k[|t| + 1..|k| - 1], p)
  {
    var k := Key(t, p);
    assert k[|t| + 1..|k| - 1] == RenderInt(p);
    RenderIntSpells(p);
  }

  /** Whatever the topic's bytes are, different topics or partitions have different keys. */
  lemma KeyInjective(t: GoString, p: int32, u: GoString, q: int32)
    requires Key(t, p) == Key(u, q)
    ensures t == u && p == q
  {
    var k, l := Key(t, p), Key(u, q);
    BracketPosition(t, p);
    BracketPosition(u, q);
    assert k[|u|] == '[' && l[|t|] == '[';
    assert |t| == |u|;
    assert k[..|t|] == t && l[..|u|] == u;
    assert k[|t| + 1..|k| - 1] == RenderInt(p) && l[|u| + 1..|l| - 1] == RenderInt(q);
    RenderIntInjective(p, q);
  }

  // ---- Staying in range ----------------------------------------------------------------------

  function NewestAt(c: Cluster, t: GoString): int32 -> int {
    (p: int32) => if c.newest(t, p).Some? then c.newest(t, p).value else 0
  }

  ghost function TopicNewest(c: Cluster): GoString -> int {
    (t: GoString) => Sum(PartitionsOf(c, t), NewestAt(c, t))
  }

  ghost predicate NewestNonNegative(c: Cluster, topics: set<GoString>) {
    forall t, p | t in topics && p in PartitionsOf(c, t) && c.newest(t, p).Some? :: c.newest(t, p).value >= 0
  }

  lemma TopicLagBounds(c: Cluster, topics: set<GoString>, t: GoString)
    requires t in topics && NewestNonNegative(c, topics)
    ensures 0 <= TopicLag(c, t) <= TopicNewest(c)(t)
    ensures forall p | p in PartitionsOf(c, t) :: PartitionLag(c, t, p) <= TopicLag(c, t)
  {
    var ps := PartitionsOf(c, t);
    forall p | p in ps ensures LagAt(c, t)(p) <= NewestAt(c, t)(p) {
      if PartitionReadable(c, t, p) {
        LagInRange(c.newest(t, p).value, c.block(t, p).value.offset);
      }
    }
    SumMonotone(ps, LagAt(c, t), NewestAt(c, t));
    SumBounds(ps, LagAt(c, t));
    forall p | p in ps ensures PartitionLag(c, t, p) <= TopicLag(c, t) {
      assert LagAt(c, t)(p) <= Sum(ps, LagAt(c, t));
    }
  }

  /**
    If the newest offsets are non-negative and their sum fits 64 bits, the total is the mathematical one, and
    the greatest lag is at most the total, which is at most that sum.
    */
  lemma LagFitsInt64(c: Cluster, topics: set<GoString>, m: int)
    requires NewestNonNegative(c, topics) && SumSet(topics, TopicNewest(c)) <= MAX_INT64
    requires IsMaxLag(c, topics, m)
    ensures 0 <= m <= TotalLag(c, topics) <= SumSet(topics, TopicNewest(c))
    ensures Wrap64(TotalLag(c, topics)) == TotalLag(c, topics)
  {
    forall t | t in topics ensures 0 <= TopicLags(c)(t) <= TopicNewest(c)(t) {
      TopicLagBounds(c, topics, t);
    }
    SumSetMonotone(topics, TopicLags(c), TopicNewest(c));
    SumSetBounds(topics, TopicLags(c));
    if m != 0 {
      var t, p :| t in topics && p in PartitionsOf(c, t) && PartitionLag(c, t, p) == m;
      TopicLagBounds(c, topics, t);
      assert TopicLags(c)(t) <= SumSet(topics, TopicLags(c));
    }
  }

  /**
    Nor does any sum on the way there wrap: whatever topics have been added up, and however many partitions
    of the next one, the running total stays between zero and the largest 64-bit value.
    */
  lemma RunningTotalFits(c: Cluster, topics: set<GoString>, done: set<GoString>, t: GoString, i: nat)
    requires NewestNonNegative(c, topics) && SumSet(topics, TopicNewest(c)) <= MAX_INT64
    requires done <= topics && t in topics - done && i <= |PartitionsOf(c, t)|
    ensures 0 <= TotalLag(c, done) + Sum(PartitionsOf(c, t)[..i], LagAt(c, t)) <= MAX_INT64
  {
    forall u | u in topics ensures 0 <= TopicLags(c)(u) <= TopicNewest(c)(u) {
      TopicLagBounds(c, topics, u);
    }
    SumSetMonotone(topics, TopicLags(c), TopicNewest(c));
    SumSetSubset(done + {t}, topics, TopicLags(c));
    SumSetAdd(done, t, TopicLags(c));
    SumSetBounds(done, TopicLags(c));
    SumBounds(PartitionsOf(c, t)[..i], LagAt(c, t));
    SumPrefix(PartitionsOf(c, t), i, LagAt(c, t));
  }

  // ---- Commits only lower the lag ------------------------------------------------------------

  /** `d` reports what `c` does, except that commits may have moved forward. */
  ghost predicate CommitsMoved(c: Cluster, d: Cluster, topics: set<GoString>) {
    && Readable(c, topics) && Readable(d, topics)
    && forall t | t in topics ::
         && d.partitions(t) == c.partitions(t)
         && forall p | p in PartitionsOf(c, t) ::
              d.newest(t, p) == c.newest(t, p) && c.block(t, p).value.offset <= d.block(t, p).value.offset
  }

  lemma PartitionLagAntitone(c: Cluster, d: Cluster, topics: set<GoString>, t: GoString, p: int32)
    requires CommitsMoved(c, d, topics) && t in topics && p in PartitionsOf(c, t) && c.newest(t, p).value >= 0
    ensures PartitionLag(d, t, p) <= PartitionLag(c, t, p)
  {
    assert TopicReadable(c, t) && TopicReadable(d, t);
    assert PartitionReadable(c, t, p) && PartitionReadable(d, t, p);
    LagInRange(c.newest(t, p).value, c.block(t, p).value.offset);
    LagInRange(c.newest(t, p).value, d.block(t, p).value.offset);
  }

  /** Moving commits forward raises neither a partition's lag, nor the total, nor the maximum. */
  lemma LagAntitone(c: Cluster, d: Cluster, topics: set<GoString>, m: int, n: int)
    requires CommitsMoved(c, d, topics) && NewestNonNegative(c, topics)
    requires IsMaxLag(c, topics, m) && IsMaxLag(d, topics, n)
    ensures forall t, p | t in topics && p in PartitionsOf(c, t) :: PartitionLag(d, t, p) <= PartitionLag(c, t, p)
    ensures TotalLag(d, topics) <= TotalLag(c, topics) && n <= m
  {
    forall t, p | t in topics && p in PartitionsOf(c, t) ensures PartitionLag(d, t, p) <= PartitionLag(c, t, p) {
      assert TopicReadable(c, t) && PartitionReadable(c, t, p);
      PartitionLagAntitone(c, d, topics, t, p);
    }
    forall t | t in topics ensures TopicLags(d)(t) <= TopicLags(c)(t) {
      SumMonotone(PartitionsOf(c, t), LagAt(d, t), LagAt(c, t));
    }
    SumSetMonotone(topics, TopicLags(d), TopicLags(c));
  }

  // ---- The map loses nothing -----------------------------------------------------------------

  ghost function KeysOf(c: Cluster, t: GoString, ps: seq<int32>): set<GoString> {
    set p | p in ps :: Key(t, p)
  }

  ghost function AllKeys(c: Cluster, topics: set<GoString>): set<GoString> {
    set t, p | t in topics && p in PartitionsOf(c, t) :: Key(t, p)
  }

  /** `m` maps the key of every partition of `topics` to its lag, and has no other keys. */
  ghost predicate IsLagMap(c: Cluster, topics: set<GoString>, m: map<GoString, int64>) {
    && m.Keys == AllKeys(c, topics)
    && forall t, p | t in topics && p in PartitionsOf(c, t) :: Key(t, p) in m && m[Key(t, p)] == PartitionLag(c, t, p)
  }

  function Lookup(m: map<GoString, int64>): GoString -> int {
    (k: GoString) => if k in m then m[k] else 0
  }

  ghost predicate NoDuplicates(ps: seq<int32>) {
    forall i, j | 0 <= i < j < |ps| :: ps[i] != ps[j]
  }

  lemma {:induction false} TopicKeysSum(c: Cluster, t: GoString, ps: seq<int32>, m: map<GoString, int64>)
    requires NoDuplicates(ps)
    requires forall p | p in ps :: Key(t, p) in m && m[Key(t, p)] == PartitionLag(c, t, p)
    ensures SumSet(KeysOf(c, t, ps), Lookup(m)) == Sum(ps, LagAt(c, t))
  {
    if ps == [] {
      assert KeysOf(c, t, ps) == {};
    } else {
      var n := |ps| - 1;
      var rest, k := KeysOf(c, t, ps[..n]), Key(t, ps[n]);
      TopicKeysSum(c, t, ps[..n], m);
      if k in rest {
        var p :| p in ps[..n] && Key(t, p) == k;
        KeyInjective(t, p, t, ps[n]);
      }
      assert KeysOf(c, t, ps) == rest + {k};
      SumSetAdd(rest, k, Lookup(m));
    }
  }

  /** With no partition listed twice, the values of the lag map add up to the total lag. */
  lemma {:induction false} MapSumsToTotal(c: Cluster, topics: set<GoString>, m: map<GoString, int64>)
    requires forall t | t in topics :: NoDuplicates(PartitionsOf(c, t))
    requires forall t, p | t in topics && p in PartitionsOf(c, t) ::
               Key(t, p) in m && m[Key(t, p)] == PartitionLag(c, t, p)
    ensures SumSet(AllKeys(c, topics), Lookup(m)) == TotalLag(c, topics)
    decreases topics
  {
    if topics == {} {
      assert AllKeys(c, topics) == {};
    } else {
      var t :| t in topics;
      var rest, own := AllKeys(c, topics - {t}), KeysOf(c, t, PartitionsOf(c, t));
      MapSumsToTotal(c, topics - {t}, m);
      TopicKeysSum(c, t, PartitionsOf(c, t), m);
      forall k | k in rest && k in own ensures false {
        var u, q :| u in topics - {t} && q in PartitionsOf(c, u) && Key(u, q) == k;
        var p :| p in PartitionsOf(c, t) && Key(t, p) == k;
        KeyInjective(u, q, t, p);
      }
      assert AllKeys(c, topics) == rest + own;
      SumSetUnion(rest, own, Lookup(m));
      SumSetTake(topics, t, TopicLags(c));
    }
  }
}
