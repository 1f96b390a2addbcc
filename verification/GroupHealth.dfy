/** The consumer group health checker (consumer/group_health.go). */
module GroupHealth {
  import opened GoStrings
  import opened Options
  import opened Sequences
  import opened SetSums
  import opened Lag

  datatype LagError =
    | ListingPartitions(topic: GoString)
    | ListingOffsets
    | LatestOffset(topic: GoString, partition: int32)
    | MissingCommittedOffset(topic: GoString, partition: int32)
    | CommittedOffset(topic: GoString, partition: int32)

  datatype LagSummary = LagSummary(totalLag: int64, maxPartitionLag: int64, byPartition: map<GoString, int64>)

  datatype LagResult = Lag(summary: LagSummary) | LagFailed(error: LagError)

  predicate AllListed(c: Cluster, topics: set<GoString>) {
    forall t | t in topics :: c.partitions(t).Some?
  }

  predicate Listed(c: Cluster, topics: set<GoString>, t: GoString, p: int32) {
    t in topics && c.partitions(t).Some? && p in c.partitions(t).value
  }

  /** Reading the offsets of partition `p` of topic `t` fails with `e`: the first of its lookups that does. */
  predicate ReadFails(c: Cluster, t: GoString, p: int32, e: LagError) {
    match e
    case LatestOffset(u, q) => u == t && q == p && c.newest(t, p).None?
    case MissingCommittedOffset(u, q) => u == t && q == p && c.newest(t, p).Some? && c.block(t, p).None?
    case CommittedOffset(u, q) =>
      u == t && q == p && c.newest(t, p).Some? && c.block(t, p).Some? && c.block(t, p).value.failed
    case _ => false
  }

  /** The lookup the error names is one that fails, and the listings that come before it succeeded. */
  predicate Occurs(c: Cluster, topics: set<GoString>, e: LagError) {
    match e
    case ListingPartitions(t) => t in topics && c.partitions(t).None?
    case ListingOffsets => AllListed(c, topics) && !c.offsetsOk
    case _ =>
      && AllListed(c, topics) && c.offsetsOk && Listed(c, topics, e.topic, e.partition)
      && ReadFails(c, e.topic, e.partition, e)
  }

  /** The summary of the topics: total, maximum and map of the partition lags. */
  ghost predicate Summarizes(c: Cluster, topics: set<GoString>, s: LagSummary) {
    && s.totalLag == Wrap64(TotalLag(c, topics))
    && IsMaxLag(c, topics, s.maxPartitionLag)
    && IsLagMap(c, topics, s.byPartition)
  }

  function TopicSet(topics: seq<GoString>): set<GoString> {
    set t | t in topics
  }

  // ---- What the loops accumulate -------------------------------------------------------------

  type Pair = (GoString, int32)

  ghost function PairsOf(t: GoString, ps: seq<int32>): set<Pair> {
    set p | p in ps :: (t, p)
  }

  ghost function AllPairs(c: Cluster, topics: set<GoString>): set<Pair> {
    set t, p | t in topics && p in PartitionsOf(c, t) :: (t, p)
  }

  /** `m` is the greatest lag of the partitions visited, or zero. */
  ghost predicate MaxOver(c: Cluster, visited: set<Pair>, m: int) {
    && m >= 0
    && (forall v | v in visited :: PartitionLag(c, v.0, v.1) <= m)
    && (m == 0 || exists v | v in visited :: PartitionLag(c, v.0, v.1) == m)
  }

  /** `m` holds the lag of every partition visited, and nothing else. */
  ghost predicate MapOver(c: Cluster, visited: set<Pair>, m: map<GoString, int64>) {
    && (forall v | v in visited :: Key(v.0, v.1) in m && m[Key(v.0, v.1)] == PartitionLag(c, v.0, v.1))
    && forall k | k in m :: exists v | v in visited :: Key(v.0, v.1) == k
  }

  lemma MaxGrows(c: Cluster, visited: set<Pair>, m: int, t: GoString, p: int32)
    requires MaxOver(c, visited, m)
    ensures MaxOver(c, visited + {(t, p)}, if PartitionLag(c, t, p) > m then PartitionLag(c, t, p) else m)
  {
    var lag, all := PartitionLag(c, t, p), visited + {(t, p)};
    if lag > m {
      assert (t, p) in all && PartitionLag(c, (t, p).0, (t, p).1) == lag;
    } else if m != 0 {
      var v :| v in visited && PartitionLag(c, v.0, v.1) == m;
      assert v in all;
    }
  }

  lemma MapGrows(c: Cluster, visited: set<Pair>, m: map<GoString, int64>, t: GoString, p: int32)
    requires MapOver(c, visited, m)
    ensures MapOver(c, visited + {(t, p)}, m[Key(t, p) := PartitionLag(c, t, p)])
  {
    var m', all := m[Key(t, p) := PartitionLag(c, t, p)], visited + {(t, p)};
    forall v | v in all ensures Key(v.0, v.1) in m' && m'[Key(v.0, v.1)] == PartitionLag(c, v.0, v.1) {
      if Key(v.0, v.1) == Key(t, p) {
        KeyInjective(v.0, v.1, t, p);
      }
    }
    forall k | k in m' ensures exists v | v in all :: Key(v.0, v.1) == k {
      if k == Key(t, p) {
        assert (t, p) in all && Key((t, p).0, (t, p).1) == k;
      } else {
        var v :| v in visited && Key(v.0, v.1) == k;
        assert v in all;
      }
    }
  }

  lemma PairsGrow(t: GoString, ps: seq<int32>, i: nat)
    requires i < |ps|
    ensures PairsOf(t, ps[..i + 1]) == PairsOf(t, ps[..i]) + {(t, ps[i])}
  {
    assert ps[..i + 1] == ps[..i] + [ps[i]];
  }

  lemma AllPairsGrow(c: Cluster, topics: set<GoString>, t: GoString)
    ensures AllPairs(c, topics + {t}) == AllPairs(c, topics) + PairsOf(t, PartitionsOf(c, t))
  {
  }

  ghost predicate TotalSoFar(c: Cluster, x: int, t: GoString, ps: seq<int32>, total: int64) {
    total == Wrap64(x + Sum(ps, LagAt(c, t)))
  }

  lemma TotalGrows(x: int, t: GoString, c: Cluster, ps: seq<int32>, i: nat, total: int64)
    requires i < |ps| && TotalSoFar(c, x, t, ps[..i], total)
    ensures TotalSoFar(c, x, t, ps[..i + 1], Wrap64(total + PartitionLag(c, t, ps[i])))
  {
    SumAppend(ps[..i], ps[i], LagAt(c, t));
    assert ps[..i + 1] == ps[..i] + [ps[i]];
    WrapAdd(x + Sum(ps[..i], LagAt(c, t)), PartitionLag(c, t, ps[i]));
  }

  /** The accumulations of one turn of the inner loop. */
  function AddLag(s: LagSummary, key: GoString, lag: int64): LagSummary {
    LagSummary(Wrap64(s.totalLag + lag),
               if lag > s.maxPartitionLag then lag else s.maxPartitionLag,
               s.byPartition[key := lag])
  }

  /** The accumulated summary of the topics `done`. */
  ghost predicate OverTopics(c: Cluster, done: set<GoString>, s: LagSummary) {
    && s.totalLag == Wrap64(TotalLag(c, done))
    && MaxOver(c, AllPairs(c, done), s.maxPartitionLag) && MapOver(c, AllPairs(c, done), s.byPartition)
  }

  ghost predicate LagsSoFar(
      c: Cluster, pairs: set<Pair>, t: GoString, ps: seq<int32>, m: int, lags: map<GoString, int64>) {
    MaxOver(c, pairs + PairsOf(t, ps), m) && MapOver(c, pairs + PairsOf(t, ps), lags)
  }

  /** The summary after partitions `ps` of topic `t`, on top of a total of `x` over the partitions `pairs`. */
  ghost predicate SoFar(c: Cluster, x: int, pairs: set<Pair>, t: GoString, ps: seq<int32>, s: LagSummary) {
    TotalSoFar(c, x, t, ps, s.totalLag) && LagsSoFar(c, pairs, t, ps, s.maxPartitionLag, s.byPartition)
  }

  lemma MaxIsMax(c: Cluster, topics: set<GoString>, m: int)
    requires MaxOver(c, AllPairs(c, topics), m)
    ensures IsMaxLag(c, topics, m)
  {
    forall t, p | t in topics && p in PartitionsOf(c, t) ensures PartitionLag(c, t, p) <= m {
      assert (t, p) in AllPairs(c, topics);
    }
  }

  lemma MapIsMap(c: Cluster, topics: set<GoString>, m: map<GoString, int64>)
    requires MapOver(c, AllPairs(c, topics), m)
    ensures IsLagMap(c, topics, m)
  {
    forall t, p | t in topics && p in PartitionsOf(c, t)
      ensures Key(t, p) in m && m[Key(t, p)] == PartitionLag(c, t, p)
    {
      assert (t, p) in AllPairs(c, topics);
    }
    forall k | k in m ensures k in AllKeys(c, topics) {
      var v :| v in AllPairs(c, topics) && Key(v.0, v.1) == k;
    }
  }

  lemma VisitedAll(c: Cluster, topics: set<GoString>, s: LagSummary)
    requires OverTopics(c, topics, s)
    ensures Summarizes(c, topics, s)
  {
    MaxIsMax(c, topics, s.maxPartitionLag);
    MapIsMap(c, topics, s.byPartition);
  }

  /**
    Every partition's entry is how far its committed offset is behind its newest one, and the maximum is the
    greatest entry, or zero when there is none.
    */
  ghost predicate TellsHowFarBehind(c: Cluster, topics: set<GoString>, s: LagSummary) {
    && (forall t, p | Listed(c, topics, t, p) ::
          && Key(t, p) in s.byPartition && c.newest(t, p).Some? && c.block(t, p).Some?
          && Behind(c.newest(t, p).value, c.block(t, p).value.offset, s.byPartition[Key(t, p)]))
    && (forall k | k in s.byPartition :: s.byPartition[k] <= s.maxPartitionLag)
    && (s.maxPartitionLag == 0 || exists k | k in s.byPartition :: s.byPartition[k] == s.maxPartitionLag)
  }

  lemma SummaryTells(c: Cluster, topics: set<GoString>, s: LagSummary)
    requires Readable(c, topics) && Summarizes(c, topics, s)
    ensures TellsHowFarBehind(c, topics, s)
  {
    forall t, p | Listed(c, topics, t, p)
      ensures Key(t, p) in s.byPartition && c.newest(t, p).Some? && c.block(t, p).Some?
           && Behind(c.newest(t, p).value, c.block(t, p).value.offset, s.byPartition[Key(t, p)])
    {
      assert TopicReadable(c, t) && p in PartitionsOf(c, t) && PartitionReadable(c, t, p);
      PartitionLagExactly(c, t, p);
    }
    forall k | k in s.byPartition ensures s.byPartition[k] <= s.maxPartitionLag {
      var t, p :| t in topics && p in PartitionsOf(c, t) && Key(t, p) == k;
    }
    if s.maxPartitionLag != 0 {
      var t, p :| t in topics && p in PartitionsOf(c, t) && PartitionLag(c, t, p) == s.maxPartitionLag;
      assert Key(t, p) in s.byPartition;
    }
  }

  lemma NoTopics(c: Cluster, s: LagSummary)
    requires s == LagSummary(0, 0, map[])
    ensures OverTopics(c, {}, s)
  {
    assert AllPairs(c, {}) == {};
  }

  lemma StartTopic(c: Cluster, done: set<GoString>, t: GoString, s: LagSummary)
    requires OverTopics(c, done, s)
    ensures SoFar(c, TotalLag(c, done), AllPairs(c, done), t, [], s)
  {
    assert AllPairs(c, done) + PairsOf(t, []) == AllPairs(c, done);
  }

  lemma VisitOne(
      c: Cluster, pairs: set<Pair>, t: GoString, ps: seq<int32>, i: nat, m: int, byPartition: map<GoString, int64>)
    requires i < |ps| && LagsSoFar(c, pairs, t, ps[..i], m, byPartition)
    ensures var lag := PartitionLag(c, t, ps[i]);
            LagsSoFar(c, pairs, t, ps[..i + 1], if lag > m then lag else m, byPartition[Key(t, ps[i]) := lag])
  {
    var before, after := pairs + PairsOf(t, ps[..i]), pairs + PairsOf(t, ps[..i + 1]);
    PairsGrow(t, ps, i);
    assert after == before + {(t, ps[i])};
    MaxGrows(c, before, m, t, ps[i]);
    MapGrows(c, before, byPartition, t, ps[i]);
  }

  lemma Visit(c: Cluster, x: int, pairs: set<Pair>, t: GoString, ps: seq<int32>, i: nat, s: LagSummary)
    requires i < |ps| && SoFar(c, x, pairs, t, ps[..i], s)
    ensures SoFar(c, x, pairs, t, ps[..i + 1], AddLag(s, Key(t, ps[i]), PartitionLag(c, t, ps[i])))
  {
    var next := AddLag(s, Key(t, ps[i]), PartitionLag(c, t, ps[i]));
    assert TotalSoFar(c, x, t, ps[..i + 1], next.totalLag) by {
      TotalGrows(x, t, c, ps, i, s.totalLag);
    }
    assert LagsSoFar(c, pairs, t, ps[..i + 1], next.maxPartitionLag, next.byPartition) by {
      VisitOne(c, pairs, t, ps, i, s.maxPartitionLag, s.byPartition);
    }
  }

  lemma FinishTotal(c: Cluster, done: set<GoString>, t: GoString, ps: seq<int32>, total: int64)
    requires t !in done && ps == PartitionsOf(c, t) && TotalSoFar(c, TotalLag(c, done), t, ps, total)
    ensures total == Wrap64(TotalLag(c, done + {t}))
  {
    SumSetAdd(done, t, TopicLags(c));
  }

  lemma FinishLags(
      c: Cluster, done: set<GoString>, t: GoString, ps: seq<int32>, m: int, lags: map<GoString, int64>)
    requires ps == PartitionsOf(c, t) && LagsSoFar(c, AllPairs(c, done), t, ps, m, lags)
    ensures MaxOver(c, AllPairs(c, done + {t}), m) && MapOver(c, AllPairs(c, done + {t}), lags)
  {
    AllPairsGrow(c, done, t);
  }

  lemma Finish(c: Cluster, done: set<GoString>, t: GoString, ps: seq<int32>, s: LagSummary)
    requires t !in done && ps == PartitionsOf(c, t)
    requires SoFar(c, TotalLag(c, done), AllPairs(c, done), t, ps[..|ps|], s)
    ensures OverTopics(c, done + {t}, s)
    ensures ps[..|ps|] == ps
  {
    assert ps[..|ps|] == ps;
    FinishTotal(c, done, t, ps, s.totalLag);
    FinishLags(c, done, t, ps, s.maxPartitionLag, s.byPartition);
  }

  lemma SetFacts(all: set<GoString>)
    ensures all - all == {} && all - {} == all
  {
  }

  lemma SetStep(all: set<GoString>, left: set<GoString>, t: GoString)
    requires t in left && left <= all
    ensures all - (left - {t}) == (all - left) + {t} && left - {t} <= all
  {
  }

  // ---- Assignments ---------------------------------------------------------------------------

  /** A decoded member assignment: the partitions per topic. */
  type Assignment = map<GoString, seq<int32>>

  function TopicCounts(a: Assignment): GoString -> int {
    (t: GoString) => if t in a then |a[t]| else 0
  }

  ghost function MemberCounts(members: map<GoString, Option<Assignment>>): GoString -> int {
    (m: GoString) => if m in members && members[m].Some?
          then SumSet(members[m].value.Keys, TopicCounts(members[m].value)) else 0
  }

  /** The number of partitions assigned to the group. */
  ghost function Assigned(members: map<GoString, Option<Assignment>>): int {
    SumSet(members.Keys, MemberCounts(members))
  }

  // ---- Verdicts ------------------------------------------------------------------------------

  datatype Degradation = NotStable(state: GoString) | LagExceeds(summary: LagSummary)

  datatype Cause = NoPartitionAssignments | LagCheckFailed(error: LagError) | ContextDone

  datatype Verdict = Healthy(summary: LagSummary) | Degraded(because: Degradation) | Unhealthy(why: Cause)

  /** What the lag alone decides, once the group is stable and has partitions. */
  ghost predicate LagVerdict(c: Cluster, topics: set<GoString>, maxLag: int64, done: bool, v: Verdict) {
    if !Readable(c, topics) then v.Unhealthy? && v.why.LagCheckFailed? && Occurs(c, topics, v.why.error)
    else if done then v == Unhealthy(ContextDone)
    else if maxLag > 0 && Wrap64(TotalLag(c, topics)) > maxLag then
      v.Degraded? && v.because.LagExceeds? && Summarizes(c, topics, v.because.summary)
    else v.Healthy? && Summarizes(c, topics, v.summary)
  }

  // ---- The methods ---------------------------------------------------------------------------

  class GroupHealthChecker {
    const topics: seq<GoString>
    const maxLag: int64
    const cluster: Cluster

    constructor (topics: seq<GoString>, maxLag: int64, cluster: Cluster)
      ensures this.topics == topics && this.maxLag == maxLag && this.cluster == cluster
    {
      this.topics, this.maxLag, this.cluster := topics, maxLag, cluster;
    }

    /** One partition's turn of the summary loops. */
    method ReadLag(t: GoString, p: int32) returns (lag: int64, err: Option<LagError>)
      ensures err.None? <==>
                cluster.newest(t, p).Some? && cluster.block(t, p).Some? && !cluster.block(t, p).value.failed
      ensures err.None? ==> Behind(cluster.newest(t, p).value, cluster.block(t, p).value.offset, lag)
      ensures err.None? ==> lag == PartitionLag(cluster, t, p)
      ensures err.Some? ==> ReadFails(cluster, t, p, err.value)
    {
      var latest := cluster.newest(t, p);
      if latest.None? {
        return 0, Some(LatestOffset(t, p));
      }
      var block := cluster.block(t, p);
      if block.None? {
        return 0, Some(MissingCommittedOffset(t, p));
      }
      if block.value.failed {
        return 0, Some(CommittedOffset(t, p));
      }
      lag := latest.value;
      if block.value.offset >= 0 {
        lag := Wrap64(latest.value - block.value.offset);
      }
      if lag < 0 {
        lag := 0;
      }
      return lag, None;
    }

    /** The listing loop: the partitions of every configured topic. */
    method ListPartitions() returns (topicPartitions: map<GoString, seq<int32>>, err: Option<LagError>)
      ensures err.None? <==> forall t | t in topics :: cluster.partitions(t).Some?
      ensures err.None? ==> topicPartitions.Keys == TopicSet(topics)
                            && forall t | t in topicPartitions :: topicPartitions[t] == PartitionsOf(cluster, t)
      ensures err.Some? ==> exists i | 0 <= i < |topics| ::
                && err.value == ListingPartitions(topics[i]) && cluster.partitions(topics[i]).None?
                && forall j | 0 <= j < i :: cluster.partitions(topics[j]).Some?
    {
      topicPartitions := map[];
      for i := 0 to |topics|
        invariant forall t | t in topics[..i] :: cluster.partitions(t).Some?
        invariant topicPartitions.Keys == TopicSet(topics[..i])
        invariant forall t | t in topicPartitions :: topicPartitions[t] == PartitionsOf(cluster, t)
      {
        var partitions := cluster.partitions(topics[i]);
        if partitions.None? {
          return topicPartitions, Some(ListingPartitions(topics[i]));
        }
        assert topics[..i + 1] == topics[..i] + [topics[i]];
        topicPartitions := topicPartitions[topics[i] := partitions.value];
      }
      assert topics[..|topics|] == topics;
      return topicPartitions, None;
    }

    /** The inner loop: the partitions of one topic, added to what the topics `done` have accumulated. */
    method AddTopic(topic: GoString, partitions: seq<int32>, before: LagSummary, ghost done: set<GoString>)
      returns (summary: LagSummary, err: Option<LagError>)
      requires topic !in done && OverTopics(cluster, done, before)
      requires cluster.partitions(topic) == Some(partitions)
      ensures err.None? <==> TopicReadable(cluster, topic)
      ensures err.None? ==> OverTopics(cluster, done + {topic}, summary)
      ensures err.Some? ==> exists p | p in partitions :: ReadFails(cluster, topic, p, err.value)
    {
      summary := before;
      ghost var total, pairs := TotalLag(cluster, done), AllPairs(cluster, done);
      StartTopic(cluster, done, topic, before);
      for i := 0 to |partitions|
        invariant forall p | p in partitions[..i] :: PartitionReadable(cluster, topic, p)
        invariant SoFar(cluster, total, pairs, topic, partitions[..i], summary)
      {
        var p := partitions[i];
        var lag, failure := ReadLag(topic, p);
        if failure.Some? {
          assert p in partitions && ReadFails(cluster, topic, p, failure.value);
          assert !PartitionReadable(cluster, topic, p);
          return summary, failure;
        }
        assert PartitionReadable(cluster, topic, p);
        Visit(cluster, total, pairs, topic, partitions, i, summary);
        summary := AddLag(summary, Key(topic, p), lag);
        TakeOneMore(partitions, i);
      }
      Finish(cluster, done, topic, partitions, summary);
      return summary, None;
    }

    /** The lag of all configured topics; the topics are summed in an arbitrary order, as a Go map yields them. */
    method CalculateLag() returns (r: LagResult)
      ensures r.Lag? <==> Readable(cluster, TopicSet(topics))
      ensures r.Lag? ==> Summarizes(cluster, TopicSet(topics), r.summary)
      ensures r.Lag? ==> TellsHowFarBehind(cluster, TopicSet(topics), r.summary)
      ensures r.LagFailed? ==> Occurs(cluster, TopicSet(topics), r.error)
    {
      var topicPartitions, err := ListPartitions();
      if err.Some? {
        ghost var i :| 0 <= i < |topics| && err.value == ListingPartitions(topics[i])
                       && cluster.partitions(topics[i]).None?;
        assert topics[i] in TopicSet(topics) && !TopicReadable(cluster, topics[i]);
        return LagFailed(err.value);
      }
      if !cluster.offsetsOk {
        return LagFailed(ListingOffsets);
      }
      var summary := LagSummary(0, 0, map[]);
      NoTopics(cluster, summary);
      var left := topicPartitions.Keys;
      ghost var all := left;
      SetFacts(all);
      while left != {}
        invariant left <= all
        invariant Readable(cluster, all - left) && OverTopics(cluster, all - left, summary)
        decreases left
      {
        var topic :| topic in left;
        summary, err := AddTopic(topic, topicPartitions[topic], summary, all - left);
        if err.Some? {
          return LagFailed(err.value);
        }
        SetStep(all, left, topic);
        left := left - {topic};
      }
      VisitedAll(cluster, all, summary);
      SummaryTells(cluster, all, summary);
      return Lag(summary);
    }

    /** `countAssignedPartitions`: members and topics come in an arbitrary order. */
    method CountAssignedPartitions(members: map<GoString, Option<Assignment>>) returns (total: nat, ok: bool)
      ensures ok <==> forall m | m in members :: members[m].Some?
      ensures ok ==> total == Assigned(members)
      ensures !ok ==> total == 0
    {
      total := 0;
      var left := members.Keys;
      ghost var all := left;
      SetFacts(all);
      while left != {}
        invariant left <= all
        invariant forall m | m in all - left :: members[m].Some?
        invariant total == SumSet(all - left, MemberCounts(members))
        decreases left
      {
        var member :| member in left;
        if members[member].None? {
          return 0, false;
        }
        var count := CountTopics(members[member].value);
        SumSetAdd(all - left, member, MemberCounts(members));
        SetStep(all, left, member);
        total := total + count;
        left := left - {member};
      }
      return total, true;
    }

    method CountTopics(assignment: Assignment) returns (count: nat)
      ensures count == SumSet(assignment.Keys, TopicCounts(assignment))
    {
      count := 0;
      var left := assignment.Keys;
      ghost var all := left;
      SetFacts(all);
      while left != {}
        invariant left <= all && count == SumSet(all - left, TopicCounts(assignment))
        decreases left
      {
        var topic :| topic in left;
        SumSetAdd(all - left, topic, TopicCounts(assignment));
        SetStep(all, left, topic);
        count := count + |assignment[topic]|;
        left := left - {topic};
      }
    }

    /** `evaluateHealth`; `done` says whether the context is done once the lag is known. */
    method EvaluateHealth(members: nat, state: GoString, partitions: nat, done: bool) returns (v: Verdict)
      ensures v == Unhealthy(NoPartitionAssignments) <==> members == 0 || partitions == 0
      ensures v.Degraded? && v.because.NotStable? <==> members > 0 && partitions > 0 && state != "Stable"
      ensures v.Degraded? && v.because.NotStable? ==> v.because.state == state
      ensures members > 0 && partitions > 0 && state == "Stable" && Readable(cluster, TopicSet(topics)) && !done ==>
                (v.Healthy? <==> maxLag <= 0 || Wrap64(TotalLag(cluster, TopicSet(topics))) <= maxLag)
      ensures members > 0 && partitions > 0 && state == "Stable" && Readable(cluster, TopicSet(topics)) && done ==>
                v == Unhealthy(ContextDone)
      ensures members > 0 && partitions > 0 && state == "Stable" ==>
                (v.Unhealthy? && v.why.LagCheckFailed? <==> !Readable(cluster, TopicSet(topics)))
      ensures members > 0 && partitions > 0 && state == "Stable" ==>
                LagVerdict(cluster, TopicSet(topics), maxLag, done, v)
    {
      if members == 0 || partitions == 0 {
        return Unhealthy(NoPartitionAssignments);
      }
      if state != "Stable" {
        return Degraded(NotStable(state));
      }
      var lag := CalculateLag();
      if lag.LagFailed? {
        return Unhealthy(LagCheckFailed(lag.error));
      }
      if done {
        return Unhealthy(ContextDone);
      }
      if maxLag > 0 && lag.summary.totalLag > maxLag {
        return Degraded(LagExceeds(lag.summary));
      }
      return Healthy(lag.summary);
    }
  }

  // ---- What the results mean -----------------------------------------------------------------

  /** One place per assigned partition: its member, its topic, and its position in the topic's list. */
  type Slot = (GoString, GoString, int)

  ghost function Row(m: GoString, t: GoString, n: nat): set<Slot> {
    set i | 0 <= i < n :: (m, t, i)
  }

  ghost function Rows(m: GoString, a: Assignment, topics: set<GoString>): set<Slot> {
    set t, i | t in topics && t in a && 0 <= i < |a[t]| :: (m, t, i)
  }

  ghost function MemberRows(members: map<GoString, Option<Assignment>>, m: GoString): set<Slot> {
    if m in members && members[m].Some? then Rows(m, members[m].value, members[m].value.Keys) else {}
  }

  ghost function Slots(members: map<GoString, Option<Assignment>>, among: set<GoString>): set<Slot> {
    set m, x | m in among && x in MemberRows(members, m) :: x
  }

  lemma {:induction false} RowSize(m: GoString, t: GoString, n: nat)
    ensures |Row(m, t, n)| == n
  {
    if n == 0 {
      assert Row(m, t, 0) == {};
    } else {
      RowSize(m, t, n - 1);
      assert Row(m, t, n) == Row(m, t, n - 1) + {(m, t, n - 1)};
    }
  }

  lemma {:induction false} RowsSize(m: GoString, a: Assignment, topics: set<GoString>)
    requires topics <= a.Keys
    ensures |Rows(m, a, topics)| == SumSet(topics, TopicCounts(a))
    decreases topics
  {
    if topics == {} {
      assert Rows(m, a, topics) == {};
    } else {
      var t :| t in topics;
      RowsSize(m, a, topics - {t});
      RowSize(m, t, |a[t]|);
      assert Rows(m, a, topics) == Rows(m, a, topics - {t}) + Row(m, t, |a[t]|);
      assert Rows(m, a, topics - {t}) !! Row(m, t, |a[t]|);
      SumSetTake(topics, t, TopicCounts(a));
    }
  }

  lemma SlotsSplit(members: map<GoString, Option<Assignment>>, among: set<GoString>, m: GoString)
    requires m in among
    ensures Slots(members, among) == Slots(members, among - {m}) + MemberRows(members, m)
    ensures Slots(members, among - {m}) !! MemberRows(members, m)
  {
    forall n, x | x in MemberRows(members, n) ensures x.0 == n {
    }
  }

  lemma {:induction false} SlotsSize(members: map<GoString, Option<Assignment>>, among: set<GoString>)
    requires among <= members.Keys && forall m | m in members :: members[m].Some?
    ensures |Slots(members, among)| == SumSet(among, MemberCounts(members))
    decreases among
  {
    if among == {} {
      assert Slots(members, among) == {};
    } else {
      var m :| m in among;
      SlotsSize(members, among - {m});
      RowsSize(m, members[m].value, members[m].value.Keys);
      SlotsSplit(members, among, m);
      SumSetTake(among, m, MemberCounts(members));
    }
  }

  /** The count is the number of assigned partitions, over all members, topics and list positions. */
  lemma AssignedCountsSlots(members: map<GoString, Option<Assignment>>)
    requires forall m | m in members :: members[m].Some?
    ensures Assigned(members) == |Slots(members, members.Keys)|
  {
    SlotsSize(members, members.Keys);
  }

  lemma NothingInAssignment(a: Assignment)
    ensures SumSet(a.Keys, TopicCounts(a)) >= 0
    ensures SumSet(a.Keys, TopicCounts(a)) == 0 <==> forall t | t in a :: a[t] == []
  {
    SumSetBounds(a.Keys, TopicCounts(a));
    SumSetZero(a.Keys, TopicCounts(a));
    assert forall t | t in a :: TopicCounts(a)(t) == 0 <==> a[t] == [];
  }

  /** The count is zero exactly when no member has any partition of any topic. */
  lemma NoneAssigned(members: map<GoString, Option<Assignment>>)
    requires forall m | m in members :: members[m].Some?
    ensures Assigned(members) == 0 <==>
            forall m, t | m in members && t in members[m].value :: members[m].value[t] == []
  {
    forall m | m in members
      ensures MemberCounts(members)(m) >= 0
      ensures MemberCounts(members)(m) == 0 <==> forall t | t in members[m].value :: members[m].value[t] == []
    {
      NothingInAssignment(members[m].value);
    }
    SumSetZero(members.Keys, MemberCounts(members));
  }

  /** The sums involved fit 64 bits. */
  ghost predicate InRange(c: Cluster, topics: set<GoString>) {
    NewestNonNegative(c, topics) && SumSet(topics, TopicNewest(c)) <= MAX_INT64
  }

  /** A healthy verdict under a threshold bounds the lag of every single partition by it. */
  lemma WithinThreshold(c: Cluster, topics: set<GoString>, maxLag: int64, v: Verdict)
    requires InRange(c, topics) && Readable(c, topics) && maxLag > 0
    requires LagVerdict(c, topics, maxLag, false, v) && v.Healthy?
    ensures forall t, p | t in topics && p in PartitionsOf(c, t) :: PartitionLag(c, t, p) <= maxLag
    ensures forall k | k in v.summary.byPartition :: v.summary.byPartition[k] <= maxLag
  {
    var s := v.summary;
    LagFitsInt64(c, topics, s.maxPartitionLag);
    forall k | k in s.byPartition ensures s.byPartition[k] <= maxLag {
      var t, p :| t in topics && p in PartitionsOf(c, t) && Key(t, p) == k;
    }
  }

  lemma SameNewest(c: Cluster, d: Cluster, topics: set<GoString>)
    requires InRange(c, topics) && CommitsMoved(c, d, topics)
    ensures InRange(d, topics)
  {
    forall t | t in topics ensures TopicNewest(d)(t) <= TopicNewest(c)(t) {
      assert PartitionsOf(d, t) == PartitionsOf(c, t);
      SumMonotone(PartitionsOf(c, t), NewestAt(d, t), NewestAt(c, t));
    }
    SumSetMonotone(topics, TopicNewest(d), TopicNewest(c));
  }

  /** Commits alone raise neither total nor maximum, and never turn a healthy verdict into another one. */
  lemma CommitsNeverDegrade(c: Cluster, d: Cluster, topics: set<GoString>, maxLag: int64, v: Verdict, w: Verdict)
    requires InRange(c, topics) && CommitsMoved(c, d, topics)
    requires LagVerdict(c, topics, maxLag, false, v) && LagVerdict(d, topics, maxLag, false, w) && v.Healthy?
    ensures w.Healthy?
    ensures w.summary.totalLag <= v.summary.totalLag && w.summary.maxPartitionLag <= v.summary.maxPartitionLag
  {
    var s := v.summary;
    var s' := if w.Healthy? then w.summary else w.because.summary;
    LagAntitone(c, d, topics, s.maxPartitionLag, s'.maxPartitionLag);
    SameNewest(c, d, topics);
    LagFitsInt64(c, topics, s.maxPartitionLag);
    LagFitsInt64(d, topics, s'.maxPartitionLag);
  }

  /** With no partition listed twice, the values of a summary's map add up to its total. */
  lemma MapLosesNothing(c: Cluster, topics: set<GoString>, s: LagSummary)
    requires InRange(c, topics) && Summarizes(c, topics, s)
    requires forall t | t in topics :: NoDuplicates(PartitionsOf(c, t))
    ensures SumSet(s.byPartition.Keys, Lookup(s.byPartition)) == s.totalLag
  {
    LagFitsInt64(c, topics, s.maxPartitionLag);
    MapSumsToTotal(c, topics, s.byPartition);
  }

  /** Two readings of the same cluster agree, whatever order the map yielded the topics in. */
  lemma SummaryUnique(c: Cluster, topics: set<GoString>, s: LagSummary, s': LagSummary)
    requires Summarizes(c, topics, s) && Summarizes(c, topics, s')
    ensures s == s'
  {
    forall k | k in s.byPartition ensures s'.byPartition[k] == s.byPartition[k] {
      var t, p :| t in topics && p in PartitionsOf(c, t) && Key(t, p) == k;
    }
  }
}
