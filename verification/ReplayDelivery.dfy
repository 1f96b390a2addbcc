/**
  Replaying a dead letter topic. Any number of replayers run any number of claim threads over its
  partitions, each from the offset committed when its claim began; the threads of a replayer share its
  statistics. Their events interleave one by one, a replayer may crash between any two of them, and any
  mark frontier may be committed at any time.
  */
module ReplayDelivery {
  import opened GoStrings
  import opened Options
  import opened Replayers
  import opened Sequences
  import opened Sessions
  import opened ReplayClaim

  /** A claim thread is at event `idx` of the message at offset `pos`; past its last event it has stopped. */
  datatype Thread = Thread(
    replayer: nat, partition: nat, world: World, start: nat, pos: nat, idx: nat, frontier: nat, events: seq<Event>)

  datatype State = State(
    logs: seq<seq<GoString>>, committed: seq<nat>, stats: seq<Stats>, live: seq<bool>, threads: seq<Thread>)

  datatype Action =
    | Append(partition: nat, value: GoString)
    | NewReplayer
    | Open(replayer: nat, partition: nat, world: World)
    | Step(thread: nat)
    | Crash(replayer: nat)
    | Commit(thread: nat, frontier: nat)

  function Current(cfg: Config, log: seq<GoString>, t: Thread): seq<Event>
    requires t.pos < |log|
  {
    MessageTrace(cfg, t.world, t.pos, log[t.pos])
  }

  ghost predicate WellFormed(st: State) {
    && |st.committed| == |st.logs| && |st.live| == |st.stats|
    && forall t | t in st.threads :: t.partition < |st.logs| && t.replayer < |st.stats|
  }

  ghost predicate Enabled(cfg: Config, st: State, a: Action)
    requires WellFormed(st)
  {
    match a
    case Append(p, _) => p < |st.logs|
    case NewReplayer => true
    case Open(r, p, _) => r < |st.stats| && st.live[r] && p < |st.logs| && st.committed[p] <= |st.logs[p]|
    case Step(i) =>
      && i < |st.threads|
      && var t := st.threads[i];
         assert t in st.threads;
         st.live[t.replayer] && t.pos < |st.logs[t.partition]| && t.idx < |Current(cfg, st.logs[t.partition], t)|
    case Crash(r) => r < |st.stats|
    case Commit(i, f) => i < |st.threads| && st.threads[i].start <= f <= st.threads[i].frontier
  }

  /** One event's effect on its thread: a mark ends the message, a counted failure is the thread's last event. */
  function Advance(t: Thread, e: Event): Thread {
    var t' := t.(events := t.events + [e]);
    if e.Marked? then t'.(frontier := Max(t.frontier, e.offset + 1), pos := t.pos + 1, idx := 0)
    else t'.(idx := t.idx + 1)
  }

  ghost function Next(cfg: Config, st: State, a: Action): (st': State)
    requires WellFormed(st) && Enabled(cfg, st, a)
    ensures WellFormed(st') && |st'.logs| == |st.logs|
  {
    match a
    case Append(p, v) => st.(logs := st.logs[p := st.logs[p] + [v]])
    case NewReplayer => st.(stats := st.stats + [NO_STATS], live := st.live + [true])
    case Open(r, p, w) =>
      st.(threads := st.threads + [Thread(r, p, w, st.committed[p], st.committed[p], 0, st.committed[p], [])])
    case Step(i) =>
      var t := st.threads[i];
      assert t in st.threads;
      var e := Current(cfg, st.logs[t.partition], t)[t.idx];
      st.(threads := st.threads[i := Advance(t, e)],
          stats := if e.Counted? then st.stats[t.replayer := st.stats[t.replayer].Plus(e.kind)] else st.stats)
    case Crash(r) => st.(live := st.live[r := false])
    case Commit(i, f) =>
      var t := st.threads[i];
      assert t in st.threads;
      st.(committed := st.committed[t.partition := f])
  }

  /** The topic before any replayer: `bases` are the offsets a first claim starts from. */
  ghost predicate Initial(st: State) {
    && st.stats == [] && st.live == [] && st.threads == [] && |st.committed| == |st.logs|
    && forall p | 0 <= p < |st.logs| :: st.committed[p] <= |st.logs[p]|
  }

  ghost function Exec(cfg: Config, st: State, acts: seq<Action>): (end: Option<State>)
    requires WellFormed(st)
    ensures end.Some? ==> WellFormed(end.value) && |end.value.logs| == |st.logs|
  {
    if acts == [] then Some(st) else
      var n := |acts| - 1;
      var mid := Exec(cfg, st, acts[..n]);
      if mid.Some? && Enabled(cfg, mid.value, acts[n]) then Some(Next(cfg, mid.value, acts[n])) else None
  }

  /** What holds of a claim's trace and is kept by each further message holds of every longer trace. */
  lemma ClaimInduction(cfg: Config, w: World, log: seq<GoString>, lo: nat, mid: nat, hi: nat, q: seq<Event> -> bool)
    requires lo <= mid <= hi <= |log| && q(ClaimTrace(cfg, w, Incomings(log, lo, mid)))
    requires forall n | mid <= n < hi && q(ClaimTrace(cfg, w, Incomings(log, lo, n))) ::
               q(ClaimTrace(cfg, w, Incomings(log, lo, n + 1)))
    ensures q(ClaimTrace(cfg, w, Incomings(log, lo, hi)))
  {
    GrowthInduction((n: nat) requires lo <= n <= |log| => ClaimTrace(cfg, w, Incomings(log, lo, n)), mid, hi, q);
  }

  // ---- Each thread does what the code does ---------------------------------------------------

  function Partial(cfg: Config, log: seq<GoString>, t: Thread): seq<Event>
    requires t.pos < |log| ==> t.idx <= |Current(cfg, log, t)|
  {
    if t.pos < |log| then Current(cfg, log, t)[..t.idx] else []
  }

  /** The event the thread is about to perform. */
  function Pending(cfg: Config, log: seq<GoString>, t: Thread): Option<Event> {
    if t.pos < |log| && t.idx < |Current(cfg, log, t)| then Some(Current(cfg, log, t)[t.idx]) else None
  }

  ghost predicate ThreadInv(cfg: Config, log: seq<GoString>, t: Thread) {
    && t.start <= t.pos <= |log| && t.frontier == t.pos
    && (if t.pos < |log| then
          && t.idx <= |Current(cfg, log, t)|
          && (t.idx == |Current(cfg, log, t)| ==> Fails(cfg, t.world, t.pos, log[t.pos]))
        else t.idx == 0)
    && (forall o | t.start <= o < t.pos :: !Fails(cfg, t.world, o, log[o]))
    && t.events == ClaimTrace(cfg, t.world, Incomings(log, t.start, t.pos)) + Partial(cfg, log, t)
  }

  ghost predicate Inv(cfg: Config, bases: seq<nat>, st: State) {
    && WellFormed(st) && |bases| == |st.logs|
    && (forall p | 0 <= p < |bases| :: bases[p] <= st.committed[p] <= |st.logs[p]|)
    && forall t | t in st.threads :: bases[t.partition] <= t.start && ThreadInv(cfg, st.logs[t.partition], t)
  }

  lemma ClaimGrows(cfg: Config, log: seq<GoString>, w: World, lo: nat, hi: nat)
    requires lo <= hi < |log|
    ensures ClaimTrace(cfg, w, Incomings(log, lo, hi + 1))
         == ClaimTrace(cfg, w, Incomings(log, lo, hi)) + MessageTrace(cfg, w, hi, log[hi])
  {
    var msgs := Incomings(log, lo, hi + 1);
    assert msgs[..|msgs| - 1] == Incomings(log, lo, hi);
  }

  lemma MarkedIsLast(cfg: Config, w: World, o: nat, value: GoString, i: nat)
    requires i < |MessageTrace(cfg, w, o, value)|
    ensures var es := MessageTrace(cfg, w, o, value);
            && es[i].offset == o
            && (es[i].Marked? <==> i + 1 == |es| && !Fails(cfg, w, o, value))
  {
  }

  lemma FinishedEvents(cfg: Config, log: seq<GoString>, t: Thread)
    requires ThreadInv(cfg, log, t) && t.pos < |log| && t.idx + 1 == |Current(cfg, log, t)|
    ensures t.events + [Current(cfg, log, t)[t.idx]] == ClaimTrace(cfg, t.world, Incomings(log, t.start, t.pos + 1))
  {
    var before, es := ClaimTrace(cfg, t.world, Incomings(log, t.start, t.pos)), Current(cfg, log, t);
    AppendNext(before, es, t.idx, t.events);
    ClaimGrows(cfg, log, t.world, t.start, t.pos);
  }

  lemma AdvancePastMessage(cfg: Config, log: seq<GoString>, t: Thread)
    requires ThreadInv(cfg, log, t) && t.pos < |log| && t.idx + 1 == |Current(cfg, log, t)|
    requires Current(cfg, log, t)[t.idx] == Marked(t.pos) && !Fails(cfg, t.world, t.pos, log[t.pos])
    ensures ThreadInv(cfg, log, Advance(t, Marked(t.pos)))
  {
    var done := t.events + [Marked(t.pos)];
    var t' := t.(events := done, frontier := t.pos + 1, pos := t.pos + 1, idx := 0);
    assert Advance(t, Marked(t.pos)) == t';
    FinishedEvents(cfg, log, t);
    assert Partial(cfg, log, t') == [];
    AppendEmpty(done);
  }

  lemma AdvanceWithinMessage(cfg: Config, log: seq<GoString>, t: Thread)
    requires ThreadInv(cfg, log, t) && t.pos < |log| && t.idx < |Current(cfg, log, t)|
    requires t.idx + 1 == |Current(cfg, log, t)| ==> Fails(cfg, t.world, t.pos, log[t.pos])
    requires !Current(cfg, log, t)[t.idx].Marked?
    ensures ThreadInv(cfg, log, Advance(t, Current(cfg, log, t)[t.idx]))
  {
    var es := Current(cfg, log, t);
    AppendNext(ClaimTrace(cfg, t.world, Incomings(log, t.start, t.pos)), es, t.idx, t.events);
  }

  lemma AdvanceKeepsInv(cfg: Config, log: seq<GoString>, t: Thread)
    requires ThreadInv(cfg, log, t) && Pending(cfg, log, t).Some?
    ensures ThreadInv(cfg, log, Advance(t, Pending(cfg, log, t).value))
  {
    var es := Current(cfg, log, t);
    MarkedIsLast(cfg, t.world, t.pos, log[t.pos], t.idx);
    if es[t.idx].Marked? {
      AdvancePastMessage(cfg, log, t);
    } else {
      AdvanceWithinMessage(cfg, log, t);
    }
  }

  lemma LogGrowthKeepsInv(cfg: Config, log: seq<GoString>, v: GoString, t: Thread)
    requires ThreadInv(cfg, log, t)
    ensures ThreadInv(cfg, log + [v], t)
  {
    IncomingsExtend(log, v, t.start, t.pos);
  }

  lemma EventKeepsInv(cfg: Config, bases: seq<nat>, st: State, i: nat)
    requires Inv(cfg, bases, st) && Enabled(cfg, st, Step(i))
    ensures Inv(cfg, bases, Next(cfg, st, Step(i)))
  {
    var t := st.threads[i];
    assert t in st.threads;
    AdvanceKeepsInv(cfg, st.logs[t.partition], t);
    var st' := Next(cfg, st, Step(i));
    forall s | s in st'.threads
      ensures s.partition < |st.logs| && bases[s.partition] <= s.start && ThreadInv(cfg, st'.logs[s.partition], s)
    {
      assert s in st.threads || s == Advance(t, Pending(cfg, st.logs[t.partition], t).value);
    }
  }

  lemma StepKeepsInv(cfg: Config, bases: seq<nat>, st: State, a: Action)
    requires Inv(cfg, bases, st) && Enabled(cfg, st, a)
    ensures Inv(cfg, bases, Next(cfg, st, a))
  {
    match a
    case Append(p, v) =>
      forall t | t in st.threads ensures ThreadInv(cfg, Next(cfg, st, a).logs[t.partition], t) {
        LogGrowthKeepsInv(cfg, st.logs[t.partition], v, t);
      }
    case Step(i) => EventKeepsInv(cfg, bases, st, i);
    case Commit(i, _) => assert st.threads[i] in st.threads;
    case _ =>
  }

  lemma {:induction false} RunKeepsInv(cfg: Config, st: State, acts: seq<Action>)
    requires Initial(st) && Exec(cfg, st, acts).Some?
    ensures Inv(cfg, st.committed, Exec(cfg, st, acts).value)
  {
    if acts != [] {
      var n := |acts| - 1;
      RunKeepsInv(cfg, st, acts[..n]);
      StepKeepsInv(cfg, st.committed, Exec(cfg, st, acts[..n]).value, acts[n]);
    }
  }

  /** The messages from the thread's start up to and including the one it is working on. */
  function Reached(log: seq<GoString>, t: Thread): seq<Incoming>
    requires t.start <= t.pos <= |log|
  {
    if t.pos == |log| then Incomings(log, t.start, t.pos) else Incomings(log, t.start, t.pos + 1)
  }

  lemma NoFailureBefore(cfg: Config, log: seq<GoString>, t: Thread, i: nat)
    requires ThreadInv(cfg, log, t) && i < t.pos - t.start
    ensures var m := Reached(log, t)[i]; !Fails(cfg, t.world, m.offset, m.value)
  {
    var o := t.start + i;
    assert Reached(log, t)[i] == Incoming(o, log[o]);
  }

  lemma TouchesAllReached(cfg: Config, log: seq<GoString>, t: Thread)
    requires ThreadInv(cfg, log, t)
    ensures Touched(cfg, t.world, Reached(log, t)) == Reached(log, t)
  {
    forall i | 0 <= i < |Reached(log, t)| - 1
      ensures var m := Reached(log, t)[i]; !Fails(cfg, t.world, m.offset, m.value)
    {
      NoFailureBefore(cfg, log, t, i);
    }
    TouchesAll(cfg, t.world, Reached(log, t));
  }

  /** The thread's events are, so far, those of `ConsumeClaim` on the messages it has reached. */
  ghost predicate RunsTheCode(cfg: Config, log: seq<GoString>, t: Thread) {
    && t.start <= t.pos <= |log|
    && Touched(cfg, t.world, Reached(log, t)) == Reached(log, t)
    && t.events <= ClaimTrace(cfg, t.world, Reached(log, t))
  }

  lemma ThreadIsPrefix(cfg: Config, log: seq<GoString>, t: Thread)
    requires ThreadInv(cfg, log, t)
    ensures RunsTheCode(cfg, log, t)
  {
    TouchesAllReached(cfg, log, t);
    var done := ClaimTrace(cfg, t.world, Incomings(log, t.start, t.pos));
    if t.pos < |log| {
      ClaimGrows(cfg, log, t.world, t.start, t.pos);
      PrefixConcat(done, Current(cfg, log, t), t.idx);
    } else {
      AppendEmpty(done);
    }
  }

  /**
    In every run each thread's events are, so far, those `ConsumeClaim` produces on the log from the
    thread's start, in that order, and it has gone past no message whose replay failed.
    */
  lemma ThreadsRunTheCode(cfg: Config, st: State, acts: seq<Action>, t: Thread)
    requires Initial(st) && Exec(cfg, st, acts).Some? && t in Exec(cfg, st, acts).value.threads
    ensures RunsTheCode(cfg, Exec(cfg, st, acts).value.logs[t.partition], t)
  {
    RunKeepsInv(cfg, st, acts);
    ThreadIsPrefix(cfg, Exec(cfg, st, acts).value.logs[t.partition], t);
  }

  // ---- Stop at failure -----------------------------------------------------------------------

  /** The message was skipped as rejected, and the filter did reject it. */
  ghost predicate Rejecting(w: World, es: seq<Event>, o: nat) {
    Counted(o, Skipped(Rejected)) in es && w.accepts.Some? && !w.accepts.value(o)
  }

  /** The replay handler was called for the message, which no filter rejects, and returned nil. */
  ghost predicate Replaying(w: World, es: seq<Event>, o: nat) {
    && (exists e | e in es :: e.Called? && e.offset == o && e.err.None?)
    && w.handler(o).None? && (w.accepts.None? || w.accepts.value(o))
  }

  /** Nothing to replay in the value, or the filter rejected the message, or its replay succeeded. */
  ghost predicate Clears(cfg: Config, w: World, value: GoString, es: seq<Event>, o: nat) {
    var m := cfg.decode(value);
    m.None? || m.value.envelope.None? || Rejecting(w, es, o) || Replaying(w, es, o)
  }

  ghost predicate ClearedBy(cfg: Config, value: GoString, t: Thread, p: nat, o: nat) {
    t.partition == p && Clears(cfg, t.world, value, t.events, o)
  }

  ghost predicate ClearedIn(cfg: Config, value: GoString, threads: seq<Thread>, p: nat, o: nat) {
    exists i :: 0 <= i < |threads| && ClearedBy(cfg, value, threads[i], p, o)
  }

  ghost predicate Cleared(cfg: Config, st: State, p: nat, o: nat) {
    p < |st.logs| && o < |st.logs[p]| && ClearedIn(cfg, st.logs[p][o], st.threads, p, o)
  }

  lemma ClearsMonotone(cfg: Config, w: World, value: GoString, a: seq<Event>, b: seq<Event>, o: nat)
    requires Clears(cfg, w, value, a, o) && forall e | e in a :: e in b
    ensures Clears(cfg, w, value, b, o)
  {
  }

  lemma ClearsConcat(cfg: Config, w: World, value: GoString, a: seq<Event>, b: seq<Event>, o: nat)
    requires Clears(cfg, w, value, a, o) || Clears(cfg, w, value, b, o)
    ensures Clears(cfg, w, value, a + b, o)
  {
    ClearsMonotone(cfg, w, value, if Clears(cfg, w, value, a, o) then a else b, a + b, o);
  }

  lemma MessageClears(cfg: Config, w: World, o: nat, value: GoString)
    requires !Fails(cfg, w, o, value)
    ensures Clears(cfg, w, value, MessageTrace(cfg, w, o, value), o)
  {
    var es := MessageTrace(cfg, w, o, value);
    assert es[1] in es;
  }

  lemma GrowthClears(cfg: Config, w: World, log: seq<GoString>, lo: nat, hi: nat, o: nat, value: GoString)
    requires lo <= hi < |log|
    requires Clears(cfg, w, value, ClaimTrace(cfg, w, Incomings(log, lo, hi)), o)
             || Clears(cfg, w, value, MessageTrace(cfg, w, hi, log[hi]), o)
    ensures Clears(cfg, w, value, ClaimTrace(cfg, w, Incomings(log, lo, hi + 1)), o)
  {
    ClaimGrows(cfg, log, w, lo, hi);
    ClearsConcat(cfg, w, value, ClaimTrace(cfg, w, Incomings(log, lo, hi)), MessageTrace(cfg, w, hi, log[hi]), o);
  }

  lemma ClaimClears(cfg: Config, w: World, log: seq<GoString>, lo: nat, hi: nat, o: nat, value: GoString)
    requires lo <= o < hi <= |log| && value == log[o] && !Fails(cfg, w, o, value)
    ensures Clears(cfg, w, value, ClaimTrace(cfg, w, Incomings(log, lo, hi)), o)
  {
    MessageClears(cfg, w, o, value);
    GrowthClears(cfg, w, log, lo, o, o, value);
    forall n | o + 1 <= n < hi && Clears(cfg, w, value, ClaimTrace(cfg, w, Incomings(log, lo, n)), o)
      ensures Clears(cfg, w, value, ClaimTrace(cfg, w, Incomings(log, lo, n + 1)), o)
    {
      GrowthClears(cfg, w, log, lo, n, o, value);
    }
    ClaimInduction(cfg, w, log, lo, o + 1, hi, es => Clears(cfg, w, value, es, o));
  }

  lemma ThreadClears(cfg: Config, log: seq<GoString>, t: Thread, o: nat)
    requires ThreadInv(cfg, log, t) && t.start <= o < t.pos
    ensures Clears(cfg, t.world, log[o], t.events, o)
  {
    ClaimClears(cfg, t.world, log, t.start, t.pos, o, log[o]);
    var done := ClaimTrace(cfg, t.world, Incomings(log, t.start, t.pos));
    ClearsConcat(cfg, t.world, log[o], done, Partial(cfg, log, t), o);
  }

  lemma ClearedPersists(cfg: Config, st: State, a: Action, p: nat, o: nat)
    requires WellFormed(st) && Cleared(cfg, st, p, o) && Enabled(cfg, st, a)
    ensures Cleared(cfg, Next(cfg, st, a), p, o)
  {
    var st' := Next(cfg, st, a);
    var value := st.logs[p][o];
    var i :| 0 <= i < |st.threads| && ClearedBy(cfg, value, st.threads[i], p, o);
    ClearsMonotone(cfg, st.threads[i].world, value, st.threads[i].events, st'.threads[i].events, o);
    assert st'.threads[i].partition == p;
  }

  /** Below a partition's committed offset, and below where any of its claims began, all is cleared. */
  ghost predicate SafeInv(cfg: Config, bases: seq<nat>, st: State) {
    && Inv(cfg, bases, st)
    && (forall p, o | 0 <= p < |bases| && bases[p] <= o < st.committed[p] :: Cleared(cfg, st, p, o))
    && forall t, o | t in st.threads && bases[t.partition] <= o < t.start :: Cleared(cfg, st, t.partition, o)
  }

  lemma StepKeepsSafe(cfg: Config, bases: seq<nat>, st: State, a: Action)
    requires SafeInv(cfg, bases, st) && Enabled(cfg, st, a)
    ensures SafeInv(cfg, bases, Next(cfg, st, a))
  {
    var st' := Next(cfg, st, a);
    StepKeepsInv(cfg, bases, st, a);
    forall p, o | 0 <= p < |bases| && bases[p] <= o < st'.committed[p] ensures Cleared(cfg, st', p, o) {
      if o < st.committed[p] {
        ClearedPersists(cfg, st, a, p, o);
      } else {
        var t := st.threads[a.thread];
        assert t in st.threads && t.partition == p;
        if o < t.start {
          ClearedPersists(cfg, st, a, p, o);
        } else {
          ThreadClears(cfg, st.logs[p], t, o);
        }
      }
    }
    forall t, o | t in st'.threads && bases[t.partition] <= o < t.start ensures Cleared(cfg, st', t.partition, o) {
      assert Cleared(cfg, st, t.partition, o);
      ClearedPersists(cfg, st, a, t.partition, o);
    }
  }

  lemma {:induction false} RunIsSafe(cfg: Config, st: State, acts: seq<Action>)
    requires Initial(st) && Exec(cfg, st, acts).Some?
    ensures SafeInv(cfg, st.committed, Exec(cfg, st, acts).value)
  {
    if acts != [] {
      var n := |acts| - 1;
      RunIsSafe(cfg, st, acts[..n]);
      StepKeepsSafe(cfg, st.committed, Exec(cfg, st, acts[..n]).value, acts[n]);
    }
  }

  /**
    Stop-at-failure replay: whatever the crashes, overlapping claims and commits, each committed offset of
    each partition held nothing to replay, or was rejected by a filter, or was replayed successfully.
    */
  lemma CommittedIsCleared(cfg: Config, st: State, acts: seq<Action>, p: nat, o: nat)
    requires Initial(st) && Exec(cfg, st, acts).Some? && p < |st.committed|
    requires st.committed[p] <= o < Exec(cfg, st, acts).value.committed[p]
    ensures Cleared(cfg, Exec(cfg, st, acts).value, p, o)
  {
    RunIsSafe(cfg, st, acts);
  }

  /** A message with an envelope that no filter rejects and whose every replay fails is never passed. */
  lemma FailingIsNeverPassed(cfg: Config, st: State, acts: seq<Action>, p: nat, o: nat)
    requires Initial(st) && Exec(cfg, st, acts).Some?
    requires var end := Exec(cfg, st, acts).value;
             && p < |st.committed| && st.committed[p] <= o < |end.logs[p]|
             && cfg.decode(end.logs[p][o]).Some? && cfg.decode(end.logs[p][o]).value.envelope.Some?
             && forall t | t in end.threads && t.partition == p ::
                  !Rejecting(t.world, t.events, o) && !Replaying(t.world, t.events, o)
    ensures Exec(cfg, st, acts).value.committed[p] <= o
  {
    var end := Exec(cfg, st, acts).value;
    RunIsSafe(cfg, st, acts);
    assert forall i | 0 <= i < |end.threads| :: end.threads[i] in end.threads;
    assert o < end.committed[p] ==> Cleared(cfg, end, p, o);
  }

  // ---- Statistics ----------------------------------------------------------------------------

  predicate IsConsumed(e: Event) { e.Counted? && e.kind.Consumed? }
  predicate IsReplayed(e: Event) { e.Counted? && e.kind.Replayed? }
  predicate IsSkipped(e: Event) { e.Counted? && e.kind.Skipped? }
  predicate IsFailed(e: Event) { e.Counted? && e.kind.Failed? }
  predicate IsMarked(e: Event) { e.Marked? }
  predicate IsCalled(e: Event) { e.Called? }

  /** How often replayer `r`'s threads performed an event of the kind `p`. */
  function Performed(r: nat, p: Event -> bool): Thread -> int {
    (t: Thread) => if t.replayer == r then Count(t.events, p) else 0
  }

  /** The statistics count the events of the replayer's threads. */
  ghost predicate Tallies(stats: Stats, threads: seq<Thread>, r: nat) {
    && stats.consumed == Sum(threads, Performed(r, IsConsumed))
    && stats.replayed == Sum(threads, Performed(r, IsReplayed))
    && stats.skipped == Sum(threads, Performed(r, IsSkipped))
    && stats.failed == Sum(threads, Performed(r, IsFailed))
  }

  ghost predicate StatsInv(st: State) {
    forall r | 0 <= r < |st.stats| :: Tallies(st.stats[r], st.threads, r)
  }

  lemma PerformedGrows(threads: seq<Thread>, i: nat, e: Event, r: nat, p: Event -> bool)
    requires i < |threads|
    ensures Sum(threads[i := Advance(threads[i], e)], Performed(r, p))
         == Sum(threads, Performed(r, p)) + if threads[i].replayer == r && p(e) then 1 else 0
  {
    SumUpdate(threads, i, Advance(threads[i], e), Performed(r, p));
    CountAppend(threads[i].events, e, p);
  }

  lemma TalliesGrow(stats: Stats, threads: seq<Thread>, i: nat, e: Event, r: nat)
    requires i < |threads| && Tallies(stats, threads, r)
    ensures Tallies(if threads[i].replayer == r && e.Counted? then stats.Plus(e.kind) else stats,
                    threads[i := Advance(threads[i], e)], r)
  {
    PerformedGrows(threads, i, e, r, IsConsumed);
    PerformedGrows(threads, i, e, r, IsReplayed);
    PerformedGrows(threads, i, e, r, IsSkipped);
    PerformedGrows(threads, i, e, r, IsFailed);
  }

  lemma TalliesOpen(stats: Stats, threads: seq<Thread>, t: Thread, r: nat)
    requires t.events == [] && Tallies(stats, threads, r)
    ensures Tallies(stats, threads + [t], r)
  {
    SumAppend(threads, t, Performed(r, IsConsumed));
    SumAppend(threads, t, Performed(r, IsReplayed));
    SumAppend(threads, t, Performed(r, IsSkipped));
    SumAppend(threads, t, Performed(r, IsFailed));
  }

  /** A replayer that does not exist yet has no threads. */
  lemma TalliesNew(threads: seq<Thread>, r: nat)
    requires forall t | t in threads :: t.replayer < r
    ensures Tallies(NO_STATS, threads, r)
  {
    SumZero(threads, Performed(r, IsConsumed));
    SumZero(threads, Performed(r, IsReplayed));
    SumZero(threads, Performed(r, IsSkipped));
    SumZero(threads, Performed(r, IsFailed));
  }

  lemma StepKeepsStats(cfg: Config, st: State, a: Action)
    requires WellFormed(st) && StatsInv(st) && Enabled(cfg, st, a)
    ensures StatsInv(Next(cfg, st, a))
  {
    var st' := Next(cfg, st, a);
    forall r | 0 <= r < |st'.stats| ensures Tallies(st'.stats[r], st'.threads, r) {
      if a.Step? {
        var t := st.threads[a.thread];
        assert t in st.threads;
        TalliesGrow(st.stats[r], st.threads, a.thread, Current(cfg, st.logs[t.partition], t)[t.idx], r);
      } else if a.Open? {
        TalliesOpen(st.stats[r], st.threads, st'.threads[|st.threads|], r);
      } else if a.NewReplayer? && r == |st.stats| {
        TalliesNew(st.threads, r);
      }
    }
  }

  lemma {:induction false} RunKeepsStats(cfg: Config, st: State, acts: seq<Action>)
    requires Initial(st) && Exec(cfg, st, acts).Some?
    ensures StatsInv(Exec(cfg, st, acts).value)
  {
    if acts != [] {
      var n := |acts| - 1;
      RunKeepsStats(cfg, st, acts[..n]);
      StepKeepsStats(cfg, Exec(cfg, st, acts[..n]).value, acts[n]);
    }
  }

  /** Statistics never decrease along a run, so neither do two snapshots taken one after the other. */
  ghost predicate NoLess(a: State, b: State) {
    && |a.stats| <= |b.stats|
    && forall r | 0 <= r < |a.stats| ::
         && a.stats[r].consumed <= b.stats[r].consumed && a.stats[r].replayed <= b.stats[r].replayed
         && a.stats[r].skipped <= b.stats[r].skipped && a.stats[r].failed <= b.stats[r].failed
  }

  lemma StepAddsToStats(cfg: Config, st: State, a: Action)
    requires WellFormed(st) && Enabled(cfg, st, a)
    ensures NoLess(st, Next(cfg, st, a))
  {
  }

  lemma {:induction false} StatsNeverDecrease(cfg: Config, st: State, acts: seq<Action>)
    requires WellFormed(st) && Exec(cfg, st, acts).Some?
    ensures NoLess(st, Exec(cfg, st, acts).value)
  {
    if acts != [] {
      var n := |acts| - 1;
      StatsNeverDecrease(cfg, st, acts[..n]);
      StepAddsToStats(cfg, Exec(cfg, st, acts[..n]).value, acts[n]);
    }
  }

  // ---- Conservation --------------------------------------------------------------------------

  /** Counted as consumed, not yet as replayed, skipped or failed. */
  predicate InFlight(pending: Option<Event>) {
    pending.Some? && (pending.value.Called? || (pending.value.Counted? && !pending.value.kind.Consumed?))
  }

  /** Counted as replayed or skipped, not yet marked. */
  predicate AwaitingMark(pending: Option<Event>) {
    pending.Some? && pending.value.Marked?
  }

  /** Back from the replay handler, not yet counted as replayed or failed. */
  predicate AwaitingCount(pending: Option<Event>) {
    pending.Some? && pending.value.Counted? && (pending.value.kind.Replayed? || pending.value.kind.Failed?)
  }

  ghost predicate Balanced(cfg: Config, log: seq<GoString>, t: Thread) {
    var next := Pending(cfg, log, t);
    && Count(t.events, IsConsumed)
       == Count(t.events, IsReplayed) + Count(t.events, IsSkipped) + Count(t.events, IsFailed) + One(InFlight(next))
    && Count(t.events, IsReplayed) + Count(t.events, IsSkipped) == Count(t.events, IsMarked) + One(AwaitingMark(next))
    && Count(t.events, IsCalled) == Count(t.events, IsReplayed) + Count(t.events, IsFailed) + One(AwaitingCount(next))
  }

  lemma PendingAfter(cfg: Config, log: seq<GoString>, t: Thread)
    requires ThreadInv(cfg, log, t) && Pending(cfg, log, t).Some?
    ensures var e, next := Pending(cfg, log, t).value, Pending(cfg, log, Advance(t, Pending(cfg, log, t).value));
            && InFlight(next) == (IsConsumed(e) || IsCalled(e))
            && AwaitingMark(next) == (IsReplayed(e) || IsSkipped(e))
            && AwaitingCount(next) == IsCalled(e)
  {
  }

  lemma AdvanceBalances(cfg: Config, log: seq<GoString>, t: Thread)
    requires ThreadInv(cfg, log, t) && Pending(cfg, log, t).Some? && Balanced(cfg, log, t)
    ensures Balanced(cfg, log, Advance(t, Pending(cfg, log, t).value))
  {
    var e := Pending(cfg, log, t).value;
    CountAppend(t.events, e, IsConsumed);
    CountAppend(t.events, e, IsReplayed);
    CountAppend(t.events, e, IsSkipped);
    CountAppend(t.events, e, IsFailed);
    CountAppend(t.events, e, IsMarked);
    CountAppend(t.events, e, IsCalled);
    PendingAfter(cfg, log, t);
  }

  lemma AppendBalances(cfg: Config, log: seq<GoString>, v: GoString, t: Thread)
    requires ThreadInv(cfg, log, t) && Balanced(cfg, log, t)
    ensures Balanced(cfg, log + [v], t)
  {
  }

  ghost predicate BalanceInv(cfg: Config, st: State) {
    && WellFormed(st)
    && forall t | t in st.threads :: Balanced(cfg, st.logs[t.partition], t)
  }

  lemma StepKeepsBalance(cfg: Config, bases: seq<nat>, st: State, a: Action)
    requires Inv(cfg, bases, st) && BalanceInv(cfg, st) && Enabled(cfg, st, a)
    ensures BalanceInv(cfg, Next(cfg, st, a))
  {
    var st' := Next(cfg, st, a);
    match a
    case Append(p, v) =>
      forall t | t in st.threads ensures Balanced(cfg, st'.logs[t.partition], t) {
        AppendBalances(cfg, st.logs[t.partition], v, t);
      }
    case Step(i) =>
      assert st.threads[i] in st.threads;
      AdvanceBalances(cfg, st.logs[st.threads[i].partition], st.threads[i]);
    case _ =>
  }

  lemma {:induction false} RunKeepsBalance(cfg: Config, st: State, acts: seq<Action>)
    requires Initial(st) && Exec(cfg, st, acts).Some?
    ensures BalanceInv(cfg, Exec(cfg, st, acts).value)
  {
    if acts != [] {
      var n := |acts| - 1;
      RunKeepsBalance(cfg, st, acts[..n]);
      RunKeepsInv(cfg, st, acts[..n]);
      StepKeepsBalance(cfg, st.committed, Exec(cfg, st, acts[..n]).value, acts[n]);
    }
  }

  /** The threads of replayer `r` whose next event satisfies `q`. */
  function Waiting(cfg: Config, logs: seq<seq<GoString>>, r: nat, q: Option<Event> -> bool): Thread -> int {
    (t: Thread) => if t.replayer == r && t.partition < |logs| && q(Pending(cfg, logs[t.partition], t)) then 1 else 0
  }

  lemma SumConsumed(cfg: Config, st: State, r: nat)
    requires BalanceInv(cfg, st)
    ensures Sum(st.threads, Performed(r, IsConsumed))
         == Sum(st.threads, Performed(r, IsReplayed)) + Sum(st.threads, Performed(r, IsSkipped))
            + Sum(st.threads, Performed(r, IsFailed)) + Sum(st.threads, Waiting(cfg, st.logs, r, InFlight))
  {
    var replayed, skipped := Performed(r, IsReplayed), Performed(r, IsSkipped);
    var failed, waiting := Performed(r, IsFailed), Waiting(cfg, st.logs, r, InFlight);
    SumPlus(st.threads, replayed, skipped);
    SumPlus(st.threads, failed, waiting);
    SumPlus(st.threads, Plus(replayed, skipped), Plus(failed, waiting));
    forall t | t in st.threads
      ensures Performed(r, IsConsumed)(t) == Plus(Plus(replayed, skipped), Plus(failed, waiting))(t)
    {
      assert Balanced(cfg, st.logs[t.partition], t);
    }
    SumEqual(st.threads, Performed(r, IsConsumed), Plus(Plus(replayed, skipped), Plus(failed, waiting)));
  }

  lemma SumMarked(cfg: Config, st: State, r: nat)
    requires BalanceInv(cfg, st)
    ensures Sum(st.threads, Performed(r, IsReplayed)) + Sum(st.threads, Performed(r, IsSkipped))
         == Sum(st.threads, Performed(r, IsMarked)) + Sum(st.threads, Waiting(cfg, st.logs, r, AwaitingMark))
  {
    var replayed, skipped := Performed(r, IsReplayed), Performed(r, IsSkipped);
    var marked, waiting := Performed(r, IsMarked), Waiting(cfg, st.logs, r, AwaitingMark);
    SumPlus(st.threads, replayed, skipped);
    SumPlus(st.threads, marked, waiting);
    forall t | t in st.threads ensures Plus(replayed, skipped)(t) == Plus(marked, waiting)(t) {
      assert Balanced(cfg, st.logs[t.partition], t);
    }
    SumEqual(st.threads, Plus(replayed, skipped), Plus(marked, waiting));
  }

  lemma SumCalled(cfg: Config, st: State, r: nat)
    requires BalanceInv(cfg, st)
    ensures Sum(st.threads, Performed(r, IsCalled))
         == Sum(st.threads, Performed(r, IsReplayed)) + Sum(st.threads, Performed(r, IsFailed))
            + Sum(st.threads, Waiting(cfg, st.logs, r, AwaitingCount))
  {
    var replayed, failed := Performed(r, IsReplayed), Performed(r, IsFailed);
    var waiting := Waiting(cfg, st.logs, r, AwaitingCount);
    SumPlus(st.threads, replayed, failed);
    SumPlus(st.threads, Plus(replayed, failed), waiting);
    forall t | t in st.threads ensures Performed(r, IsCalled)(t) == Plus(Plus(replayed, failed), waiting)(t) {
      assert Balanced(cfg, st.logs[t.partition], t);
    }
    SumEqual(st.threads, Performed(r, IsCalled), Plus(Plus(replayed, failed), waiting));
  }

  /**
    In every reachable state, for every replayer: consumed messages are replayed, skipped, failed or in
    flight; replayed and skipped ones are marked or about to be; and the handler calls that returned are
    counted as replayed or failed, or about to be. So a snapshot never shows more outcomes than consumed
    messages, and shows as many exactly when no thread is in flight.
    */
  lemma CountersConserved(cfg: Config, st: State, acts: seq<Action>, r: nat)
    requires Initial(st) && Exec(cfg, st, acts).Some? && r < |Exec(cfg, st, acts).value.stats|
    ensures var end := Exec(cfg, st, acts).value;
            var s := end.stats[r];
            && s.consumed == s.replayed + s.skipped + s.failed + Sum(end.threads, Waiting(cfg, end.logs, r, InFlight))
            && s.replayed + s.skipped
               == Sum(end.threads, Performed(r, IsMarked)) + Sum(end.threads, Waiting(cfg, end.logs, r, AwaitingMark))
            && Sum(end.threads, Performed(r, IsCalled))
               == s.replayed + s.failed + Sum(end.threads, Waiting(cfg, end.logs, r, AwaitingCount))
            && s.replayed + s.skipped + s.failed <= s.consumed
            && (s.replayed + s.skipped + s.failed == s.consumed
                <==> forall t | t in end.threads && t.replayer == r ::
                       !InFlight(Pending(cfg, end.logs[t.partition], t)))
  {
    RunKeepsStats(cfg, st, acts);
    RunKeepsBalance(cfg, st, acts);
    var end := Exec(cfg, st, acts).value;
    assert Tallies(end.stats[r], end.threads, r);
    SumConsumed(cfg, end, r);
    SumMarked(cfg, end, r);
    SumCalled(cfg, end, r);
    var waiting := Waiting(cfg, end.logs, r, InFlight);
    SumBounds(end.threads, waiting);
    if forall t | t in end.threads && t.replayer == r :: !InFlight(Pending(cfg, end.logs[t.partition], t)) {
      SumZero(end.threads, waiting);
    } else {
      var t :| t in end.threads && t.replayer == r && InFlight(Pending(cfg, end.logs[t.partition], t));
      assert waiting(t) == 1;
    }
  }

  // ---- What the events say about decoder, filter and replay handler --------------------------

  ghost predicate TruthfulIn(cfg: Config, log: seq<GoString>, w: World, e: Event) {
    e.offset < |log| && Truthful(cfg, w, e.offset, log[e.offset], e)
  }

  ghost predicate AllTruthful(cfg: Config, log: seq<GoString>, w: World, es: seq<Event>) {
    forall e | e in es :: TruthfulIn(cfg, log, w, e)
  }

  lemma GrowthIsTruthful(cfg: Config, w: World, log: seq<GoString>, lo: nat, hi: nat)
    requires lo <= hi < |log|
    requires AllTruthful(cfg, log, w, ClaimTrace(cfg, w, Incomings(log, lo, hi)))
    ensures AllTruthful(cfg, log, w, ClaimTrace(cfg, w, Incomings(log, lo, hi + 1)))
  {
    ClaimGrows(cfg, log, w, lo, hi);
    MessageIsTruthful(cfg, w, hi, log[hi]);
  }

  lemma ThreadIsTruthful(cfg: Config, log: seq<GoString>, t: Thread)
    requires ThreadInv(cfg, log, t)
    ensures AllTruthful(cfg, log, t.world, t.events)
  {
    var w, start := t.world, t.start;
    forall n | start <= n < t.pos && AllTruthful(cfg, log, w, ClaimTrace(cfg, w, Incomings(log, start, n)))
      ensures AllTruthful(cfg, log, w, ClaimTrace(cfg, w, Incomings(log, start, n + 1)))
    {
      GrowthIsTruthful(cfg, w, log, start, n);
    }
    ClaimInduction(cfg, w, log, start, start, t.pos, es => AllTruthful(cfg, log, w, es));
    forall e | e in Partial(cfg, log, t) ensures TruthfulIn(cfg, log, w, e) {
      MessageIsTruthful(cfg, w, t.pos, log[t.pos]);
      assert e in Current(cfg, log, t);
    }
  }

  /**
    In every run every event of every thread tells what decoder, filter and replay handler said: only what the
    filter refused is skipped as rejected, and nothing it refused is ever handed to the replay handler.
    */
  lemma RunIsTruthful(cfg: Config, st: State, acts: seq<Action>, t: Thread, e: Event)
    requires Initial(st) && Exec(cfg, st, acts).Some? && t in Exec(cfg, st, acts).value.threads && e in t.events
    ensures TruthfulIn(cfg, Exec(cfg, st, acts).value.logs[t.partition], t.world, e)
  {
    RunKeepsInv(cfg, st, acts);
    ThreadIsTruthful(cfg, Exec(cfg, st, acts).value.logs[t.partition], t);
  }

  /** The envelope handed to the replay handler is the one decoded from the record at that offset. */
  ghost predicate ReadFrom(cfg: Config, log: seq<GoString>, e: Event) {
    e.Called? ==> e.offset < |log| && cfg.decode(log[e.offset]).Some?
                  && cfg.decode(log[e.offset]).value.envelope == Some(e.env)
  }

  lemma ThreadReads(cfg: Config, log: seq<GoString>, t: Thread)
    requires ThreadInv(cfg, log, t)
    ensures forall e | e in t.events :: ReadFrom(cfg, log, e)
  {
    ThreadIsTruthful(cfg, log, t);
    forall e | e in t.events ensures ReadFrom(cfg, log, e) {
      assert TruthfulIn(cfg, log, t.world, e);
    }
  }
}
