/**
  How a replayer works through one claim of a dead letter partition (dlq/replayer.go, `ConsumeClaim` and
  `processMessage`): its events for one message, where it stops, and the methods that produce them.
  */
module ReplayClaim {
  import opened GoStrings
  import opened Options
  import opened Envelopes
  import opened DeadLetters
  import opened Replayers
  import opened Sequences
  import opened Sessions

  datatype Config = Config(decode: GoString -> Option<Message>)

  /**
    What the environment does to one claim: whether the filter, if there is one, accepts the message at an
    offset, and what the replay handler returns for it. A claim meets each offset at most once.
    */
  datatype World = World(accepts: Option<nat -> bool>, handler: nat -> Option<Error>)

  datatype Event =
    | Counted(offset: nat, kind: Kind)
    | Called(offset: nat, env: Envelope, err: Option<Error>)
    | Marked(offset: nat)

  /** The value decodes to a message with an envelope, and the filter, if there is one, accepts it. */
  predicate Replayable(cfg: Config, w: World, o: nat, value: GoString) {
    && cfg.decode(value).Some? && cfg.decode(value).value.envelope.Some?
    && (w.accepts.None? || w.accepts.value(o))
  }

  /**
    The event of the dead letter `value` at `o` tells what decoder, filter and replay handler said: each kind
    of skip has its own reason, the handler is called with the decoded envelope for replayable messages only,
    failed and replayed are counted by what it returned, and only a failed replay is not marked.
    */
  predicate Truthful(cfg: Config, w: World, o: nat, value: GoString, e: Event) {
    && e.offset == o
    && match e
       case Counted(_, Consumed) => true
       case Counted(_, Skipped(Undecodable)) => cfg.decode(value).None?
       case Counted(_, Skipped(NoEnvelope)) => cfg.decode(value).Some? && cfg.decode(value).value.envelope.None?
       case Counted(_, Skipped(Rejected)) =>
         && cfg.decode(value).Some? && cfg.decode(value).value.envelope.Some?
         && w.accepts.Some? && !w.accepts.value(o)
       case Called(_, env, err) =>
         Replayable(cfg, w, o, value) && cfg.decode(value).value.envelope == Some(env) && err == w.handler(o)
       case Counted(_, Failed) => Replayable(cfg, w, o, value) && w.handler(o).Some?
       case Counted(_, Replayed) => Replayable(cfg, w, o, value) && w.handler(o).None?
       case Marked(_) => !(Replayable(cfg, w, o, value) && w.handler(o).Some?)
  }

  datatype ReplayError = ReplayError(offset: nat, cause: Error)

  /** Why a message is skipped, if it is. */
  function SkipOf(cfg: Config, w: World, o: nat, value: GoString): Option<SkipReason> {
    var m := cfg.decode(value);
    if m.None? then Some(Undecodable)
    else if m.value.envelope.None? then Some(NoEnvelope)
    else if w.accepts.Some? && !w.accepts.value(o) then Some(Rejected)
    else None
  }

  /** The message reaches the replay handler, and the handler fails. */
  predicate Fails(cfg: Config, w: World, o: nat, value: GoString) {
    SkipOf(cfg, w, o, value).None? && w.handler(o).Some?
  }

  function MessageTrace(cfg: Config, w: World, o: nat, value: GoString): (es: seq<Event>)
    ensures |es| >= 3 && es[0] == Counted(o, Consumed)
    ensures !Fails(cfg, w, o, value) ==> es[|es| - 1] == Marked(o)
    ensures Fails(cfg, w, o, value) ==> es[|es| - 1] == Counted(o, Failed)
    ensures forall i | 0 <= i < |es| - 1 :: !es[i].Marked?
  {
    var skip := SkipOf(cfg, w, o, value);
    if skip.Some? then
      [Counted(o, Consumed), Counted(o, Skipped(skip.value)), Marked(o)]
    else
      var called := Called(o, cfg.decode(value).value.envelope.value, w.handler(o));
      if w.handler(o).Some? then [Counted(o, Consumed), called, Counted(o, Failed)]
      else [Counted(o, Consumed), called, Counted(o, Replayed), Marked(o)]
  }

  lemma MessageIsTruthful(cfg: Config, w: World, o: nat, value: GoString)
    ensures forall e | e in MessageTrace(cfg, w, o, value) :: Truthful(cfg, w, o, value, e)
    ensures Fails(cfg, w, o, value) <==> Replayable(cfg, w, o, value) && w.handler(o).Some?
  {
  }

  function ClaimTrace(cfg: Config, w: World, msgs: seq<Incoming>): seq<Event> {
    if msgs == [] then [] else
      var n := |msgs| - 1;
      ClaimTrace(cfg, w, msgs[..n]) + MessageTrace(cfg, w, msgs[n].offset, msgs[n].value)
  }

  /** The index of the first message whose replay fails, or `|msgs|`. */
  function FirstFailure(cfg: Config, w: World, msgs: seq<Incoming>): (n: nat)
    ensures n <= |msgs|
    ensures forall i | 0 <= i < n :: !Fails(cfg, w, msgs[i].offset, msgs[i].value)
    ensures n < |msgs| ==> Fails(cfg, w, msgs[n].offset, msgs[n].value)
  {
    if msgs == [] then 0 else
      var last := |msgs| - 1;
      var n := FirstFailure(cfg, w, msgs[..last]);
      if n == last && !Fails(cfg, w, msgs[last].offset, msgs[last].value) then last + 1 else n
  }

  lemma FirstFailureUnique(cfg: Config, w: World, msgs: seq<Incoming>, n: nat)
    requires n <= |msgs|
    requires forall i | 0 <= i < n :: !Fails(cfg, w, msgs[i].offset, msgs[i].value)
    requires n < |msgs| ==> Fails(cfg, w, msgs[n].offset, msgs[n].value)
    ensures n == FirstFailure(cfg, w, msgs)
  {
  }

  /** The messages a claim touches: up to and including the first whose replay fails. */
  function Touched(cfg: Config, w: World, msgs: seq<Incoming>): seq<Incoming> {
    var n := FirstFailure(cfg, w, msgs);
    if n < |msgs| then msgs[..n + 1] else msgs
  }

  lemma FailureAt(cfg: Config, w: World, msgs: seq<Incoming>, n: nat)
    requires n < |msgs| && Fails(cfg, w, msgs[n].offset, msgs[n].value)
    requires forall i | 0 <= i < n :: !Fails(cfg, w, msgs[i].offset, msgs[i].value)
    ensures FirstFailure(cfg, w, msgs) == n && Touched(cfg, w, msgs) == msgs[..n + 1]
  {
    FirstFailureUnique(cfg, w, msgs, n);
  }

  lemma NoFailure(cfg: Config, w: World, msgs: seq<Incoming>)
    requires forall i | 0 <= i < |msgs| :: !Fails(cfg, w, msgs[i].offset, msgs[i].value)
    ensures FirstFailure(cfg, w, msgs) == |msgs| && Touched(cfg, w, msgs) == msgs[..|msgs|] == msgs
  {
    FirstFailureUnique(cfg, w, msgs, |msgs|);
  }

  /** When nothing before the last message fails, the claim touches every message. */
  lemma TouchesAll(cfg: Config, w: World, msgs: seq<Incoming>)
    requires forall i | 0 <= i < |msgs| - 1 :: !Fails(cfg, w, msgs[i].offset, msgs[i].value)
    ensures Touched(cfg, w, msgs) == msgs
  {
    var last := |msgs| - 1;
    if last >= 0 && Fails(cfg, w, msgs[last].offset, msgs[last].value) {
      FailureAt(cfg, w, msgs, last);
    } else {
      NoFailure(cfg, w, msgs);
    }
  }

  function Tally(stats: Stats, es: seq<Event>): Stats {
    if es == [] then stats else
      var e := es[|es| - 1];
      var before := Tally(stats, es[..|es| - 1]);
      if e.Counted? then before.Plus(e.kind) else before
  }

  lemma {:induction false} TallyConcat(stats: Stats, a: seq<Event>, b: seq<Event>)
    ensures Tally(stats, a + b) == Tally(Tally(stats, a), b)
  {
    if b == [] {
      assert a + b == a;
    } else {
      var n := |b| - 1;
      TallyConcat(stats, a, b[..n]);
      assert (a + b)[..|a + b| - 1] == a + b[..n];
    }
  }

  lemma TallyAppend(stats: Stats, es: seq<Event>, e: Event)
    ensures Tally(stats, es + [e]) == if e.Counted? then Tally(stats, es).Plus(e.kind) else Tally(stats, es)
  {
    assert (es + [e])[..|es|] == es;
  }

  lemma TallyMessage(cfg: Config, w: World, o: nat, value: GoString, stats: Stats)
    ensures var counted := stats.(consumed := stats.consumed + 1);
            Tally(stats, MessageTrace(cfg, w, o, value)) ==
            if !Replayable(cfg, w, o, value) then counted.(skipped := stats.skipped + 1)
            else if w.handler(o).Some? then counted.(failed := stats.failed + 1)
            else counted.(replayed := stats.replayed + 1)
  {
    var t := MessageTrace(cfg, w, o, value);
    assert t == [t[0], t[1], t[2]] || t == [t[0], t[1], t[2], t[3]];
    assert [] + [t[0]] == [t[0]] && [t[0]] + [t[1]] == [t[0], t[1]] && [t[0], t[1]] + [t[2]] == [t[0], t[1], t[2]];
    assert |t| == 4 ==> [t[0], t[1], t[2]] + [t[3]] == t;
    TallyAppend(stats, [], t[0]);
    TallyAppend(stats, [t[0]], t[1]);
    TallyAppend(stats, [t[0], t[1]], t[2]);
    if |t| == 4 {
      TallyAppend(stats, [t[0], t[1], t[2]], t[3]);
    }
  }

  // ---- The methods ---------------------------------------------------------------------------

  /** Events and statistics after working on `msgs`. */
  ghost predicate Worked(
      cfg: Config, w: World, msgs: seq<Incoming>,
      events: seq<Event>, stats: Stats, events': seq<Event>, stats': Stats) {
    events' == events + ClaimTrace(cfg, w, msgs) && stats' == Tally(stats, ClaimTrace(cfg, w, msgs))
  }

  lemma ClaimStep(cfg: Config, w: World, msgs: seq<Incoming>, i: nat)
    requires i < |msgs|
    ensures ClaimTrace(cfg, w, msgs[..i + 1])
         == ClaimTrace(cfg, w, msgs[..i]) + MessageTrace(cfg, w, msgs[i].offset, msgs[i].value)
  {
    assert msgs[..i + 1][..i] == msgs[..i];
  }

  lemma WorksOn(
      cfg: Config, w: World, msgs: seq<Incoming>, i: nat,
      events: seq<Event>, stats: Stats, events': seq<Event>, stats': Stats)
    requires i < |msgs| && Worked(cfg, w, msgs[..i], events, stats, events', stats')
    ensures var step := MessageTrace(cfg, w, msgs[i].offset, msgs[i].value);
            Worked(cfg, w, msgs[..i + 1], events, stats, events' + step, Tally(stats', step))
  {
    var before, step := ClaimTrace(cfg, w, msgs[..i]), MessageTrace(cfg, w, msgs[i].offset, msgs[i].value);
    ClaimStep(cfg, w, msgs, i);
    AppendAssociative(events, before, step);
    TallyConcat(stats, before, step);
  }

  class ReplayerGroupHandler {
    const replayer: Replayer
    const cfg: Config
    const world: World

    constructor (replayer: Replayer, cfg: Config, world: World)
      ensures this.replayer == replayer && this.cfg == cfg && this.world == world
    {
      this.replayer, this.cfg, this.world := replayer, cfg, world;
    }

    method ProcessMessage(session: ClaimSession<Event>, msg: Incoming) returns (err: Option<ReplayError>)
      modifies session, replayer`stats
      ensures session.events == old(session.events) + MessageTrace(cfg, world, msg.offset, msg.value)
      ensures replayer.stats == Tally(old(replayer.stats), MessageTrace(cfg, world, msg.offset, msg.value))
      ensures err.Some? <==> Replayable(cfg, world, msg.offset, msg.value) && world.handler(msg.offset).Some?
      ensures err.Some? <==> Fails(cfg, world, msg.offset, msg.value)
      ensures err.Some? ==> err == Some(ReplayError(msg.offset, world.handler(msg.offset).value))
      ensures session.frontier == if err.Some? then old(session.frontier)
              else Max(old(session.frontier), msg.offset + 1)
    {
      var o := msg.offset;
      TallyMessage(cfg, world, o, msg.value, replayer.stats);
      replayer.IncrementConsumed();
      session.Record(Counted(o, Consumed));

      var decoded := cfg.decode(msg.value);
      if decoded.None? {
        replayer.IncrementSkipped(Undecodable);
        session.Record(Counted(o, Skipped(Undecodable)));
        session.MarkMessage(o, Marked(o));
        return None;
      }
      var env := decoded.value.envelope;
      if env.None? {
        replayer.IncrementSkipped(NoEnvelope);
        session.Record(Counted(o, Skipped(NoEnvelope)));
        session.MarkMessage(o, Marked(o));
        return None;
      }
      if world.accepts.Some? && !world.accepts.value(o) {
        replayer.IncrementSkipped(Rejected);
        session.Record(Counted(o, Skipped(Rejected)));
        session.MarkMessage(o, Marked(o));
        return None;
      }
      var failure := world.handler(o);
      session.Record(Called(o, env.value, failure));
      if failure.Some? {
        replayer.IncrementFailed();
        session.Record(Counted(o, Failed));
        return Some(ReplayError(o, failure.value));
      }
      replayer.IncrementReplayed();
      session.Record(Counted(o, Replayed));
      session.MarkMessage(o, Marked(o));
      return None;
    }

    /** The claim stops at the first message whose replay fails: that message and those after are unmarked. */
    method ConsumeClaim(session: ClaimSession<Event>, msgs: seq<Incoming>) returns (err: Option<ReplayError>)
      modifies session, replayer`stats
      ensures session.events == old(session.events) + ClaimTrace(cfg, world, Touched(cfg, world, msgs))
      ensures replayer.stats == Tally(old(replayer.stats), ClaimTrace(cfg, world, Touched(cfg, world, msgs)))
      ensures var n := FirstFailure(cfg, world, msgs);
              && session.frontier == FrontierAfter(old(session.frontier), msgs[..n])
              && err == if n == |msgs| then None
                        else Some(ReplayError(msgs[n].offset, world.handler(msgs[n].offset).value))
    {
      ghost var events, stats, start := session.events, replayer.stats, session.frontier;
      for i := 0 to |msgs|
        invariant Worked(cfg, world, msgs[..i], events, stats, session.events, replayer.stats)
        invariant session.frontier == FrontierAfter(start, msgs[..i])
        invariant forall j | 0 <= j < i :: !Fails(cfg, world, msgs[j].offset, msgs[j].value)
      {
        WorksOn(cfg, world, msgs, i, events, stats, session.events, replayer.stats);
        FrontierMoves(start, msgs, i);
        err := ProcessMessage(session, msgs[i]);
        if err.Some? {
          FailureAt(cfg, world, msgs, i);
          return;
        }
      }
      NoFailure(cfg, world, msgs);
      return None;
    }
  }

  /** The offsets marked, in order. */
  function MarkedOffsets(es: seq<Event>): seq<nat> {
    if es == [] then [] else
      var e := es[|es| - 1];
      MarkedOffsets(es[..|es| - 1]) + if e.Marked? then [e.offset] else []
  }

  lemma {:induction false} MarkedOffsetsConcat(a: seq<Event>, b: seq<Event>)
    ensures MarkedOffsets(a + b) == MarkedOffsets(a) + MarkedOffsets(b)
  {
    if b == [] {
      assert a + b == a;
    } else {
      var n := |b| - 1;
      MarkedOffsetsConcat(a, b[..n]);
      assert (a + b)[..|a + b| - 1] == a + b[..n];
    }
  }

  lemma {:induction false} NoMarkedOffsets(es: seq<Event>)
    requires forall e | e in es :: !e.Marked?
    ensures MarkedOffsets(es) == []
  {
    if es != [] {
      NoMarkedOffsets(es[..|es| - 1]);
    }
  }

  lemma MessageMarks(cfg: Config, w: World, o: nat, value: GoString)
    ensures MarkedOffsets(MessageTrace(cfg, w, o, value)) == if Fails(cfg, w, o, value) then [] else [o]
  {
    var t := MessageTrace(cfg, w, o, value);
    NoMarkedOffsets(t[..|t| - 1]);
  }

  function OffsetsOf(msgs: seq<Incoming>): (os: seq<nat>)
    ensures |os| == |msgs| && forall i | 0 <= i < |msgs| :: os[i] == msgs[i].offset
  {
    if msgs == [] then [] else OffsetsOf(msgs[..|msgs| - 1]) + [msgs[|msgs| - 1].offset]
  }

  lemma OffsetsGrow(msgs: seq<Incoming>, i: nat)
    requires i < |msgs|
    ensures OffsetsOf(msgs[..i + 1]) == OffsetsOf(msgs[..i]) + [msgs[i].offset]
  {
    assert msgs[..i + 1][..i] == msgs[..i];
  }

  lemma MarksGrow(cfg: Config, w: World, msgs: seq<Incoming>, i: nat)
    requires i < |msgs| && MarkedOffsets(ClaimTrace(cfg, w, msgs[..i])) == OffsetsOf(msgs[..i])
    ensures MarkedOffsets(ClaimTrace(cfg, w, msgs[..i + 1]))
         == if Fails(cfg, w, msgs[i].offset, msgs[i].value) then OffsetsOf(msgs[..i]) else OffsetsOf(msgs[..i + 1])
  {
    ClaimStep(cfg, w, msgs, i);
    MarkedOffsetsConcat(ClaimTrace(cfg, w, msgs[..i]), MessageTrace(cfg, w, msgs[i].offset, msgs[i].value));
    MessageMarks(cfg, w, msgs[i].offset, msgs[i].value);
    OffsetsGrow(msgs, i);
    AppendEmpty(OffsetsOf(msgs[..i]));
  }

  /** Exactly the messages before the first failed replay are marked, in order. */
  lemma MarksAreThePrefix(cfg: Config, w: World, msgs: seq<Incoming>)
    ensures MarkedOffsets(ClaimTrace(cfg, w, Touched(cfg, w, msgs))) == OffsetsOf(msgs[..FirstFailure(cfg, w, msgs)])
  {
    var n := FirstFailure(cfg, w, msgs);
    for i := 0 to n
      invariant MarkedOffsets(ClaimTrace(cfg, w, msgs[..i])) == OffsetsOf(msgs[..i])
    {
      MarksGrow(cfg, w, msgs, i);
    }
    if n < |msgs| {
      MarksGrow(cfg, w, msgs, n);
    } else {
      assert msgs[..n] == msgs;
    }
  }
}
