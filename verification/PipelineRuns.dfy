/**
  What the pipeline's dead letters say about the messages they stand for, and the runs in which one is lost
  or mislabelled: a single session that takes one exhausted message from delivery to commit.
  */
module PipelineRuns {
  import opened GoStrings
  import opened Options
  import opened Envelopes
  import opened Sequences
  import opened Sessions
  import opened DeadLetters
  import opened Pipeline
  import Topics
  import CC = ConsumerClaim
  import CD = ConsumerDelivery
  import RD = ReplayDelivery

  // ---- Labels --------------------------------------------------------------------------------

  /** What a replayer reads from the dead letter of the message at `o` names that offset. */
  predicate OffsetLabelled(cfg: Config, data: GoString, o: nat) {
    cfg.replay.decode(data).Some? && cfg.replay.decode(data).value.originalOffset == o
  }

  /** It names the number of attempts session `s` made. */
  predicate AttemptsLabelled(cfg: Config, data: GoString, w: CC.World, o: nat) {
    cfg.replay.decode(data).Some?
    && cfg.replay.decode(data).value.attemptCount == CC.Attempts(w, o, cfg.consumer.maxRetries)
  }

  /** The session has finished the message at `o`, exhausted it, and got its dead letter accepted. */
  ghost predicate DeadLetteredBy(cfg: Config, st: CD.State, i: nat, o: nat) {
    && i < |st.sessions| && st.sessions[i].start <= o < st.sessions[i].pos <= |st.log|
    && CD.CallsBack(cfg.consumer, st.sessions[i].world, o, st.log[o])
    && Accepted(cfg.consumer, st.sessions[i].world, o, CC.Dispatched(cfg.consumer, st.log[o]).value)
  }

  /** The encoded dead letter of that message. */
  function DeadLetterData(cfg: Config, st: CD.State, i: nat, o: nat): GoString
    requires i < |st.sessions| && o < |st.log|
    requires CD.CallsBack(cfg.consumer, st.sessions[i].world, o, st.log[o])
    requires Accepted(cfg.consumer, st.sessions[i].world, o, CC.Dispatched(cfg.consumer, st.log[o]).value)
  {
    cfg.consumer.codec.marshal(
      LastMessage(cfg.consumer, st.sessions[i].world, o, CC.Dispatched(cfg.consumer, st.log[o]).value)).value
  }

  /** The topic and the partition number the consumed log belongs to. One callback serves all of a consumer's. */
  datatype Source = Source(topic: Topics.Topic, partition: int)

  /** What a replayer reads names the topic and the partition the message came from. */
  predicate SourceLabelled(cfg: Config, data: GoString, source: Source) {
    cfg.replay.decode(data).Some?
    && cfg.replay.decode(data).value.originalTopic == source.topic
    && cfg.replay.decode(data).value.originalPartition == source.partition
  }

  /**
    A stored dead letter names the offset of the message it stands for exactly when that is the offset the
    callback was created with, and likewise for the number of attempts and for topic and partition, wherever
    the message came from.
    */
  lemma LabelledByCallback(cfg: Config, st: State, base: nat, acts: seq<Action>, i: nat, o: nat, source: Source)
    requires Connected(cfg) && Initial(st, base) && Exec(cfg, st, acts).Some?
    requires DeadLetteredBy(cfg, Exec(cfg, st, acts).value.consumer, i, o)
    ensures var end, cb := Exec(cfg, st, acts).value, cfg.consumer.dlq.value;
            var data, w := DeadLetterData(cfg, end.consumer, i, o), end.consumer.sessions[i].world;
            && data in Stored(end.replay.logs)
            && (OffsetLabelled(cfg, data, o) <==> cb.offset == o)
            && (AttemptsLabelled(cfg, data, w, o) <==> cb.attempts == CC.Attempts(w, o, cfg.consumer.maxRetries))
            && (SourceLabelled(cfg, data, source) <==> Source(cb.topic, cb.partition) == source)
  {
    ExhaustedIsStoredOrFailed(cfg, st, base, acts, i, o);
  }

  /**
    And the callback's send put it on the dead letter topic of the topic the message came from exactly when the
    callback was created with that topic.
    */
  lemma RoutedByCallback(cfg: Config, st: State, base: nat, acts: seq<Action>, i: nat, o: nat, source: Source)
    returns (delivery: Delivery)
    requires Connected(cfg) && Initial(st, base) && Exec(cfg, st, acts).Some?
    requires DeadLetteredBy(cfg, Exec(cfg, st, acts).value.consumer, i, o)
    ensures var end := Exec(cfg, st, acts).value.consumer;
            var d := CC.Dispatched(cfg.consumer, end.log[o]).value;
            && CalledBackWith(cfg.consumer, end.sessions[i], o, d, Some(delivery))
            && delivery.record.value == DeadLetterData(cfg, end, i, o)
            && (delivery.record.topic == Topics.DLQ(source.topic) <==> cfg.consumer.dlq.value.topic == source.topic)
  {
    ExhaustedIsStoredOrFailed(cfg, st, base, acts, i, o);
    var end := Exec(cfg, st, acts).value;
    var s, d := end.consumer.sessions[i], CC.Dispatched(cfg.consumer, end.consumer.log[o]).value;
    assert StoredFor(cfg, end, s, o, d);
    delivery :| && CalledBackWith(cfg.consumer, s, o, d, Some(delivery))
                && delivery.record.value == DeadLetterData(cfg, end.consumer, i, o)
                && delivery.record.topic == Topics.DLQ(cfg.consumer.dlq.value.topic);
    if delivery.record.topic == Topics.DLQ(source.topic) {
      Topics.DLQInjective(cfg.consumer.dlq.value.topic, source.topic);
    }
  }

  /** So of the dead letters of two different offsets at most one names its own. */
  lemma AtMostOneLabelled(cfg: Config, st: State, base: nat, acts: seq<Action>, i: nat, o: nat, j: nat, p: nat)
    requires Connected(cfg) && Initial(st, base) && Exec(cfg, st, acts).Some? && o != p
    requires DeadLetteredBy(cfg, Exec(cfg, st, acts).value.consumer, i, o)
    requires DeadLetteredBy(cfg, Exec(cfg, st, acts).value.consumer, j, p)
    ensures var end := Exec(cfg, st, acts).value.consumer;
            || !OffsetLabelled(cfg, DeadLetterData(cfg, end, i, o), o)
            || !OffsetLabelled(cfg, DeadLetterData(cfg, end, j, p), p)
  {
    var anywhere := Source("", 0);
    LabelledByCallback(cfg, st, base, acts, i, o, anywhere);
    LabelledByCallback(cfg, st, base, acts, j, p, anywhere);
  }

  // ---- One session, one message --------------------------------------------------------------

  /** A source log to be consumed from `o`, and a dead letter topic of one empty partition. */
  function Start(log: seq<GoString>, o: nat): State {
    State(CD.Init(log, o), RD.State([[]], [0], [], [], []))
  }

  function Trace(cfg: Config, log: seq<GoString>, o: nat, w: CC.World): seq<CC.Event>
    requires o < |log|
  {
    CC.MessageTrace(cfg.consumer, w, o, log[o])
  }

  /** The topic after the first `k` events of the message. */
  function TopicAt(cfg: Config, log: seq<GoString>, o: nat, w: CC.World, k: nat): RD.State
    requires o < |log| && k <= |Trace(cfg, log, o, w)|
  {
    RD.State([ValuesOf(CC.Deliveries(Trace(cfg, log, o, w)[..k]))], [0], [], [], [])
  }

  /** The pipeline after the first `k` events of the message. */
  function At(cfg: Config, log: seq<GoString>, o: nat, w: CC.World, k: nat): State
    requires o < |log| && k < |Trace(cfg, log, o, w)|
  {
    State(CD.State(log, o, [CD.Session(w, o, o, k, o, Trace(cfg, log, o, w)[..k], true)]), TopicAt(cfg, log, o, w, k))
  }

  /** The pipeline once the message has been marked and the mark committed. */
  function Done(cfg: Config, log: seq<GoString>, o: nat, w: CC.World): State
    requires o < |log|
  {
    var t := Trace(cfg, log, o, w);
    State(CD.State(log, o + 1, [CD.Session(w, o, o + 1, 0, o + 1, t, true)]), TopicAt(cfg, log, o, w, |t|))
  }

  ghost predicate Reaches(cfg: Config, st: State, acts: seq<Action>, end: State) {
    RD.WellFormed(st.replay) && Exec(cfg, st, acts) == Some(end)
  }

  lemma Extended(cfg: Config, st: State, acts: seq<Action>, mid: State, a: Action, end: State)
    requires Reaches(cfg, st, acts, mid) && Enabled(cfg, mid, a) && Next(cfg, mid, a) == end
    ensures Reaches(cfg, st, acts + [a], end)
  {
    assert (acts + [a])[..|acts|] == acts;
  }

  /** If the broker accepts the dead letter, it puts it into the one partition there is. */
  predicate OnePartition(w: CC.World, o: nat) {
    w.answer(o).partition.Some? ==> w.answer(o).partition.value == 0
  }

  lemma DeliveredToFirst(cfg: Config, log: seq<GoString>, o: nat, w: CC.World, k: nat)
    requires o < |log| && k < |Trace(cfg, log, o, w)| && OnePartition(w, o)
    ensures var e := Trace(cfg, log, o, w)[k];
            e.DeadLettered? && e.delivery.Some? ==> e.delivery.value.partition == 0
  {
    var e := Trace(cfg, log, o, w)[k];
    if e.DeadLettered? {
      assert e == CC.DeadLetterEvent(cfg.consumer, w, o, CC.Dispatched(cfg.consumer, log[o]).value);
    }
  }

  lemma TopicGrows(cfg: Config, log: seq<GoString>, o: nat, w: CC.World, k: nat)
    requires o < |log| && k < |Trace(cfg, log, o, w)|
    ensures var e := Trace(cfg, log, o, w)[k];
            TopicAt(cfg, log, o, w, k + 1).logs[0] == TopicAt(cfg, log, o, w, k).logs[0]
              + if e.DeadLettered? && e.delivery.Some? then [e.delivery.value.record.value] else []
  {
    var t := Trace(cfg, log, o, w);
    var ds := CC.Deliveries(t[..k]);
    assert t[..k + 1][..k] == t[..k];
    AppendEmpty(ds);
    AppendEmpty(ValuesOf(ds));
    if t[k].DeadLettered? && t[k].delivery.Some? {
      assert (ds + [t[k].delivery.value])[..|ds|] == ds;
    }
  }

  /** What one event does to the topic. */
  lemma TopicStep(cfg: Config, log: seq<GoString>, o: nat, w: CC.World, k: nat)
    requires o < |log| && k < |Trace(cfg, log, o, w)| && OnePartition(w, o)
    ensures Enabled(cfg, At(cfg, log, o, w, k), Consume(CD.Step(0)))
    ensures Next(cfg, At(cfg, log, o, w, k), Consume(CD.Step(0))).replay == TopicAt(cfg, log, o, w, k + 1)
  {
    DeliveredToFirst(cfg, log, o, w, k);
    TopicGrows(cfg, log, o, w, k);
    AppendEmpty(TopicAt(cfg, log, o, w, k).logs[0]);
    assert Next(cfg, At(cfg, log, o, w, k), Consume(CD.Step(0))).replay.logs == TopicAt(cfg, log, o, w, k + 1).logs;
  }

  /** What one event does to the session. */
  lemma SessionStep(cfg: Config, log: seq<GoString>, o: nat, w: CC.World, k: nat)
    requires o < |log| && k < |Trace(cfg, log, o, w)|
    ensures var t := Trace(cfg, log, o, w);
            CD.Advance(cfg.consumer, log, CD.Session(w, o, o, k, o, t[..k], true))
            == if k + 1 < |t| then CD.Session(w, o, o, k + 1, o, t[..k + 1], true)
               else CD.Session(w, o, o + 1, 0, o + 1, t, true)
  {
    TakeOneMore(Trace(cfg, log, o, w), k);
    CD.MarkIsLast(cfg.consumer, w, o, log[o]);
  }

  /** A session opened at `o` gets to any event of the message at `o`. */
  lemma {:induction false} RunTo(cfg: Config, log: seq<GoString>, o: nat, w: CC.World, k: nat)
    returns (acts: seq<Action>)
    requires o < |log| && k < |Trace(cfg, log, o, w)| && OnePartition(w, o)
    ensures Reaches(cfg, Start(log, o), acts, At(cfg, log, o, w, k))
  {
    if k == 0 {
      assert Trace(cfg, log, o, w)[..0] == [];
      Extended(cfg, Start(log, o), [], Start(log, o), Consume(CD.Open(w)), At(cfg, log, o, w, 0));
      acts := [] + [Consume(CD.Open(w))];
    } else {
      acts := RunTo(cfg, log, o, w, k - 1);
      TopicStep(cfg, log, o, w, k - 1);
      SessionStep(cfg, log, o, w, k - 1);
      Extended(cfg, Start(log, o), acts, At(cfg, log, o, w, k - 1), Consume(CD.Step(0)), At(cfg, log, o, w, k));
      acts := acts + [Consume(CD.Step(0))];
    }
  }

  /** It finishes the message, and the mark is committed. */
  lemma RunThrough(cfg: Config, log: seq<GoString>, o: nat, w: CC.World) returns (acts: seq<Action>)
    requires o < |log| && OnePartition(w, o)
    ensures Reaches(cfg, Start(log, o), acts, Done(cfg, log, o, w))
  {
    var t := Trace(cfg, log, o, w);
    var last, done := |t| - 1, Done(cfg, log, o, w);
    acts := RunTo(cfg, log, o, w, last);
    TopicStep(cfg, log, o, w, last);
    SessionStep(cfg, log, o, w, last);
    var marked := done.(consumer := done.consumer.(committed := o));
    Extended(cfg, Start(log, o), acts, At(cfg, log, o, w, last), Consume(CD.Step(0)), marked);
    acts := acts + [Consume(CD.Step(0))];
    Extended(cfg, Start(log, o), acts, marked, Consume(CD.Commit(0, o + 1)), done);
    acts := acts + [Consume(CD.Commit(0, o + 1))];
  }

  // ---- A lost message, and a mislabelled one -------------------------------------------------

  const FAILURE := HandlerError("")

  /** A handler that always fails and leaves the envelope alone; the broker accepts the dead letter or not. */
  function Failing(env: Envelope, accepts: bool): CC.World {
    CC.World((o, k) => CC.HandlerCall(CC.Returned(Some(FAILURE)), env),
             o => Answer(NO_TIME, if accepts then Some(0) else None))
  }

  lemma FailingExhausts(cfg: Config, log: seq<GoString>, o: nat, accepts: bool)
    requires o < |log| && cfg.consumer.maxRetries >= 1 && cfg.consumer.dlq.Some?
    requires CC.Dispatched(cfg.consumer, log[o]).Some?
    ensures var d := CC.Dispatched(cfg.consumer, log[o]).value;
            var w := Failing(d.env, accepts);
            && CD.CallsBack(cfg.consumer, w, o, log[o])
            && LastMessage(cfg.consumer, w, o, d) == NewMessage(cfg.consumer.dlq.value, d.env, Some(FAILURE), NO_TIME)
  {
  }

  /** A refused dead letter leaves the topic empty. */
  lemma RefusedLeavesNothing(cfg: Config, log: seq<GoString>, o: nat, w: CC.World)
    requires o < |log| && w.answer(o).partition.None?
    ensures Stored(Done(cfg, log, o, w).replay.logs) == multiset{}
  {
    var t := Trace(cfg, log, o, w);
    assert CC.Deliveries(t) == [] by {
      CC.RefusedDeliveries(cfg.consumer, w, o, log[o]);
    }
    assert t[..|t|] == t;
    NothingStored([[]]);
  }

  /**
    The loss is real: for any record a handler would get, a run in which the handler fails every attempt, the
    broker refuses the dead letter, and the message is committed while the dead letter topic is still empty.
    */
  lemma RefusedSendIsCommitted(cfg: Config, value: GoString) returns (acts: seq<Action>)
    requires cfg.consumer.dlq.Some? && cfg.consumer.maxRetries >= 1 && CC.Dispatched(cfg.consumer, value).Some?
    ensures Initial(Start([value], 0), 0) && Exec(cfg, Start([value], 0), acts).Some?
    ensures var end := Exec(cfg, Start([value], 0), acts).value;
            && end.consumer.committed == 1 && |end.consumer.sessions| == 1 && end.consumer.sessions[0].pos == 1
            && CD.CallsBack(cfg.consumer, end.consumer.sessions[0].world, 0, value)
            && Stored(end.replay.logs) == multiset{}
  {
    var log, w := [value], Failing(CC.Dispatched(cfg.consumer, value).value.env, false);
    FailingExhausts(cfg, log, 0, false);
    acts := RunThrough(cfg, log, 0, w);
    RefusedLeavesNothing(cfg, log, 0, w);
  }

  /**
    The mislabelling is real: whatever offset the callback was created with, a run in which the dead letter of
    a message is stored under another message's offset.
    */
  lemma MislabelledRun(cfg: Config, value: GoString) returns (acts: seq<Action>, log: seq<GoString>, o: nat)
    requires Connected(cfg) && cfg.consumer.maxRetries >= 1 && CC.Dispatched(cfg.consumer, value).Some?
    requires var env := CC.Dispatched(cfg.consumer, value).value.env;
             cfg.consumer.codec.marshal(NewMessage(cfg.consumer.dlq.value, env, Some(FAILURE), NO_TIME)).Some?
    ensures Initial(Start(log, o), o) && Exec(cfg, Start(log, o), acts).Some?
    ensures var end := Exec(cfg, Start(log, o), acts).value;
            && DeadLetteredBy(cfg, end.consumer, 0, o) && end.consumer.committed == o + 1
            && DeadLetterData(cfg, end.consumer, 0, o) in Stored(end.replay.logs)
            && !OffsetLabelled(cfg, DeadLetterData(cfg, end.consumer, 0, o), o)
  {
    log := [value, value];
    o := if cfg.consumer.dlq.value.offset == 0 then 1 else 0;
    var d := CC.Dispatched(cfg.consumer, value).value;
    FailingExhausts(cfg, log, o, true);
    acts := RunThrough(cfg, log, o, Failing(d.env, true));
    assert DeadLetteredBy(cfg, Done(cfg, log, o, Failing(d.env, true)).consumer, 0, o);
    LabelledByCallback(cfg, Start(log, o), o, acts, 0, o, Source("", 0));
  }
}
