/**
  The whole pipeline: consumer sessions on a source partition, the dead letter topic their callback feeds,
  and the replayers reading that topic. A dead-lettering event of a session and the broker's append to
  the dead letter topic are one step; nothing else is appended there.
  */
module Pipeline {
  import opened GoStrings
  import opened Options
  import opened Envelopes
  import opened Sequences
  import opened Sessions
  import opened DeadLetters
  import Topics
  import CC = ConsumerClaim
  import CD = ConsumerDelivery
  import RC = ReplayClaim
  import RD = ReplayDelivery

  datatype Config = Config(consumer: CC.Config, replay: RC.Config)

  /** A callback is set, and replayers read back what its handler marshals. */
  ghost predicate Connected(cfg: Config) {
    && cfg.consumer.dlq.Some?
    && cfg.consumer.codec.RoundTrips()
    && forall v: GoString :: cfg.replay.decode(v) == cfg.consumer.codec.unmarshal(v)
  }

  datatype State = State(consumer: CD.State, replay: RD.State)

  datatype Action = Consume(c: CD.Action) | Replay(r: RD.Action)

  /** The delivery to the dead letter topic that a consumer action makes, if any. */
  function DeliveryOf(cfg: Config, st: CD.State, a: CD.Action): Option<Delivery> {
    if a.Step? && a.session < |st.sessions| && st.sessions[a.session].pos < |st.log|
       && st.sessions[a.session].idx < |CD.Current(cfg.consumer, st.log, st.sessions[a.session])|
    then
      var e := CD.Current(cfg.consumer, st.log, st.sessions[a.session])[st.sessions[a.session].idx];
      if e.DeadLettered? then e.delivery else None
    else None
  }

  ghost predicate Enabled(cfg: Config, st: State, a: Action)
    requires RD.WellFormed(st.replay)
  {
    match a
    case Consume(c) =>
      var d := DeliveryOf(cfg, st.consumer, c);
      CD.Enabled(cfg.consumer, st.consumer, c) && (d.Some? ==> d.value.partition < |st.replay.logs|)
    case Replay(r) => !r.Append? && RD.Enabled(cfg.replay, st.replay, r)
  }

  ghost function Next(cfg: Config, st: State, a: Action): (st': State)
    requires RD.WellFormed(st.replay) && Enabled(cfg, st, a)
    ensures RD.WellFormed(st'.replay)
  {
    match a
    case Consume(c) =>
      var d := DeliveryOf(cfg, st.consumer, c);
      State(CD.Next(cfg.consumer, st.consumer, c),
            if d.None? then st.replay
            else RD.Next(cfg.replay, st.replay, RD.Append(d.value.partition, d.value.record.value)))
    case Replay(r) => st.(replay := RD.Next(cfg.replay, st.replay, r))
  }

  ghost function Exec(cfg: Config, st: State, acts: seq<Action>): (end: Option<State>)
    requires RD.WellFormed(st.replay)
    ensures end.Some? ==> RD.WellFormed(end.value.replay)
  {
    if acts == [] then Some(st) else
      var n := |acts| - 1;
      var mid := Exec(cfg, st, acts[..n]);
      if mid.Some? && Enabled(cfg, mid.value, acts[n]) then Some(Next(cfg, mid.value, acts[n])) else None
  }

  /** A source log to consume from `base`, and a dead letter topic that is still empty. */
  ghost predicate Initial(st: State, base: nat) {
    && base <= |st.consumer.log| && st.consumer == CD.Init(st.consumer.log, base)
    && RD.Initial(st.replay)
    && forall p | 0 <= p < |st.replay.logs| :: st.replay.logs[p] == []
  }

  lemma Extend(cfg: CC.Config, st: CD.State, acts: seq<CD.Action>, a: CD.Action)
    requires CD.Exec(cfg, st, acts).Some? && CD.Enabled(cfg, CD.Exec(cfg, st, acts).value, a)
    ensures CD.Exec(cfg, st, acts + [a]) == Some(CD.Next(cfg, CD.Exec(cfg, st, acts).value, a))
  {
    assert (acts + [a])[..|acts|] == acts;
  }

  lemma ExtendReplay(cfg: RC.Config, st: RD.State, acts: seq<RD.Action>, a: RD.Action)
    requires RD.WellFormed(st) && RD.Exec(cfg, st, acts).Some? && RD.Enabled(cfg, RD.Exec(cfg, st, acts).value, a)
    ensures RD.Exec(cfg, st, acts + [a]) == Some(RD.Next(cfg, RD.Exec(cfg, st, acts).value, a))
  {
    assert (acts + [a])[..|acts|] == acts;
  }

  /** Every run of the pipeline is a run of the consumers and a run of the replayers. */
  lemma {:induction false} Projects(cfg: Config, st: State, acts: seq<Action>)
    returns (cs: seq<CD.Action>, rs: seq<RD.Action>)
    requires RD.WellFormed(st.replay) && Exec(cfg, st, acts).Some?
    ensures CD.Exec(cfg.consumer, st.consumer, cs) == Some(Exec(cfg, st, acts).value.consumer)
    ensures RD.Exec(cfg.replay, st.replay, rs) == Some(Exec(cfg, st, acts).value.replay)
  {
    cs, rs := [], [];
    if acts != [] {
      var n := |acts| - 1;
      cs, rs := Projects(cfg, st, acts[..n]);
      var mid := Exec(cfg, st, acts[..n]).value;
      match acts[n]
      case Consume(c) =>
        Extend(cfg.consumer, st.consumer, cs, c);
        cs := cs + [c];
        var d := DeliveryOf(cfg, mid.consumer, c);
        if d.Some? {
          var append := RD.Append(d.value.partition, d.value.record.value);
          ExtendReplay(cfg.replay, st.replay, rs, append);
          rs := rs + [append];
        }
      case Replay(r) =>
        ExtendReplay(cfg.replay, st.replay, rs, r);
        rs := rs + [r];
    }
  }

  // ---- The dead letter topic holds exactly what was sent -------------------------------------

  /** All that the partitions of the topic hold. */
  ghost function Stored(logs: seq<seq<GoString>>): multiset<GoString> {
    Gather(logs, Contents)
  }

  ghost function Contents(log: seq<GoString>): multiset<GoString> {
    multiset(log)
  }

  function ValuesOf(ds: seq<Delivery>): (vs: seq<GoString>)
    ensures |vs| == |ds| && forall i | 0 <= i < |ds| :: vs[i] == ds[i].record.value
  {
    if ds == [] then [] else ValuesOf(ds[..|ds| - 1]) + [ds[|ds| - 1].record.value]
  }

  /** The values of the records a session's callbacks got accepted. */
  ghost function SentBy(s: CD.Session): multiset<GoString> {
    multiset(ValuesOf(CC.Deliveries(s.events)))
  }

  ghost function Sent(sessions: seq<CD.Session>): multiset<GoString> {
    Gather(sessions, SentBy)
  }

  lemma SentByGrows(s: CD.Session, s': CD.Session, e: CC.Event)
    requires s'.events == s.events + [e]
    ensures SentBy(s') == SentBy(s)
            + if e.DeadLettered? && e.delivery.Some? then multiset{e.delivery.value.record.value} else multiset{}
  {
    var ds := CC.Deliveries(s.events);
    assert s'.events[..|s.events|] == s.events;
    if e.DeadLettered? && e.delivery.Some? {
      var d := e.delivery.value;
      assert CC.Deliveries(s'.events) == ds + [d];
      assert (ds + [d])[..|ds|] == ds;
    } else {
      assert CC.Deliveries(s'.events) == ds + [];
      AppendEmpty(ds);
    }
  }

  ghost predicate Linked(st: State) {
    RD.WellFormed(st.replay) && Stored(st.replay.logs) == Sent(st.consumer.sessions)
  }

  function AddTo(logs: seq<seq<GoString>>, d: Option<Delivery>): seq<seq<GoString>>
    requires d.Some? ==> d.value.partition < |logs|
  {
    if d.None? then logs else logs[d.value.partition := logs[d.value.partition] + [d.value.record.value]]
  }

  function Added(d: Option<Delivery>): multiset<GoString> {
    if d.None? then multiset{} else multiset{d.value.record.value}
  }

  lemma EventEffect(cfg: Config, st: State, i: nat)
    requires RD.WellFormed(st.replay) && Enabled(cfg, st, Consume(CD.Step(i)))
    ensures var next := Next(cfg, st, Consume(CD.Step(i)));
            && next.consumer.sessions
               == st.consumer.sessions[i := CD.Advance(cfg.consumer, st.consumer.log, st.consumer.sessions[i])]
            && next.replay.logs == AddTo(st.replay.logs, DeliveryOf(cfg, st.consumer, CD.Step(i)))
  {
  }

  lemma AddingKeepsLink(st: State, i: nat, s: CD.Session, d: Option<Delivery>)
    requires Linked(st) && i < |st.consumer.sessions| && (d.Some? ==> d.value.partition < |st.replay.logs|)
    requires SentBy(s) == SentBy(st.consumer.sessions[i]) + Added(d)
    ensures Stored(AddTo(st.replay.logs, d)) == Sent(st.consumer.sessions[i := s])
  {
    GatherGrows(st.consumer.sessions, i, s, Added(d), SentBy);
    if d.Some? {
      var p := d.value.partition;
      GatherGrows(st.replay.logs, p, st.replay.logs[p] + [d.value.record.value], Added(d), Contents);
    }
  }

  lemma EventKeepsLink(cfg: Config, st: State, i: nat)
    requires Linked(st) && Enabled(cfg, st, Consume(CD.Step(i)))
    ensures Linked(Next(cfg, st, Consume(CD.Step(i))))
  {
    var s, d := st.consumer.sessions[i], DeliveryOf(cfg, st.consumer, CD.Step(i));
    var s' := CD.Advance(cfg.consumer, st.consumer.log, s);
    SentByGrows(s, s', CD.Current(cfg.consumer, st.consumer.log, s)[s.idx]);
    AddingKeepsLink(st, i, s', d);
    EventEffect(cfg, st, i);
  }

  lemma ConsumeKeepsLink(cfg: Config, st: State, c: CD.Action)
    requires Linked(st) && Enabled(cfg, st, Consume(c))
    ensures Linked(Next(cfg, st, Consume(c)))
  {
    var sessions, sessions' := st.consumer.sessions, CD.Next(cfg.consumer, st.consumer, c).sessions;
    if c.Step? {
      EventKeepsLink(cfg, st, c.session);
    } else if c.Open? {
      assert sessions'[..|sessions|] == sessions;
    } else if c.Crash? {
      GatherGrows(sessions, c.session, sessions'[c.session], multiset{}, SentBy);
    }
  }

  lemma ReplayKeepsLink(cfg: Config, st: State, r: RD.Action)
    requires Linked(st) && Enabled(cfg, st, Replay(r))
    ensures Linked(Next(cfg, st, Replay(r)))
  {
  }

  lemma {:induction false} NothingStored(logs: seq<seq<GoString>>)
    requires forall p | 0 <= p < |logs| :: logs[p] == []
    ensures Stored(logs) == multiset{}
  {
    if logs != [] {
      NothingStored(logs[..|logs| - 1]);
    }
  }

  /**
    Conservation: in every reachable state the records of the dead letter topic, over all its partitions,
    are exactly those the sessions' callbacks got accepted, each as often as it was accepted.
    */
  lemma {:induction false} TopicHoldsWhatWasSent(cfg: Config, st: State, base: nat, acts: seq<Action>)
    requires Initial(st, base) && Exec(cfg, st, acts).Some?
    ensures Linked(Exec(cfg, st, acts).value)
  {
    if acts == [] {
      NothingStored(st.replay.logs);
    } else {
      var n := |acts| - 1;
      TopicHoldsWhatWasSent(cfg, st, base, acts[..n]);
      if acts[n].Consume? {
        ConsumeKeepsLink(cfg, Exec(cfg, st, acts[..n]).value, acts[n].c);
      } else {
        ReplayKeepsLink(cfg, Exec(cfg, st, acts[..n]).value, acts[n].r);
      }
    }
  }

  // ---- Each dead letter is where it was sent -------------------------------------------------

  /** The event's delivery, if it has one, is in the partition it names. */
  ghost predicate Arrived(logs: seq<seq<GoString>>, e: CC.Event) {
    e.DeadLettered? && e.delivery.Some? ==>
      e.delivery.value.partition < |logs| && e.delivery.value.record.value in logs[e.delivery.value.partition]
  }

  ghost predicate AllArrived(logs: seq<seq<GoString>>, es: seq<CC.Event>) {
    forall e | e in es :: Arrived(logs, e)
  }

  ghost predicate Placed(st: State) {
    forall s | s in st.consumer.sessions :: AllArrived(st.replay.logs, s.events)
  }

  lemma ArrivedForever(logs: seq<seq<GoString>>, d: Option<Delivery>, e: CC.Event)
    requires d.Some? ==> d.value.partition < |logs|
    requires Arrived(logs, e) || (e.DeadLettered? && e.delivery == d)
    ensures Arrived(AddTo(logs, d), e)
  {
    if e.DeadLettered? && e.delivery.Some? && d.Some? && e.delivery.value.partition == d.value.partition {
      InConcat(logs[d.value.partition], [d.value.record.value], e.delivery.value.record.value);
    }
  }

  lemma EventKeepsPlaced(cfg: Config, st: State, i: nat)
    requires RD.WellFormed(st.replay) && Placed(st) && Enabled(cfg, st, Consume(CD.Step(i)))
    ensures Placed(Next(cfg, st, Consume(CD.Step(i))))
  {
    var d, next := DeliveryOf(cfg, st.consumer, CD.Step(i)), Next(cfg, st, Consume(CD.Step(i)));
    EventEffect(cfg, st, i);
    forall s, e | s in next.consumer.sessions && e in s.events ensures Arrived(next.replay.logs, e) {
      if s !in st.consumer.sessions {
        InConcat(st.consumer.sessions[i].events, [s.events[|s.events| - 1]], e);
        assert st.consumer.sessions[i] in st.consumer.sessions;
      }
      ArrivedForever(st.replay.logs, d, e);
    }
  }

  lemma StepKeepsPlaced(cfg: Config, st: State, a: Action)
    requires RD.WellFormed(st.replay) && Placed(st) && Enabled(cfg, st, a)
    ensures Placed(Next(cfg, st, a))
  {
    if a.Consume? && a.c.Step? {
      EventKeepsPlaced(cfg, st, a.c.session);
    } else if a.Consume? && a.c.Crash? {
      assert st.consumer.sessions[a.c.session] in st.consumer.sessions;
    }
  }

  /** In every reachable state each accepted dead letter is in the partition the broker put it into. */
  lemma {:induction false} RunKeepsPlaced(cfg: Config, st: State, base: nat, acts: seq<Action>)
    requires Initial(st, base) && Exec(cfg, st, acts).Some?
    ensures Placed(Exec(cfg, st, acts).value)
  {
    if acts != [] {
      var n := |acts| - 1;
      RunKeepsPlaced(cfg, st, base, acts[..n]);
      StepKeepsPlaced(cfg, Exec(cfg, st, acts[..n]).value, acts[n]);
    }
  }

  // ---- End to end ----------------------------------------------------------------------------

  /** `e` is the callback's invocation with the error and the envelope the last attempt left behind. */
  ghost predicate LastAttemptFailed(cfg: CC.Config, w: CC.World, value: GoString, e: CC.Event, o: nat) {
    var n, d := CC.Attempts(w, o, cfg.maxRetries), CC.Dispatched(cfg, value);
    && d.Some? && cfg.dlq.Some? && e.DeadLettered? && e.offset == o
    && CC.ErrorAt(w, o, n) == Some(e.cause) && e.env == CC.EnvelopeAt(w, o, d.value.env, n + 1)
    && (e.delivery.Some? ==> e.delivery.value.record.topic == Topics.DLQ(cfg.dlq.value.topic))
  }

  /**
    The dead letter event records the callback's invocation after the last attempt for the message at its
    offset, and a delivery in it is the one `Handle` makes for the event's envelope and error.
    */
  ghost predicate FromHandler(cfg: CC.Config, log: seq<GoString>, w: CC.World, e: CC.Event) {
    e.DeadLettered? ==>
      && e.offset < |log| && LastAttemptFailed(cfg, w, log[e.offset], e, e.offset)
      && (e.delivery.Some? ==> exists answer ::
            Handled(cfg.codec, cfg.dlq.value, Some(e.env), Some(e.cause), answer) == DeadLetters.Sent(e.delivery.value))
  }

  lemma MessageFromHandler(cfg: CC.Config, log: seq<GoString>, w: CC.World, o: nat)
    requires o < |log|
    ensures forall e | e in CC.MessageTrace(cfg, w, o, log[o]) :: FromHandler(cfg, log, w, e)
  {
    forall e | e in CC.MessageTrace(cfg, w, o, log[o]) ensures FromHandler(cfg, log, w, e) {
      if e.DeadLettered? {
        assert e == CC.DeadLetterEvent(cfg, w, o, CC.Dispatched(cfg, log[o]).value);
        assert e.delivery.Some? ==> Handled(cfg.codec, cfg.dlq.value, Some(e.env), Some(e.cause), w.answer(o)).Sent?;
      }
    }
  }

  lemma SessionFromHandler(cfg: CC.Config, log: seq<GoString>, s: CD.Session)
    requires CD.SessionInv(cfg, log, s)
    ensures forall e | e in s.events :: FromHandler(cfg, log, s.world, e)
  {
    forall o, e | s.start <= o < |log| && e in CC.MessageTrace(cfg, s.world, o, log[o])
      ensures FromHandler(cfg, log, s.world, e)
    {
      MessageFromHandler(cfg, log, s.world, o);
    }
    CD.SessionEvents(cfg, log, s, e => FromHandler(cfg, log, s.world, e));
  }

  lemma StoredContains(logs: seq<seq<GoString>>, p: nat, o: nat)
    requires p < |logs| && o < |logs[p]|
    ensures logs[p][o] in Stored(logs)
  {
    GatherContains(logs, p, Contents, logs[p][o]);
  }

  lemma {:induction false} DeliveriesContain(es: seq<CC.Event>, e: CC.Event)
    requires e in es && e.DeadLettered? && e.delivery.Some?
    ensures e.delivery.value in CC.Deliveries(es)
  {
    var n := |es| - 1;
    if e != es[n] {
      DeliveriesContain(es[..n], e);
    }
  }

  lemma {:induction false} DeliveryOrigin(es: seq<CC.Event>, i: nat) returns (e: CC.Event)
    requires i < |CC.Deliveries(es)|
    ensures e in es && e.DeadLettered? && e.delivery == Some(CC.Deliveries(es)[i])
  {
    var n := |es| - 1;
    if i < |CC.Deliveries(es[..n])| {
      e := DeliveryOrigin(es[..n], i);
    } else {
      e := es[n];
    }
  }

  lemma SentOrigin(sessions: seq<CD.Session>, v: GoString) returns (s: CD.Session, e: CC.Event)
    requires v in Sent(sessions)
    ensures s in sessions && e in s.events && e.DeadLettered? && e.delivery.Some? && e.delivery.value.record.value == v
  {
    var n := GatherOrigin(sessions, SentBy, v);
    s := sessions[n];
    var ds := CC.Deliveries(s.events);
    var i :| 0 <= i < |ds| && ValuesOf(ds)[i] == v;
    e := DeliveryOrigin(s.events, i);
  }

  lemma SentContains(sessions: seq<CD.Session>, i: nat, e: CC.Event)
    requires i < |sessions| && e in sessions[i].events && e.DeadLettered? && e.delivery.Some?
    ensures e.delivery.value.record.value in Sent(sessions)
  {
    var ds := CC.Deliveries(sessions[i].events);
    DeliveriesContain(sessions[i].events, e);
    var k :| 0 <= k < |ds| && ds[k] == e.delivery.value;
    assert ValuesOf(ds)[k] in SentBy(sessions[i]);
    GatherContains(sessions, i, SentBy, e.delivery.value.record.value);
  }

  /** An initial run gives the invariants of both halves, and what links them. */
  lemma Invariants(cfg: Config, st: State, base: nat, acts: seq<Action>)
    requires Initial(st, base) && Exec(cfg, st, acts).Some?
    ensures var end := Exec(cfg, st, acts).value;
            && CD.Inv(cfg.consumer, base, end.consumer)
            && RD.Inv(cfg.replay, st.replay.committed, end.replay)
            && Linked(end) && Placed(end)
  {
    RunKeepsPlaced(cfg, st, base, acts);
    var cs, rs := Projects(cfg, st, acts);
    CD.RunKeepsInv(cfg.consumer, st.consumer.log, base, cs);
    RD.RunKeepsInv(cfg.replay, st.replay, rs);
    TopicHoldsWhatWasSent(cfg, st, base, acts);
  }

  /** The message the callback makes of the envelope and the error the last attempt left behind. */
  function LastMessage(cfg: CC.Config, w: CC.World, o: nat, d: CC.Dispatch): Message
    requires CC.Exhausted(cfg, w, o) && cfg.dlq.Some?
  {
    var n := CC.Attempts(w, o, cfg.maxRetries);
    NewMessage(cfg.dlq.value, CC.EnvelopeAt(w, o, d.env, n + 1), CC.ErrorAt(w, o, n), w.answer(o).now)
  }

  /** That message can be encoded, and the broker accepts it. */
  predicate Accepted(cfg: CC.Config, w: CC.World, o: nat, d: CC.Dispatch)
    requires CC.Exhausted(cfg, w, o) && cfg.dlq.Some?
  {
    cfg.codec.marshal(LastMessage(cfg, w, o, d)).Some? && w.answer(o).partition.Some?
  }

  /** The callback ran for the message at `o` with the last attempt's envelope and error, and `delivery` came of it. */
  predicate CalledBackWith(cfg: CC.Config, s: CD.Session, o: nat, d: CC.Dispatch, delivery: Option<Delivery>)
    requires CC.Exhausted(cfg, s.world, o)
  {
    var n := CC.Attempts(s.world, o, cfg.maxRetries);
    CC.DeadLettered(o, CC.EnvelopeAt(s.world, o, d.env, n + 1), CC.ErrorAt(s.world, o, n).value, delivery) in s.events
  }

  /**
    The broker's partition of the topic holds the encoded message, a replayer reads the message back from it,
    and the callback sent it there.
    */
  ghost predicate StoredFor(cfg: Config, st: State, s: CD.Session, o: nat, d: CC.Dispatch)
    requires CC.Exhausted(cfg.consumer, s.world, o) && cfg.consumer.dlq.Some?
    requires Accepted(cfg.consumer, s.world, o, d)
  {
    var m := LastMessage(cfg.consumer, s.world, o, d);
    var data := cfg.consumer.codec.marshal(m).value;
    var p := s.world.answer(o).partition.value;
    && data in Stored(st.replay.logs)
    && p < |st.replay.logs| && data in st.replay.logs[p]
    && cfg.replay.decode(data) == Some(m)
    && exists delivery: Delivery ::
         && CalledBackWith(cfg.consumer, s, o, d, Some(delivery))
         && delivery.partition == p
         && delivery.record.value == data && delivery.record.topic == Topics.DLQ(cfg.consumer.dlq.value.topic)
  }

  /** How the message at `o`, which session `s` has finished, shows up in the callbacks and in the dead letter topic. */
  ghost predicate Accounted(cfg: Config, st: State, s: CD.Session, o: nat)
    requires o < |st.consumer.log|
  {
    if CD.CallsBack(cfg.consumer, s.world, o, st.consumer.log[o]) then
      var d := CC.Dispatched(cfg.consumer, st.consumer.log[o]).value;
      && CD.CalledBack(s.events, o, 1)
      && if Accepted(cfg.consumer, s.world, o, d) then StoredFor(cfg, st, s, o, d)
         else CalledBackWith(cfg.consumer, s, o, d, None)
    else CD.CalledBack(s.events, o, 0)
  }

  /** The event of an exhausted message is there, with a delivery exactly when the message was accepted. */
  lemma ExhaustedEvent(cfg: CC.Config, log: seq<GoString>, s: CD.Session, o: nat)
    requires CD.SessionInv(cfg, log, s) && s.start <= o < s.pos && CD.CallsBack(cfg, s.world, o, log[o])
    ensures var d := CC.Dispatched(cfg, log[o]).value;
            var e := CC.DeadLetterEvent(cfg, s.world, o, d);
            && e in s.events && CalledBackWith(cfg, s, o, d, e.delivery)
            && (e.delivery.Some? <==> Accepted(cfg, s.world, o, d))
  {
    var t, n := CC.MessageTrace(cfg, s.world, o, log[o]), CC.Attempts(s.world, o, cfg.maxRetries);
    var e := CC.DeadLetterEvent(cfg, s.world, o, CC.Dispatched(cfg, log[o]).value);
    assert t[n + 1] == e;
    CD.SessionContains(cfg, log, s, o, e);
  }

  lemma AcceptedIsStored(cfg: Config, st: State, i: nat, o: nat, d: CC.Dispatch)
    requires Connected(cfg) && Linked(st) && Placed(st) && i < |st.consumer.sessions|
    requires CC.Exhausted(cfg.consumer, st.consumer.sessions[i].world, o)
    requires Accepted(cfg.consumer, st.consumer.sessions[i].world, o, d)
    requires CC.DeadLetterEvent(cfg.consumer, st.consumer.sessions[i].world, o, d) in st.consumer.sessions[i].events
    ensures StoredFor(cfg, st, st.consumer.sessions[i], o, d)
  {
    var s := st.consumer.sessions[i];
    var e, m := CC.DeadLetterEvent(cfg.consumer, s.world, o, d), LastMessage(cfg.consumer, s.world, o, d);
    assert cfg.consumer.codec.unmarshal(cfg.consumer.codec.marshal(m).value) == Some(m);
    SentContains(st.consumer.sessions, i, e);
    assert s in st.consumer.sessions && Arrived(st.replay.logs, e);
    assert CalledBackWith(cfg.consumer, s, o, d, Some(e.delivery.value));
  }

  /**
    Nothing exhausted is lost silently: for every message a session has finished, the callback ran once if
    all its attempts failed and not at all otherwise. The message made of the last attempt's envelope and
    error is then in the dead letter topic, for any replayer to read back, unless it could not be encoded or
    the broker refused it; in that case, and only then, the callback's send failed.
    */
  lemma ExhaustedIsStoredOrFailed(cfg: Config, st: State, base: nat, acts: seq<Action>, i: nat, o: nat)
    requires Connected(cfg) && Initial(st, base) && Exec(cfg, st, acts).Some?
    requires var end := Exec(cfg, st, acts).value.consumer;
             i < |end.sessions| && end.sessions[i].start <= o < end.sessions[i].pos <= |end.log|
    ensures var end := Exec(cfg, st, acts).value;
            Accounted(cfg, end, end.consumer.sessions[i], o)
  {
    Invariants(cfg, st, base, acts);
    var end := Exec(cfg, st, acts).value;
    var s, log := end.consumer.sessions[i], end.consumer.log;
    assert s in end.consumer.sessions;
    CD.SessionCallsBack(cfg.consumer, log, s, o);
    if CD.CallsBack(cfg.consumer, s.world, o, log[o]) {
      var d := CC.Dispatched(cfg.consumer, log[o]).value;
      ExhaustedEvent(cfg.consumer, log, s, o);
      if Accepted(cfg.consumer, s.world, o, d) {
        AcceptedIsStored(cfg, end, i, o, d);
      }
    }
  }

  /**
    Everything that reaches a replay handler was dead-lettered: the envelope is, unchanged, the one some
    session's callback got after its last attempt failed.
    */
  lemma ReplayedWasDeadLettered(cfg: Config, st: State, base: nat, acts: seq<Action>, t: RD.Thread, called: RC.Event)
    returns (s: CD.Session, e: CC.Event)
    requires Connected(cfg) && Initial(st, base) && Exec(cfg, st, acts).Some?
    requires t in Exec(cfg, st, acts).value.replay.threads && called in t.events && called.Called?
    ensures s in Exec(cfg, st, acts).value.consumer.sessions && e in s.events
    ensures e.DeadLettered? && e.delivery.Some? && e.env == called.env
    ensures var log := Exec(cfg, st, acts).value.consumer.log;
            e.offset < |log| && LastAttemptFailed(cfg.consumer, s.world, log[e.offset], e, e.offset)
  {
    Invariants(cfg, st, base, acts);
    var end := Exec(cfg, st, acts).value;
    var log := end.replay.logs[t.partition];
    RD.ThreadReads(cfg.replay, log, t);
    assert RD.ReadFrom(cfg.replay, log, called);
    StoredContains(end.replay.logs, t.partition, called.offset);
    s, e := SentOrigin(end.consumer.sessions, log[called.offset]);
    SessionFromHandler(cfg.consumer, end.consumer.log, s);
    assert FromHandler(cfg.consumer, end.consumer.log, s.world, e);
    var answer :| Handled(cfg.consumer.codec, cfg.consumer.dlq.value, Some(e.env), Some(e.cause), answer)
                  == DeadLetters.Sent(e.delivery.value);
    SentMessageReadsBack(cfg.consumer.codec, cfg.consumer.dlq.value, e.env, e.cause, answer);
  }

  // ---- Counting what was sent and what failed ------------------------------------------------

  predicate IsCallback(e: CC.Event) { e.DeadLettered? }
  predicate IsFailedSend(e: CC.Event) { e.DeadLettered? && e.delivery.None? }

  lemma {:induction false} CallbacksOf(es: seq<CC.Event>)
    ensures Count(es, IsCallback) == |CC.Deliveries(es)| + Count(es, IsFailedSend)
  {
    if es != [] {
      CallbacksOf(es[..|es| - 1]);
    }
  }

  lemma {:induction false} CallbacksAddUp(sessions: seq<CD.Session>)
    ensures Sum(sessions, CD.Occurrences(IsCallback)) == |Sent(sessions)| + Sum(sessions, CD.Occurrences(IsFailedSend))
  {
    if sessions != [] {
      var n := |sessions| - 1;
      CallbacksAddUp(sessions[..n]);
      CallbacksOf(sessions[n].events);
    }
  }

  /** Every invocation of the callback left one record in the dead letter topic or one failed send. */
  lemma CallbacksAreStoredOrFailed(cfg: Config, st: State, base: nat, acts: seq<Action>)
    requires Initial(st, base) && Exec(cfg, st, acts).Some?
    ensures var end := Exec(cfg, st, acts).value;
            Sum(end.consumer.sessions, CD.Occurrences(IsCallback))
            == |Stored(end.replay.logs)| + Sum(end.consumer.sessions, CD.Occurrences(IsFailedSend))
  {
    TopicHoldsWhatWasSent(cfg, st, base, acts);
    CallbacksAddUp(Exec(cfg, st, acts).value.consumer.sessions);
  }

  function AcceptedAt(o: nat): CC.Event -> bool {
    (e: CC.Event) => e.DeadLettered? && e.offset == o && e.delivery.Some?
  }

  /** Over a whole run the dead letters accepted for an offset never outnumber its deliveries to consumers. */
  lemma CopiesWithinDeliveries(cfg: Config, st: State, base: nat, acts: seq<Action>, o: nat)
    requires Initial(st, base) && Exec(cfg, st, acts).Some?
    ensures var sessions := Exec(cfg, st, acts).value.consumer.sessions;
            Sum(sessions, CD.Occurrences(AcceptedAt(o))) <= Sum(sessions, CD.Occurrences(CD.DeliveryAt(o)))
  {
    var cs, rs := Projects(cfg, st, acts);
    CD.CallsWithinDeliveries(cfg.consumer, st.consumer.log, base, cs, o);
    var sessions := Exec(cfg, st, acts).value.consumer.sessions;
    forall s | s in sessions ensures CD.Occurrences(AcceptedAt(o))(s) <= CD.Occurrences(CD.CallbackAt(o))(s) {
      CountMonotone(s.events, AcceptedAt(o), CD.CallbackAt(o));
    }
    SumMonotone(sessions, CD.Occurrences(AcceptedAt(o)), CD.Occurrences(CD.CallbackAt(o)));
  }
}
