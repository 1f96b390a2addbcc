/**
  The fate of a committed source message, across consumers, dead letter topic and replayers: it was handled,
  or its dead letter could not be sent, or the dead letter waits for a replayer to deal with it.
  */
module EndToEnd {
  import opened GoStrings
  import opened Options
  import opened Envelopes
  import opened Sequences
  import opened DeadLetters
  import opened Pipeline
  import CC = ConsumerClaim
  import CD = ConsumerDelivery
  import RC = ReplayClaim
  import RD = ReplayDelivery

  /** A dead letter event is the one the code makes of the exhausted message at its offset. */
  ghost predicate IsCallbackEvent(cfg: CC.Config, log: seq<GoString>, w: CC.World, e: CC.Event) {
    e.DeadLettered? ==>
      && e.offset < |log| && CD.CallsBack(cfg, w, e.offset, log[e.offset])
      && e == CC.DeadLetterEvent(cfg, w, e.offset, CC.Dispatched(cfg, log[e.offset]).value)
  }

  lemma MessageCallbackEvent(cfg: CC.Config, log: seq<GoString>, w: CC.World, o: nat, e: CC.Event)
    requires o < |log| && e in CC.MessageTrace(cfg, w, o, log[o])
    ensures IsCallbackEvent(cfg, log, w, e)
  {
  }

  lemma SessionCallbackEvents(cfg: CC.Config, log: seq<GoString>, s: CD.Session)
    requires CD.SessionInv(cfg, log, s)
    ensures forall e | e in s.events :: IsCallbackEvent(cfg, log, s.world, e)
  {
    forall o, e | s.start <= o < |log| && e in CC.MessageTrace(cfg, s.world, o, log[o])
      ensures IsCallbackEvent(cfg, log, s.world, e)
    {
      MessageCallbackEvent(cfg, log, s.world, o, e);
    }
    CD.SessionEvents(cfg, log, s, e => IsCallbackEvent(cfg, log, s.world, e));
  }

  // ---- The dead letter's side ----------------------------------------------------------------

  /** Some replay of the dead letter at `(p, q)` was rejected by a filter, or succeeded with envelope `env`. */
  ghost predicate DealtWith(st: RD.State, p: nat, q: nat, env: Envelope) {
    exists t | t in st.threads ::
      t.partition == p && (RD.Rejecting(t.world, t.events, q) || RC.Called(q, env, None) in t.events)
  }

  /** The dead letter at `(p, q)` carries the envelope, and replayers go past it only once they dealt with it. */
  ghost predicate Keeps(cfg: RC.Config, st: RD.State, p: nat, q: nat, env: Envelope) {
    && p < |st.logs| && p < |st.committed| && q < |st.logs[p]|
    && cfg.decode(st.logs[p][q]).Some? && cfg.decode(st.logs[p][q]).value.envelope == Some(env)
    && (q < st.committed[p] ==> DealtWith(st, p, q, env))
  }

  lemma ClearedIsDealtWith(cfg: RC.Config, bases: seq<nat>, st: RD.State, p: nat, q: nat, env: Envelope)
    requires RD.SafeInv(cfg, bases, st) && p < |st.logs| && q < |st.logs[p]| && RD.Cleared(cfg, st, p, q)
    requires cfg.decode(st.logs[p][q]).Some? && cfg.decode(st.logs[p][q]).value.envelope == Some(env)
    ensures DealtWith(st, p, q, env)
  {
    var value := st.logs[p][q];
    var i :| 0 <= i < |st.threads| && RD.ClearedBy(cfg, value, st.threads[i], p, q);
    var t := st.threads[i];
    assert t in st.threads;
    if !RD.Rejecting(t.world, t.events, q) {
      var e :| e in t.events && e.Called? && e.offset == q && e.err.None?;
      RD.ThreadReads(cfg, st.logs[p], t);
      assert RD.ReadFrom(cfg, st.logs[p], e);
    }
  }

  /** An accepted dead letter is kept at some offset of the partition it was sent to. */
  lemma AcceptedIsKept(cfg: Config, bases: seq<nat>, st: State, s: CD.Session, e: CC.Event) returns (q: nat)
    requires Connected(cfg) && Placed(st) && RD.SafeInv(cfg.replay, bases, st.replay)
    requires forall p | 0 <= p < |bases| :: bases[p] == 0
    requires s in st.consumer.sessions && e in s.events && e.DeadLettered? && e.delivery.Some?
    requires IsCallbackEvent(cfg.consumer, st.consumer.log, s.world, e)
    ensures Keeps(cfg.replay, st.replay, e.delivery.value.partition, q, e.env)
  {
    assert Arrived(st.replay.logs, e);
    var p, value := e.delivery.value.partition, e.delivery.value.record.value;
    q :| 0 <= q < |st.replay.logs[p]| && st.replay.logs[p][q] == value;
    SentMessageReadsBack(cfg.consumer.codec, cfg.consumer.dlq.value, e.env, e.cause, s.world.answer(e.offset));
    if q < st.replay.committed[p] {
      ClearedIsDealtWith(cfg.replay, bases, st.replay, p, q, e.env);
    }
  }

  // ---- The whole way -------------------------------------------------------------------------

  /**
    Session `s` exhausted the message at `o` and called back; if the dead letter could be encoded and the
    broker accepted it, it is kept where it was sent.
    */
  ghost predicate DeadLetterKept(cfg: Config, st: State, s: CD.Session, o: nat)
    requires o < |st.consumer.log|
  {
    && CD.CallsBack(cfg.consumer, s.world, o, st.consumer.log[o])
    && var d := CC.Dispatched(cfg.consumer, st.consumer.log[o]).value;
       var e := CC.DeadLetterEvent(cfg.consumer, s.world, o, d);
       && e in s.events
       && (e.delivery.Some? <==> Accepted(cfg.consumer, s.world, o, d))
       && (e.delivery.Some? ==> exists q :: Keeps(cfg.replay, st.replay, e.delivery.value.partition, q, e.env))
  }

  /** Nobody could handle the message at `o`, or a handler succeeded on it, or a session dead-lettered it. */
  ghost predicate Decided(cfg: Config, st: State, o: nat) {
    && o < |st.consumer.log|
    && (|| CC.Dispatched(cfg.consumer, st.consumer.log[o]).None?
        || (exists s | s in st.consumer.sessions :: CD.Succeeded(s.world, s.events, o))
        || (exists s | s in st.consumer.sessions :: DeadLetterKept(cfg, st, s, o)))
  }

  lemma CalledBackIsKept(cfg: Config, bases: seq<nat>, st: State, s: CD.Session, o: nat)
    requires Connected(cfg) && Placed(st) && RD.SafeInv(cfg.replay, bases, st.replay)
    requires forall p | 0 <= p < |bases| :: bases[p] == 0
    requires s in st.consumer.sessions && CD.SessionInv(cfg.consumer, st.consumer.log, s)
    requires o < |st.consumer.log| && CD.CallbackReturned(s.events, o)
    ensures DeadLetterKept(cfg, st, s, o)
  {
    var e :| e in s.events && e.DeadLettered? && e.offset == o;
    SessionCallbackEvents(cfg.consumer, st.consumer.log, s);
    assert IsCallbackEvent(cfg.consumer, st.consumer.log, s.world, e);
    if e.delivery.Some? {
      var q := AcceptedIsKept(cfg, bases, st, s, e);
    }
  }

  /** A run of the pipeline keeps the safety of both halves. */
  lemma RunIsSafe(cfg: Config, st: State, base: nat, acts: seq<Action>)
    requires cfg.consumer.maxRetries >= 1 && Initial(st, base) && Exec(cfg, st, acts).Some?
    ensures CD.SafeInv(cfg.consumer, base, Exec(cfg, st, acts).value.consumer)
    ensures RD.SafeInv(cfg.replay, st.replay.committed, Exec(cfg, st, acts).value.replay)
  {
    var cs, rs := Projects(cfg, st, acts);
    CD.RunIsSafe(cfg.consumer, st.consumer.log, base, cs);
    RD.RunIsSafe(cfg.replay, st.replay, rs);
  }

  lemma SafeIsDecided(cfg: Config, base: nat, bases: seq<nat>, st: State, o: nat)
    requires Connected(cfg) && Placed(st)
    requires CD.SafeInv(cfg.consumer, base, st.consumer) && RD.SafeInv(cfg.replay, bases, st.replay)
    requires forall p | 0 <= p < |bases| :: bases[p] == 0
    requires base <= o < st.consumer.committed
    ensures Decided(cfg, st, o)
  {
    assert CD.Resolved(cfg.consumer, st.consumer, o);
    if CC.Dispatched(cfg.consumer, st.consumer.log[o]).Some? {
      var s :| s in st.consumer.sessions && CD.Settles(cfg.consumer, s.world, s.events, o);
      if !CD.Succeeded(s.world, s.events, o) {
        CalledBackIsKept(cfg, bases, st, s, o);
      }
    }
  }

  /**
    End to end, in every run of consumers and replayers together: every committed source offset that has a
    handler was handled successfully, or was dead-lettered after all its attempts failed. That dead letter is
    missing only if it could not be encoded or the broker refused it; otherwise it carries the envelope, and
    committed replay has gone past it only after a filter rejected it or its replay succeeded.
    */
  lemma CommittedIsDecided(cfg: Config, st: State, base: nat, acts: seq<Action>, o: nat)
    requires Connected(cfg) && cfg.consumer.maxRetries >= 1
    requires Initial(st, base) && Exec(cfg, st, acts).Some?
    requires base <= o < Exec(cfg, st, acts).value.consumer.committed
    ensures Decided(cfg, Exec(cfg, st, acts).value, o)
  {
    Invariants(cfg, st, base, acts);
    RunIsSafe(cfg, st, base, acts);
    SafeIsDecided(cfg, base, st.replay.committed, Exec(cfg, st, acts).value, o);
  }
}
