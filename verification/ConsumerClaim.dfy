/**
  How a consumer works through one claim (consumer/consumer.go, `ConsumeClaim` and `processMessage`):
  what it does for one message as a sequence of observable events, and the methods that produce it.
  */
module ConsumerClaim {
  import opened GoStrings
  import opened Options
  import opened Envelopes
  import opened DeadLetters
  import opened Sequences
  import opened Sessions

  type HandlerID = nat

  /** Handlers by event type, and the one used when no entry exists. An entry may hold a nil handler. */
  datatype Registry = Registry(handlers: map<GoString, Option<HandlerID>>, wildcard: Option<HandlerID>) {
    function Register(eventType: GoString, handler: Option<HandlerID>): Registry {
      this.(handlers := handlers[eventType := handler])
    }

    function RegisterWildcard(handler: Option<HandlerID>): Registry {
      this.(wildcard := handler)
    }

    function Get(eventType: GoString): Option<HandlerID> {
      if eventType in handlers then handlers[eventType] else wildcard
    }
  }

  /**
    A handler is found for the type it was registered for and for no other; a wildcard for exactly the types
    without a registration; and in a new registry nothing is found.
    */
  lemma RegistryLaws(r: Registry, registered: GoString, handler: Option<HandlerID>, sought: GoString)
    ensures r.Register(registered, handler).Get(sought) == if sought == registered then handler else r.Get(sought)
    ensures r.RegisterWildcard(handler).Get(sought) == if sought in r.handlers then r.Get(sought) else handler
    ensures Registry(map[], None).Get(sought) == None
  {
  }

  /** `dlq` is the callback invoked for exhausted messages, with the codec its handler marshals with. */
  datatype Config = Config(
    decode: GoString -> Option<Envelope>,
    registry: Registry,
    maxRetries: int,
    dlq: Option<Callback>,
    codec: Codec)

  /** How one handler call ends: an ordinary return, or a panic. The handler may change the envelope. */
  datatype HandlerReturn = Returned(err: Option<Error>) | Panicked(reason: GoString)
  datatype HandlerCall = HandlerCall(ret: HandlerReturn, after: Envelope)

  /**
    What the environment does to one session: how attempt `k` at offset `o` ends, and what clock and
    broker answer when the message at offset `o` is dead-lettered. A session meets each offset at most
    once, so ranging over all worlds ranges over all behaviours of stateful handlers and brokers.
    */
  datatype World = World(handler: (nat, nat) -> HandlerCall, answer: nat -> Answer)

  datatype Event =
    | Delivered(offset: nat)
    | Attempted(offset: nat, attempt: nat, handler: HandlerID, env: Envelope, err: Option<Error>)
    | DeadLettered(offset: nat, env: Envelope, cause: Error, delivery: Option<Delivery>)
    | Marked(offset: nat)

  // ---- Specification of one message ----------------------------------------------------------

  datatype Dispatch = Dispatch(handler: HandlerID, env: Envelope)

  /** The handler and envelope for a record value, unless it is undecodable or nobody handles it. */
  function Dispatched(cfg: Config, value: GoString): Option<Dispatch> {
    var env := cfg.decode(value);
    if env.None? then None else
      var handler := cfg.registry.Get(env.value.eventType);
      if handler.None? then None else Some(Dispatch(handler.value, env.value))
  }

  /** What a handler call's end is reported as: nil only for an ordinary nil return, and a panic with its reason. */
  predicate Reports(ret: HandlerReturn, err: Option<Error>) {
    match ret
    case Returned(own) => err == own
    case Panicked(reason) => err == Some(HandlerPanic(reason))
  }

  /** The call returned nil. */
  predicate Succeeds(w: World, o: nat, k: nat) {
    w.handler(o, k).ret == Returned(None)
  }

  /** The error of an attempt after `recover`. */
  function ErrorAt(w: World, o: nat, k: nat): Option<Error> {
    match w.handler(o, k).ret
    case Returned(err) => err
    case Panicked(reason) => Some(HandlerPanic(reason))
  }

  /** The envelope attempt `k` receives: the decoded one, as changed by the attempts before. */
  function EnvelopeAt(w: World, o: nat, env: Envelope, k: nat): Envelope {
    if k <= 1 then env else w.handler(o, k - 1).after
  }

  ghost predicate AllFail(w: World, o: nat, n: int) {
    forall k: nat | 1 <= k <= n :: ErrorAt(w, o, k).Some?
  }

  function AttemptsFrom(w: World, o: nat, k: nat, max: int): (n: nat)
    requires k >= 1 && (max >= 1 ==> k <= max) && AllFail(w, o, k - 1)
    ensures n <= if max < 0 then 0 else max
    ensures max >= 1 ==> n >= k
    ensures AllFail(w, o, n - 1)
    ensures n < max ==> ErrorAt(w, o, n).None?
    decreases max - k
  {
    if max < 1 then 0 else if ErrorAt(w, o, k).None? || k == max then k else AttemptsFrom(w, o, k + 1, max)
  }

  /** The number of attempts: up to the first success, but never more than `max`. */
  function Attempts(w: World, o: nat, max: int): (n: nat)
    ensures n <= if max < 0 then 0 else max
    ensures max >= 1 ==> n >= 1
    ensures AllFail(w, o, n - 1)
    ensures n < max ==> ErrorAt(w, o, n).None?
  {
    AttemptsFrom(w, o, 1, max)
  }

  /** No other number of attempts stops at the first success and stays within `max`. */
  lemma AttemptsUnique(w: World, o: nat, max: int, n: nat)
    requires n <= if max < 0 then 0 else max
    requires max >= 1 ==> n >= 1
    requires AllFail(w, o, n - 1) && (n < max ==> ErrorAt(w, o, n).None?)
    ensures n == Attempts(w, o, max)
  {
  }

  function AttemptEvent(w: World, o: nat, d: Dispatch, k: nat): Event {
    Attempted(o, k, d.handler, EnvelopeAt(w, o, d.env, k), ErrorAt(w, o, k))
  }

  function AttemptEvents(w: World, o: nat, d: Dispatch, n: nat): (es: seq<Event>)
    ensures |es| == n && forall i | 0 <= i < n :: es[i] == AttemptEvent(w, o, d, i + 1)
  {
    if n == 0 then [] else AttemptEvents(w, o, d, n - 1) + [AttemptEvent(w, o, d, n)]
  }

  /** At least one attempt was made, and all of them failed. */
  predicate Exhausted(cfg: Config, w: World, o: nat) {
    var n := Attempts(w, o, cfg.maxRetries);
    n >= 1 && ErrorAt(w, o, n).Some?
  }

  /** The callback's invocation after the last failed attempt: that attempt's error and final envelope. */
  function DeadLetterEvent(cfg: Config, w: World, o: nat, d: Dispatch): Event
    requires Exhausted(cfg, w, o) && cfg.dlq.Some?
  {
    var n := Attempts(w, o, cfg.maxRetries);
    var env, err := EnvelopeAt(w, o, d.env, n + 1), ErrorAt(w, o, n).value;
    var h := Handled(cfg.codec, cfg.dlq.value, Some(env), Some(err), w.answer(o));
    DeadLettered(o, env, err, if h.Sent? then Some(h.delivery) else None)
  }

  /** The attempts, and the dead letter when they are exhausted and a callback is set. */
  function DispatchTrace(cfg: Config, w: World, o: nat, d: Dispatch): seq<Event> {
    AttemptEvents(w, o, d, Attempts(w, o, cfg.maxRetries))
    + if Exhausted(cfg, w, o) && cfg.dlq.Some? then [DeadLetterEvent(cfg, w, o, d)] else []
  }

  /** Everything one session does for the record `value` at offset `o`. */
  function MessageTrace(cfg: Config, w: World, o: nat, value: GoString): (es: seq<Event>)
    ensures |es| >= 2
  {
    var d := Dispatched(cfg, value);
    [Delivered(o)] + (if d.None? then [] else DispatchTrace(cfg, w, o, d.value)) + [Marked(o)]
  }

  // ---- What the events say about handlers and broker -----------------------------------------

  /**
    The event of the message `value` at `o` tells what decoder, registry, handler calls, encoder and broker
    did: attempts are numbered, reach the registered handler with the decoded envelope as the calls before
    left it, come only after failures, and report how the call ended; the callback comes after `maxRetries`
    calls none of which returned nil, with the error and the envelope of the last.
    */
  ghost predicate Truthful(cfg: Config, w: World, o: nat, value: GoString, e: Event) {
    match e
    case Attempted(at, k, handler, env, err) =>
      && at == o && 1 <= k <= cfg.maxRetries
      && cfg.decode(value).Some? && cfg.registry.Get(cfg.decode(value).value.eventType) == Some(handler)
      && env == (if k == 1 then cfg.decode(value).value else w.handler(o, k - 1).after)
      && (forall j: nat | 1 <= j < k :: !Succeeds(w, o, j))
      && Reports(w.handler(o, k).ret, err)
    case DeadLettered(at, env, cause, delivery) =>
      && at == o && cfg.maxRetries >= 1 && cfg.dlq.Some?
      && (forall j: nat | 1 <= j <= cfg.maxRetries :: !Succeeds(w, o, j))
      && env == w.handler(o, cfg.maxRetries).after
      && Reports(w.handler(o, cfg.maxRetries).ret, Some(cause))
      && exists h | HandledAsPromised(h, cfg.codec, cfg.dlq.value, Some(env), Some(cause), w.answer(o)) ::
           delivery == if h.Sent? then Some(h.delivery) else None
    case _ => e.offset == o
  }

  lemma ErrorsReport(w: World, o: nat, k: nat)
    ensures Reports(w.handler(o, k).ret, ErrorAt(w, o, k))
    ensures ErrorAt(w, o, k).None? <==> Succeeds(w, o, k)
  {
  }

  lemma AttemptIsTruthful(cfg: Config, w: World, o: nat, value: GoString, k: nat)
    requires Dispatched(cfg, value).Some? && 1 <= k <= Attempts(w, o, cfg.maxRetries)
    ensures Truthful(cfg, w, o, value, AttemptEvent(w, o, Dispatched(cfg, value).value, k))
  {
    ErrorsReport(w, o, k);
    forall j: nat | 1 <= j < k ensures !Succeeds(w, o, j) {
      ErrorsReport(w, o, j);
    }
  }

  /** Messages are exhausted exactly when an attempt is allowed and no allowed call returns nil. */
  lemma ExhaustedExactly(cfg: Config, w: World, o: nat)
    ensures Exhausted(cfg, w, o)
       <==> cfg.maxRetries >= 1 && forall j: nat | 1 <= j <= cfg.maxRetries :: !Succeeds(w, o, j)
    ensures Exhausted(cfg, w, o) ==> Attempts(w, o, cfg.maxRetries) == cfg.maxRetries
  {
    var n := Attempts(w, o, cfg.maxRetries);
    forall j: nat ensures ErrorAt(w, o, j).None? <==> Succeeds(w, o, j) {
      ErrorsReport(w, o, j);
    }
  }

  lemma DeadLetterIsTruthful(cfg: Config, w: World, o: nat, value: GoString)
    requires Dispatched(cfg, value).Some? && Exhausted(cfg, w, o) && cfg.dlq.Some?
    ensures Truthful(cfg, w, o, value, DeadLetterEvent(cfg, w, o, Dispatched(cfg, value).value))
  {
    var e := DeadLetterEvent(cfg, w, o, Dispatched(cfg, value).value);
    ExhaustedExactly(cfg, w, o);
    ErrorsReport(w, o, cfg.maxRetries);
    HandledExactly(cfg.codec, cfg.dlq.value, Some(e.env), Some(e.cause), w.answer(o));
  }

  lemma MessageIsTruthful(cfg: Config, w: World, o: nat, value: GoString)
    ensures forall e | e in MessageTrace(cfg, w, o, value) :: Truthful(cfg, w, o, value, e)
  {
    var d, n := Dispatched(cfg, value), Attempts(w, o, cfg.maxRetries);
    forall e | e in MessageTrace(cfg, w, o, value) ensures Truthful(cfg, w, o, value, e) {
      if e.Attempted? {
        assert e in AttemptEvents(w, o, d.value, n);
        AttemptIsTruthful(cfg, w, o, value, e.attempt);
      } else if e.DeadLettered? {
        DeadLetterIsTruthful(cfg, w, o, value);
      }
    }
  }

  /** Whether a message is dispatched, from decoder and registry. */
  lemma DispatchedExactly(cfg: Config, value: GoString)
    ensures Dispatched(cfg, value).Some?
       <==> cfg.decode(value).Some? && cfg.registry.Get(cfg.decode(value).value.eventType).Some?
  {
  }

  // ---- Specification of a claim --------------------------------------------------------------

  function ClaimTrace(cfg: Config, w: World, msgs: seq<Incoming>): seq<Event> {
    if msgs == [] then [] else
      var n := |msgs| - 1;
      ClaimTrace(cfg, w, msgs[..n]) + MessageTrace(cfg, w, msgs[n].offset, msgs[n].value)
  }

  function Deliveries(es: seq<Event>): seq<Delivery> {
    if es == [] then [] else
      var e := es[|es| - 1];
      Deliveries(es[..|es| - 1]) + if e.DeadLettered? && e.delivery.Some? then [e.delivery.value] else []
  }

  lemma {:induction false} DeliveriesConcat(a: seq<Event>, b: seq<Event>)
    ensures Deliveries(a + b) == Deliveries(a) + Deliveries(b)
  {
    if b == [] {
      assert a + b == a;
    } else {
      var n := |b| - 1;
      DeliveriesConcat(a, b[..n]);
      assert (a + b)[..|a + b| - 1] == a + b[..n];
    }
  }

  lemma {:induction false} NoDeliveries(es: seq<Event>)
    requires forall e | e in es :: !e.DeadLettered?
    ensures Deliveries(es) == []
  {
    if es != [] {
      NoDeliveries(es[..|es| - 1]);
    }
  }

  /** What the dead letter handler gets accepted for a dispatched message: at most one record. */
  function DispatchDeliveries(cfg: Config, w: World, o: nat, d: Dispatch): seq<Delivery> {
    if Exhausted(cfg, w, o) && cfg.dlq.Some? && DeadLetterEvent(cfg, w, o, d).delivery.Some?
    then [DeadLetterEvent(cfg, w, o, d).delivery.value] else []
  }

  lemma DispatchTraceDeliveries(cfg: Config, w: World, o: nat, d: Dispatch)
    ensures Deliveries(DispatchTrace(cfg, w, o, d)) == DispatchDeliveries(cfg, w, o, d)
  {
    var attempts, middle := AttemptEvents(w, o, d, Attempts(w, o, cfg.maxRetries)), DispatchTrace(cfg, w, o, d);
    NoDeliveries(attempts);
    if Exhausted(cfg, w, o) && cfg.dlq.Some? {
      assert middle[..|middle| - 1] == attempts;
    } else {
      assert middle == attempts;
    }
  }

  /** Only exhausted messages are dead-lettered, and each at most once per session. */
  lemma MessageDeliveries(cfg: Config, w: World, o: nat, value: GoString)
    ensures Deliveries(MessageTrace(cfg, w, o, value)) ==
            if Dispatched(cfg, value).None? then [] else DispatchDeliveries(cfg, w, o, Dispatched(cfg, value).value)
  {
    var d := Dispatched(cfg, value);
    var middle := if d.None? then [] else DispatchTrace(cfg, w, o, d.value);
    if d.Some? {
      DispatchTraceDeliveries(cfg, w, o, d.value);
    }
    NoDeliveries([Delivered(o)]);
    NoDeliveries([Marked(o)]);
    DeliveriesConcat([Delivered(o)], middle);
    DeliveriesConcat([Delivered(o)] + middle, [Marked(o)]);
  }

  /** A broker that refuses gets nothing. */
  lemma RefusedDeliveries(cfg: Config, w: World, o: nat, value: GoString)
    requires w.answer(o).partition.None?
    ensures Deliveries(MessageTrace(cfg, w, o, value)) == []
  {
    MessageDeliveries(cfg, w, o, value);
  }

  /** Events and dead letter log after working on `msgs`. */
  ghost predicate Worked(
      cfg: Config, w: World, msgs: seq<Incoming>,
      events: seq<Event>, log: seq<Delivery>, events': seq<Event>, log': seq<Delivery>) {
    events' == events + ClaimTrace(cfg, w, msgs) && log' == log + Deliveries(ClaimTrace(cfg, w, msgs))
  }

  lemma ClaimStep(cfg: Config, w: World, msgs: seq<Incoming>, i: nat)
    requires i < |msgs|
    ensures ClaimTrace(cfg, w, msgs[..i + 1])
         == ClaimTrace(cfg, w, msgs[..i]) + MessageTrace(cfg, w, msgs[i].offset, msgs[i].value)
  {
    assert msgs[..i + 1][..i] == msgs[..i];
  }

  lemma WorksOn(
      cfg: Config, w: World, msgs: seq<Incoming>, i: nat,
      events: seq<Event>, log: seq<Delivery>, events': seq<Event>, log': seq<Delivery>)
    requires i < |msgs| && Worked(cfg, w, msgs[..i], events, log, events', log')
    ensures var step := MessageTrace(cfg, w, msgs[i].offset, msgs[i].value);
            Worked(cfg, w, msgs[..i + 1], events, log, events' + step, log' + Deliveries(step))
  {
    var before, step := ClaimTrace(cfg, w, msgs[..i]), MessageTrace(cfg, w, msgs[i].offset, msgs[i].value);
    ClaimStep(cfg, w, msgs, i);
    DeliveriesConcat(before, step);
    AppendAssociative(events, before, step);
    AppendAssociative(log, Deliveries(before), Deliveries(step));
  }

  // ---- The methods ---------------------------------------------------------------------------

  class ConsumerGroupHandler {
    const cfg: Config
    const world: World
    const dlq: Handler

    constructor (cfg: Config, world: World, dlq: Handler)
      requires dlq.codec == cfg.codec
      ensures this.cfg == cfg && this.world == world && this.dlq == dlq
    {
      this.cfg, this.world, this.dlq := cfg, world, dlq;
    }

    /** One attempt, with the panic of a handler turned into an error. */
    method InvokeHandler(session: ClaimSession<Event>, o: nat, k: nat, handler: HandlerID, env: Envelope)
      returns (err: Option<Error>, after: Envelope)
      modifies session`events
      ensures err.None? <==> world.handler(o, k).ret == Returned(None)
      ensures Reports(world.handler(o, k).ret, err)
      ensures err == ErrorAt(world, o, k) && after == world.handler(o, k).after
      ensures session.events == old(session.events) + [Attempted(o, k, handler, env, err)]
    {
      var call := world.handler(o, k);
      after := call.after;
      match call.ret {
        case Returned(e) => err := e;
        case Panicked(reason) => err := Some(HandlerPanic(reason));
      }
      session.Record(Attempted(o, k, handler, env, err));
    }

    method ProcessMessage(session: ClaimSession<Event>, msg: Incoming)
      requires dlq.codec == cfg.codec && session as object != dlq.producer
      modifies session, dlq.producer
      ensures session.events == old(session.events) + MessageTrace(cfg, world, msg.offset, msg.value)
      ensures session.frontier == Max(old(session.frontier), msg.offset + 1)
      ensures dlq.producer.log == old(dlq.producer.log) + Deliveries(MessageTrace(cfg, world, msg.offset, msg.value))
    {
      MessageDeliveries(cfg, world, msg.offset, msg.value);
      ghost var events, dispatched := session.events, Dispatched(cfg, msg.value);
      ghost var middle := if dispatched.None? then [] else DispatchTrace(cfg, world, msg.offset, dispatched.value);
      AppendThree(events, [Delivered(msg.offset)], middle, [Marked(msg.offset)]);
      AppendEmpty(events + [Delivered(msg.offset)]);
      session.Record(Delivered(msg.offset));
      var decoded := cfg.decode(msg.value);
      if decoded.None? {
        session.MarkMessage(msg.offset, Marked(msg.offset));
        return;
      }
      var handler := cfg.registry.Get(decoded.value.eventType);
      if handler.None? {
        session.MarkMessage(msg.offset, Marked(msg.offset));
        return;
      }
      var d := Dispatch(handler.value, decoded.value);
      Process(session, msg.offset, d);
      session.MarkMessage(msg.offset, Marked(msg.offset));
    }

    /** Processing with retries, up to the dead letter. */
    method Process(session: ClaimSession<Event>, o: nat, d: Dispatch)
      requires dlq.codec == cfg.codec && session as object != dlq.producer
      modifies session`events, dlq.producer
      ensures session.events == old(session.events) + DispatchTrace(cfg, world, o, d)
      ensures dlq.producer.log == old(dlq.producer.log)
                + DispatchDeliveries(cfg, world, o, d)
    {
      var env, lastErr := Retry(session, o, d);
      if lastErr.Some? {
        if cfg.dlq.Some? {
          var failure := dlq.Handle(cfg.dlq.value, Some(env), lastErr, world.answer(o));
          var log := dlq.producer.log;
          session.Record(DeadLettered(o, env, lastErr.value, if failure.None? then Some(log[|log| - 1]) else None));
        }
      }
    }

    /** The retry loop of `processMessage`: the envelope and the error it is left with. */
    method Retry(session: ClaimSession<Event>, o: nat, d: Dispatch) returns (env: Envelope, lastErr: Option<Error>)
      modifies session`events
      ensures var n := Attempts(world, o, cfg.maxRetries);
              && session.events == old(session.events) + AttemptEvents(world, o, d, n)
              && env == EnvelopeAt(world, o, d.env, n + 1)
              && lastErr == if n == 0 then None else ErrorAt(world, o, n)
    {
      env, lastErr := d.env, None;
      var attempt := 1;
      while attempt <= cfg.maxRetries
        invariant 1 <= attempt && (attempt > 1 ==> attempt <= cfg.maxRetries + 1)
        invariant AllFail(world, o, attempt - 1)
        invariant lastErr == if attempt == 1 then None else ErrorAt(world, o, attempt - 1)
        invariant env == EnvelopeAt(world, o, d.env, attempt)
        invariant session.events == old(session.events) + AttemptEvents(world, o, d, attempt - 1)
      {
        lastErr, env := InvokeHandler(session, o, attempt, d.handler, env);
        if lastErr.None? {
          AttemptsUnique(world, o, cfg.maxRetries, attempt);
          return;
        }
        attempt := attempt + 1;
      }
      AttemptsUnique(world, o, cfg.maxRetries, attempt - 1);
    }

    /** Every message of the claim is processed and marked, in order; the claim never ends in an error. */
    method ConsumeClaim(session: ClaimSession<Event>, msgs: seq<Incoming>)
      requires dlq.codec == cfg.codec && session as object != dlq.producer
      modifies session, dlq.producer
      ensures session.events == old(session.events) + ClaimTrace(cfg, world, msgs)
      ensures dlq.producer.log == old(dlq.producer.log) + Deliveries(ClaimTrace(cfg, world, msgs))
      ensures session.frontier == FrontierAfter(old(session.frontier), msgs)
    {
      ghost var events, log, start := session.events, dlq.producer.log, session.frontier;
      for i := 0 to |msgs|
        invariant Worked(cfg, world, msgs[..i], events, log, session.events, dlq.producer.log)
        invariant session.frontier == FrontierAfter(start, msgs[..i])
      {
        WorksOn(cfg, world, msgs, i, events, log, session.events, dlq.producer.log);
        FrontierMoves(start, msgs, i);
        ProcessMessage(session, msgs[i]);
      }
      assert msgs[..|msgs|] == msgs;
    }
  }
}
