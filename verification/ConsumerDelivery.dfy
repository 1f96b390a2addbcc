/**
  At-least-once consumption of one partition. Any number of sessions run `ConsumeClaim` at the same
  time, each from the offset that was committed when it joined; their events interleave one by one.
  A session may crash between any two events, and any frontier it has marked so far may be committed at
  any time, even a stale one and even after the crash.
  */
module ConsumerDelivery {
  import opened GoStrings
  import opened Options
  import opened Sequences
  import opened Sessions
  import opened ConsumerClaim
  import DeadLetters

  /** A session is at event `idx` of the message at offset `pos`. */
  datatype Session = Session(
    world: World, start: nat, pos: nat, idx: nat, frontier: nat, events: seq<Event>, live: bool)

  datatype State = State(log: seq<GoString>, committed: nat, sessions: seq<Session>)

  datatype Action =
    | Append(value: GoString)
    | Open(world: World)
    | Step(session: nat)
    | Crash(session: nat)
    | Commit(session: nat, frontier: nat)

  function Current(cfg: Config, log: seq<GoString>, s: Session): seq<Event>
    requires s.pos < |log|
  {
    MessageTrace(cfg, s.world, s.pos, log[s.pos])
  }

  ghost predicate Enabled(cfg: Config, st: State, a: Action) {
    match a
    case Append(_) => true
    case Open(_) => st.committed <= |st.log|
    case Step(i) =>
      i < |st.sessions| && st.sessions[i].live && st.sessions[i].pos < |st.log|
      && st.sessions[i].idx < |Current(cfg, st.log, st.sessions[i])|
    case Crash(i) => i < |st.sessions|
    case Commit(i, f) => i < |st.sessions| && st.sessions[i].start <= f <= st.sessions[i].frontier
  }

  /** One event of a session: its effect on the session itself. */
  function Advance(cfg: Config, log: seq<GoString>, s: Session): Session
    requires s.pos < |log| && s.idx < |Current(cfg, log, s)|
  {
    var e := Current(cfg, log, s)[s.idx];
    var s' := s.(events := s.events + [e], frontier := if e.Marked? then Max(s.frontier, e.offset + 1) else s.frontier);
    if s.idx + 1 == |Current(cfg, log, s)| then s'.(pos := s.pos + 1, idx := 0) else s'.(idx := s.idx + 1)
  }

  ghost function Next(cfg: Config, st: State, a: Action): State
    requires Enabled(cfg, st, a)
  {
    match a
    case Append(v) => st.(log := st.log + [v])
    case Open(w) => st.(sessions := st.sessions + [Session(w, st.committed, st.committed, 0, st.committed, [], true)])
    case Step(i) => st.(sessions := st.sessions[i := Advance(cfg, st.log, st.sessions[i])])
    case Crash(i) => st.(sessions := st.sessions[i := st.sessions[i].(live := false)])
    case Commit(_, f) => st.(committed := f)
  }

  /** The partition before any session: `base` is where a first session starts. */
  function Init(log: seq<GoString>, base: nat): State {
    State(log, base, [])
  }

  ghost function Exec(cfg: Config, st: State, acts: seq<Action>): Option<State> {
    if acts == [] then Some(st) else
      var n := |acts| - 1;
      var mid := Exec(cfg, st, acts[..n]);
      if mid.Some? && Enabled(cfg, mid.value, acts[n]) then Some(Next(cfg, mid.value, acts[n])) else None
  }

  /** What holds of a claim's trace and is kept by each further message holds of every longer trace. */
  lemma ClaimInduction(cfg: Config, w: World, log: seq<GoString>, lo: nat, mid: nat, hi: nat, q: seq<Event> -> bool)
    requires lo <= mid <= hi <= |log| && q(ClaimTrace(cfg, w, Incomings(log, lo, mid)))
    requires forall n | mid <= n < hi && q(ClaimTrace(cfg, w, Incomings(log, lo, n))) ::
               q(ClaimTrace(cfg, w, Incomings(log, lo, n + 1)))
    ensures q(ClaimTrace(cfg, w, Incomings(log, lo, hi)))
  {
    GrowthInduction((n: nat) requires lo <= n <= |log| => ClaimTrace(cfg, w, Incomings(log, lo, n)), mid, hi, q);
  }

  // ---- Each session does what the code does --------------------------------------------------

  /** What the session has done of the message it is working on. */
  function Partial(cfg: Config, log: seq<GoString>, s: Session): seq<Event>
    requires s.pos < |log| ==> s.idx <= |Current(cfg, log, s)|
  {
    if s.pos < |log| then Current(cfg, log, s)[..s.idx] else []
  }

  ghost predicate SessionInv(cfg: Config, log: seq<GoString>, s: Session) {
    && s.start <= s.pos <= |log| && s.frontier == s.pos
    && (if s.pos < |log| then s.idx < |Current(cfg, log, s)| else s.idx == 0)
    && s.events == ClaimTrace(cfg, s.world, Incomings(log, s.start, s.pos)) + Partial(cfg, log, s)
  }

  ghost predicate Inv(cfg: Config, base: nat, st: State) {
    && base <= st.committed <= |st.log|
    && forall s | s in st.sessions :: base <= s.start && SessionInv(cfg, st.log, s)
  }

  /** The one mark of a message is its last event. */
  lemma MarkIsLast(cfg: Config, w: World, o: nat, value: GoString)
    ensures var t := MessageTrace(cfg, w, o, value);
            t[|t| - 1] == Marked(o) && forall i | 0 <= i < |t| - 1 :: !t[i].Marked?
  {
  }

  lemma ClaimGrows(cfg: Config, log: seq<GoString>, w: World, lo: nat, hi: nat)
    requires lo <= hi < |log|
    ensures ClaimTrace(cfg, w, Incomings(log, lo, hi + 1))
         == ClaimTrace(cfg, w, Incomings(log, lo, hi)) + MessageTrace(cfg, w, hi, log[hi])
  {
    var msgs := Incomings(log, lo, hi + 1);
    assert msgs[..|msgs| - 1] == Incomings(log, lo, hi);
  }

  lemma FinishedEvents(cfg: Config, log: seq<GoString>, s: Session)
    requires SessionInv(cfg, log, s) && s.pos < |log| && s.idx + 1 == |Current(cfg, log, s)|
    ensures s.events + [Current(cfg, log, s)[s.idx]] == ClaimTrace(cfg, s.world, Incomings(log, s.start, s.pos + 1))
  {
    var before, t := ClaimTrace(cfg, s.world, Incomings(log, s.start, s.pos)), Current(cfg, log, s);
    AppendNext(before, t, s.idx, s.events);
    ClaimGrows(cfg, log, s.world, s.start, s.pos);
  }

  lemma AdvancePastMessage(cfg: Config, log: seq<GoString>, s: Session)
    requires SessionInv(cfg, log, s) && s.pos < |log| && s.idx + 1 == |Current(cfg, log, s)|
    requires Current(cfg, log, s)[s.idx] == Marked(s.pos)
    ensures SessionInv(cfg, log, Advance(cfg, log, s))
  {
    var done := s.events + [Marked(s.pos)];
    var s' := s.(events := done, frontier := s.pos + 1, pos := s.pos + 1, idx := 0);
    assert Advance(cfg, log, s) == s';
    FinishedEvents(cfg, log, s);
    assert Partial(cfg, log, s') == [];
    AppendEmpty(done);
  }

  lemma AdvanceWithinMessage(cfg: Config, log: seq<GoString>, s: Session)
    requires SessionInv(cfg, log, s) && s.pos < |log| && s.idx + 1 < |Current(cfg, log, s)|
    requires !Current(cfg, log, s)[s.idx].Marked?
    ensures SessionInv(cfg, log, Advance(cfg, log, s))
  {
    AppendNext(ClaimTrace(cfg, s.world, Incomings(log, s.start, s.pos)), Current(cfg, log, s), s.idx, s.events);
  }

  lemma AdvanceKeepsInv(cfg: Config, log: seq<GoString>, s: Session)
    requires SessionInv(cfg, log, s) && s.pos < |log|
    ensures SessionInv(cfg, log, Advance(cfg, log, s))
    ensures Advance(cfg, log, s).events == s.events + [Current(cfg, log, s)[s.idx]]
  {
    MarkIsLast(cfg, s.world, s.pos, log[s.pos]);
    if s.idx + 1 == |Current(cfg, log, s)| {
      AdvancePastMessage(cfg, log, s);
    } else {
      AdvanceWithinMessage(cfg, log, s);
    }
  }

  lemma EventKeepsInv(cfg: Config, base: nat, st: State, i: nat)
    requires Inv(cfg, base, st) && Enabled(cfg, st, Step(i))
    ensures Inv(cfg, base, Next(cfg, st, Step(i)))
  {
    var s' := Advance(cfg, st.log, st.sessions[i]);
    assert st.sessions[i] in st.sessions;
    AdvanceKeepsInv(cfg, st.log, st.sessions[i]);
    forall s | s in st.sessions[i := s'] ensures base <= s.start && SessionInv(cfg, st.log, s) {
      assert s in st.sessions || s == s';
    }
  }

  lemma StepKeepsInv(cfg: Config, base: nat, st: State, a: Action)
    requires Inv(cfg, base, st) && Enabled(cfg, st, a)
    ensures Inv(cfg, base, Next(cfg, st, a))
  {
    match a
    case Append(v) =>
      forall s | s in st.sessions ensures SessionInv(cfg, st.log + [v], s) {
        IncomingsExtend(st.log, v, s.start, s.pos);
      }
    case Open(w) =>
    case Step(i) => EventKeepsInv(cfg, base, st, i);
    case Crash(i) =>
    case Commit(i, _) => assert st.sessions[i] in st.sessions;
  }

  lemma {:induction false} RunKeepsInv(cfg: Config, log: seq<GoString>, base: nat, acts: seq<Action>)
    requires base <= |log| && Exec(cfg, Init(log, base), acts).Some?
    ensures Inv(cfg, base, Exec(cfg, Init(log, base), acts).value)
  {
    if acts != [] {
      var n := |acts| - 1;
      RunKeepsInv(cfg, log, base, acts[..n]);
      StepKeepsInv(cfg, base, Exec(cfg, Init(log, base), acts[..n]).value, acts[n]);
    }
  }

  /** What `ConsumeClaim` does from the session's start up to and including the message it is working on. */
  function CodeTrace(cfg: Config, log: seq<GoString>, s: Session): seq<Event>
    requires s.start <= s.pos <= |log|
  {
    if s.pos == |log| then ClaimTrace(cfg, s.world, Incomings(log, s.start, s.pos))
    else ClaimTrace(cfg, s.world, Incomings(log, s.start, s.pos + 1))
  }

  lemma SessionIsPrefix(cfg: Config, log: seq<GoString>, s: Session)
    requires SessionInv(cfg, log, s)
    ensures s.events <= CodeTrace(cfg, log, s)
  {
    var done := ClaimTrace(cfg, s.world, Incomings(log, s.start, s.pos));
    if s.pos < |log| {
      ClaimGrows(cfg, log, s.world, s.start, s.pos);
      PrefixConcat(done, Current(cfg, log, s), s.idx);
    } else {
      AppendEmpty(done);
    }
  }

  /**
    In every run each session's events are, so far, those `ConsumeClaim` produces on the log from the
    session's start, in that order: all attempts for a message, its dead letter and its mark come before
    the next message.
    */
  lemma SessionsRunTheCode(cfg: Config, log: seq<GoString>, base: nat, acts: seq<Action>)
    requires base <= |log| && Exec(cfg, Init(log, base), acts).Some?
    ensures var st := Exec(cfg, Init(log, base), acts).value;
            forall s | s in st.sessions :: s.start <= s.pos <= |st.log| && s.events <= CodeTrace(cfg, st.log, s)
  {
    RunKeepsInv(cfg, log, base, acts);
    var st := Exec(cfg, Init(log, base), acts).value;
    forall s | s in st.sessions ensures s.start <= s.pos <= |st.log| && s.events <= CodeTrace(cfg, st.log, s) {
      SessionIsPrefix(cfg, st.log, s);
    }
  }

  // ---- At-least-once -------------------------------------------------------------------------

  /** A handler call for `o` was made and returned nil. */
  ghost predicate Succeeded(w: World, es: seq<Event>, o: nat) {
    exists e | e in es :: e.Attempted? && e.offset == o && Succeeds(w, o, e.attempt)
  }

  /** The handler call numbered `k` for `o` was made and did not return nil. */
  ghost predicate FailedAt(w: World, es: seq<Event>, o: nat, k: nat) {
    !Succeeds(w, o, k) && exists e | e in es :: e.Attempted? && e.offset == o && e.attempt == k
  }

  ghost predicate CallbackReturned(es: seq<Event>, o: nat) {
    exists e | e in es :: e.DeadLettered? && e.offset == o
  }

  /** A handler call succeeded, or every allowed attempt failed and the callback, if any, returned. */
  ghost predicate Settles(cfg: Config, w: World, es: seq<Event>, o: nat) {
    || Succeeded(w, es, o)
    || (&& cfg.maxRetries >= 1 && (forall k: nat | 1 <= k <= cfg.maxRetries :: FailedAt(w, es, o, k))
        && (cfg.dlq.Some? ==> CallbackReturned(es, o)))
  }

  /** Nobody could handle the message at `o`, or some session settled it. */
  ghost predicate Resolved(cfg: Config, st: State, o: nat) {
    && o < |st.log|
    && (Dispatched(cfg, st.log[o]).None? || exists s | s in st.sessions :: Settles(cfg, s.world, s.events, o))
  }

  ghost predicate AtLeastOnce(cfg: Config, base: nat, st: State) {
    forall o | base <= o < st.committed :: Resolved(cfg, st, o)
  }

  lemma SettlesMonotone(cfg: Config, w: World, a: seq<Event>, b: seq<Event>, o: nat)
    requires Settles(cfg, w, a, o) && forall e | e in a :: e in b
    ensures Settles(cfg, w, b, o)
  {
    if !Succeeded(w, a, o) {
      forall k: nat | 1 <= k <= cfg.maxRetries ensures FailedAt(w, b, o, k) {
        assert FailedAt(w, a, o, k);
      }
    }
  }

  lemma SettlesConcat(cfg: Config, w: World, a: seq<Event>, b: seq<Event>, o: nat)
    requires Settles(cfg, w, a, o) || Settles(cfg, w, b, o)
    ensures Settles(cfg, w, a + b, o)
  {
    SettlesMonotone(cfg, w, if Settles(cfg, w, a, o) then a else b, a + b, o);
  }

  lemma AttemptInTrace(cfg: Config, w: World, o: nat, value: GoString, k: nat)
    requires Dispatched(cfg, value).Some? && 1 <= k <= Attempts(w, o, cfg.maxRetries)
    ensures AttemptEvent(w, o, Dispatched(cfg, value).value, k) in MessageTrace(cfg, w, o, value)
  {
    var d, n := Dispatched(cfg, value).value, Attempts(w, o, cfg.maxRetries);
    assert MessageTrace(cfg, w, o, value)[k] == AttemptEvents(w, o, d, n)[k - 1];
  }

  predicate CallsBack(cfg: Config, w: World, o: nat, value: GoString) {
    Dispatched(cfg, value).Some? && Exhausted(cfg, w, o) && cfg.dlq.Some?
  }

  lemma CallbackInTrace(cfg: Config, w: World, o: nat, value: GoString)
    requires CallsBack(cfg, w, o, value)
    ensures DeadLetterEvent(cfg, w, o, Dispatched(cfg, value).value) in MessageTrace(cfg, w, o, value)
  {
    var t, n := MessageTrace(cfg, w, o, value), Attempts(w, o, cfg.maxRetries);
    assert t[n + 1] == DeadLetterEvent(cfg, w, o, Dispatched(cfg, value).value);
  }

  /** What one session does with a message settles it, as long as at least one attempt is allowed. */
  lemma MessageSettles(cfg: Config, w: World, o: nat, value: GoString)
    requires cfg.maxRetries >= 1 && Dispatched(cfg, value).Some?
    ensures Settles(cfg, w, MessageTrace(cfg, w, o, value), o)
  {
    var n, t := Attempts(w, o, cfg.maxRetries), MessageTrace(cfg, w, o, value);
    ExhaustedExactly(cfg, w, o);
    if Exhausted(cfg, w, o) {
      forall k: nat | 1 <= k <= cfg.maxRetries ensures FailedAt(w, t, o, k) {
        AttemptInTrace(cfg, w, o, value, k);
      }
      if cfg.dlq.Some? {
        CallbackInTrace(cfg, w, o, value);
      }
    } else {
      AttemptInTrace(cfg, w, o, value, n);
      ErrorsReport(w, o, n);
    }
  }

  lemma GrowthSettles(cfg: Config, w: World, log: seq<GoString>, lo: nat, hi: nat, o: nat)
    requires lo <= hi < |log|
    requires Settles(cfg, w, ClaimTrace(cfg, w, Incomings(log, lo, hi)), o)
           || Settles(cfg, w, MessageTrace(cfg, w, hi, log[hi]), o)
    ensures Settles(cfg, w, ClaimTrace(cfg, w, Incomings(log, lo, hi + 1)), o)
  {
    ClaimGrows(cfg, log, w, lo, hi);
    SettlesConcat(cfg, w, ClaimTrace(cfg, w, Incomings(log, lo, hi)), MessageTrace(cfg, w, hi, log[hi]), o);
  }

  lemma ClaimSettles(cfg: Config, w: World, log: seq<GoString>, lo: nat, hi: nat, o: nat)
    requires lo <= o < hi <= |log| && cfg.maxRetries >= 1 && Dispatched(cfg, log[o]).Some?
    ensures Settles(cfg, w, ClaimTrace(cfg, w, Incomings(log, lo, hi)), o)
  {
    MessageSettles(cfg, w, o, log[o]);
    GrowthSettles(cfg, w, log, lo, o, o);
    forall n | o + 1 <= n < hi && Settles(cfg, w, ClaimTrace(cfg, w, Incomings(log, lo, n)), o)
      ensures Settles(cfg, w, ClaimTrace(cfg, w, Incomings(log, lo, n + 1)), o)
    {
      GrowthSettles(cfg, w, log, lo, n, o);
    }
    ClaimInduction(cfg, w, log, lo, o + 1, hi, es => Settles(cfg, w, es, o));
  }

  lemma SessionSettles(cfg: Config, log: seq<GoString>, s: Session, o: nat)
    requires SessionInv(cfg, log, s) && s.start <= o < s.pos
    requires cfg.maxRetries >= 1 && Dispatched(cfg, log[o]).Some?
    ensures Settles(cfg, s.world, s.events, o)
  {
    ClaimSettles(cfg, s.world, log, s.start, s.pos, o);
    SettlesConcat(cfg, s.world, ClaimTrace(cfg, s.world, Incomings(log, s.start, s.pos)), Partial(cfg, log, s), o);
  }

  /** Every offset below any session's frontier, or below the committed offset, is resolved. */
  ghost predicate SafeInv(cfg: Config, base: nat, st: State) {
    && Inv(cfg, base, st)
    && AtLeastOnce(cfg, base, st)
    && forall s, o: nat | s in st.sessions && base <= o < s.start :: Resolved(cfg, st, o)
  }

  lemma ResolvedPersists(cfg: Config, st: State, a: Action, o: nat)
    requires Resolved(cfg, st, o) && Enabled(cfg, st, a)
    ensures Resolved(cfg, Next(cfg, st, a), o)
  {
    var st' := Next(cfg, st, a);
    if Dispatched(cfg, st.log[o]).Some? {
      var i :| 0 <= i < |st.sessions| && Settles(cfg, st.sessions[i].world, st.sessions[i].events, o);
      SettlesMonotone(cfg, st.sessions[i].world, st.sessions[i].events, st'.sessions[i].events, o);
      assert st'.sessions[i] in st'.sessions;
    }
  }

  lemma StepKeepsSafe(cfg: Config, base: nat, st: State, a: Action)
    requires cfg.maxRetries >= 1 && SafeInv(cfg, base, st) && Enabled(cfg, st, a)
    ensures SafeInv(cfg, base, Next(cfg, st, a))
  {
    var st' := Next(cfg, st, a);
    StepKeepsInv(cfg, base, st, a);
    forall o | base <= o < st'.committed ensures Resolved(cfg, st', o) {
      if a.Commit? && Dispatched(cfg, st.log[o]).Some? && st.sessions[a.session].start <= o {
        assert st.sessions[a.session] in st.sessions;
        SessionSettles(cfg, st.log, st.sessions[a.session], o);
      } else {
        assert Resolved(cfg, st, o);
        ResolvedPersists(cfg, st, a, o);
      }
    }
    forall s, o: nat | s in st'.sessions && base <= o < s.start ensures Resolved(cfg, st', o) {
      assert Resolved(cfg, st, o);
      ResolvedPersists(cfg, st, a, o);
    }
  }

  lemma {:induction false} RunIsSafe(cfg: Config, log: seq<GoString>, base: nat, acts: seq<Action>)
    requires cfg.maxRetries >= 1 && base <= |log| && Exec(cfg, Init(log, base), acts).Some?
    ensures SafeInv(cfg, base, Exec(cfg, Init(log, base), acts).value)
  {
    if acts != [] {
      var n := |acts| - 1;
      RunIsSafe(cfg, log, base, acts[..n]);
      StepKeepsSafe(cfg, base, Exec(cfg, Init(log, base), acts[..n]).value, acts[n]);
    }
  }

  lemma Extend(cfg: Config, acts: seq<Action>, st: State, a: Action, next: State) returns (more: seq<Action>)
    requires Exec(cfg, Init([], 0), acts) == Some(st) && Enabled(cfg, st, a) && Next(cfg, st, a) == next
    ensures Exec(cfg, Init([], 0), more) == Some(next)
  {
    more := acts + [a];
    assert more[..|acts|] == acts;
  }

  lemma AdvanceUnattempted(cfg: Config, w: World, value: GoString)
    requires cfg.maxRetries <= 0
    ensures MessageTrace(cfg, w, 0, value) == [Delivered(0), Marked(0)]
    ensures Advance(cfg, [value], Session(w, 0, 0, 0, 0, [], true)) == Session(w, 0, 0, 1, 0, [Delivered(0)], true)
    ensures Advance(cfg, [value], Session(w, 0, 0, 1, 0, [Delivered(0)], true))
         == Session(w, 0, 1, 0, 1, [Delivered(0), Marked(0)], true)
  {
    assert MessageTrace(cfg, w, 0, value) == [Delivered(0), Marked(0)];
  }

  /** With no attempt allowed, a message that a handler is registered for is marked without any call. */
  lemma UnattemptedRun(cfg: Config, value: GoString) returns (acts: seq<Action>)
    requires cfg.maxRetries <= 0 && Dispatched(cfg, value).Some?
    ensures Exec(cfg, Init([], 0), acts).Some?
    ensures !AtLeastOnce(cfg, 0, Exec(cfg, Init([], 0), acts).value)
  {
    var env := Dispatched(cfg, value).value.env;
    var w := World((o, k) => HandlerCall(Returned(None), env), o => DeadLetters.Answer(0, None));
    AdvanceUnattempted(cfg, w, value);
    var s0 := State([value], 0, []);
    var s1 := s0.(sessions := [Session(w, 0, 0, 0, 0, [], true)]);
    var s2 := s0.(sessions := [Session(w, 0, 0, 1, 0, [Delivered(0)], true)]);
    var s3 := s0.(sessions := [Session(w, 0, 1, 0, 1, [Delivered(0), Marked(0)], true)]);
    acts := Extend(cfg, [], Init([], 0), Append(value), s0);
    acts := Extend(cfg, acts, s0, Open(w), s1);
    assert Next(cfg, s1, Step(0)).sessions == s2.sessions;
    acts := Extend(cfg, acts, s1, Step(0), s2);
    assert Next(cfg, s2, Step(0)).sessions == s3.sessions;
    acts := Extend(cfg, acts, s2, Step(0), s3);
    acts := Extend(cfg, acts, s3, Commit(0, 1), s3.(committed := 1));
    assert !Settles(cfg, w, [Delivered(0), Marked(0)], 0);
    assert !Resolved(cfg, s3.(committed := 1), 0);
  }

  /** With nothing to dispatch, whatever is committed needed no handler. */
  lemma {:induction false} NothingToDispatch(cfg: Config, log: seq<GoString>, base: nat, acts: seq<Action>)
    requires (forall v: GoString :: Dispatched(cfg, v).None?) && base <= |log| && Exec(cfg, Init(log, base), acts).Some?
    ensures AtLeastOnce(cfg, base, Exec(cfg, Init(log, base), acts).value)
  {
    RunKeepsInv(cfg, log, base, acts);
  }

  /**
    At-least-once consumption, exactly: in every run, every offset below the committed one has been
    resolved, if and only if at least one attempt is allowed or no record can reach a handler.
    */
  lemma AtLeastOnceExactly(cfg: Config)
    ensures (forall log, base: nat, acts | base <= |log| && Exec(cfg, Init(log, base), acts).Some? ::
               AtLeastOnce(cfg, base, Exec(cfg, Init(log, base), acts).value))
            <==> cfg.maxRetries >= 1 || forall v: GoString :: Dispatched(cfg, v).None?
  {
    forall log, base: nat, acts | base <= |log| && Exec(cfg, Init(log, base), acts).Some?
      ensures cfg.maxRetries >= 1 || (forall v: GoString :: Dispatched(cfg, v).None?)
              ==> AtLeastOnce(cfg, base, Exec(cfg, Init(log, base), acts).value)
    {
      if cfg.maxRetries >= 1 {
        RunIsSafe(cfg, log, base, acts);
      } else if forall v: GoString :: Dispatched(cfg, v).None? {
        NothingToDispatch(cfg, log, base, acts);
      }
    }
    if cfg.maxRetries < 1 && exists v: GoString :: Dispatched(cfg, v).Some? {
      var v: GoString :| Dispatched(cfg, v).Some?;
      var acts := UnattemptedRun(cfg, v);
      assert Exec(cfg, Init([], 0), acts).Some?;
    }
  }

  // ---- How often handlers and the dead letter callback run -----------------------------------

  function DeliveryAt(o: nat): Event -> bool {
    (e: Event) => e.Delivered? && e.offset == o
  }

  function AttemptAt(o: nat): Event -> bool {
    (e: Event) => e.Attempted? && e.offset == o
  }

  function CallbackAt(o: nat): Event -> bool {
    (e: Event) => e.DeadLettered? && e.offset == o
  }

  function Occurrences(p: Event -> bool): Session -> int {
    (s: Session) => Count(s.events, p)
  }

  function Limit(cfg: Config): nat {
    if cfg.maxRetries < 0 then 0 else cfg.maxRetries
  }

  /** Attempts and callbacks at `o` stay within the deliveries at `o`. */
  ghost predicate WithinDeliveries(cfg: Config, es: seq<Event>, o: nat) {
    && Count(es, AttemptAt(o)) <= Limit(cfg) * Count(es, DeliveryAt(o))
    && Count(es, CallbackAt(o)) <= Count(es, DeliveryAt(o))
  }

  lemma Distribute(m: int, a: int, b: int)
    ensures m * (a + b) == m * a + m * b
  {
  }

  lemma WithinConcat(cfg: Config, a: seq<Event>, b: seq<Event>, o: nat)
    requires WithinDeliveries(cfg, a, o) && WithinDeliveries(cfg, b, o)
    ensures WithinDeliveries(cfg, a + b, o)
  {
    CountConcat(a, b, AttemptAt(o));
    CountConcat(a, b, DeliveryAt(o));
    CountConcat(a, b, CallbackAt(o));
    Distribute(Limit(cfg), Count(a, DeliveryAt(o)), Count(b, DeliveryAt(o)));
  }

  /** Where a message's delivery, attempts and callback stand in its trace. */
  lemma MessageLayout(cfg: Config, w: World, o: nat, value: GoString)
    ensures var t, n := MessageTrace(cfg, w, o, value), Attempts(w, o, cfg.maxRetries);
            && t[0] == Delivered(o)
            && forall i | 0 <= i < |t| :: (AttemptAt(o)(t[i]) ==> 1 <= i <= n) && (CallbackAt(o)(t[i]) ==> i == n + 1)
  {
  }

  lemma ScaleOne(m: nat, k: nat)
    requires k >= 1
    ensures m <= m * k
  {
  }

  lemma PrefixWithin(cfg: Config, w: World, o: nat, value: GoString, i: nat, at: nat)
    requires i <= |MessageTrace(cfg, w, o, value)|
    ensures WithinDeliveries(cfg, MessageTrace(cfg, w, o, value)[..i], at)
  {
    var t := MessageTrace(cfg, w, o, value)[..i];
    if i == 0 || at != o {
      CountZero(t, AttemptAt(at));
      CountZero(t, CallbackAt(at));
    } else {
      var n := Attempts(w, o, cfg.maxRetries);
      MessageLayout(cfg, w, o, value);
      CountPositive(t, DeliveryAt(at), 0);
      CountWithin(t, AttemptAt(at), 1, n + 1);
      CountWithin(t, CallbackAt(at), n + 1, n + 2);
      ScaleOne(Limit(cfg), Count(t, DeliveryAt(at)));
    }
  }

  lemma GrowthWithin(cfg: Config, w: World, log: seq<GoString>, lo: nat, hi: nat, at: nat)
    requires lo <= hi < |log| && WithinDeliveries(cfg, ClaimTrace(cfg, w, Incomings(log, lo, hi)), at)
    ensures WithinDeliveries(cfg, ClaimTrace(cfg, w, Incomings(log, lo, hi + 1)), at)
  {
    var t := MessageTrace(cfg, w, hi, log[hi]);
    PrefixWithin(cfg, w, hi, log[hi], |t|, at);
    assert t[..|t|] == t;
    ClaimGrows(cfg, log, w, lo, hi);
    WithinConcat(cfg, ClaimTrace(cfg, w, Incomings(log, lo, hi)), t, at);
  }

  lemma ClaimWithin(cfg: Config, w: World, log: seq<GoString>, lo: nat, hi: nat, at: nat)
    requires lo <= hi <= |log|
    ensures WithinDeliveries(cfg, ClaimTrace(cfg, w, Incomings(log, lo, hi)), at)
  {
    forall n | lo <= n < hi && WithinDeliveries(cfg, ClaimTrace(cfg, w, Incomings(log, lo, n)), at)
      ensures WithinDeliveries(cfg, ClaimTrace(cfg, w, Incomings(log, lo, n + 1)), at)
    {
      GrowthWithin(cfg, w, log, lo, n, at);
    }
    ClaimInduction(cfg, w, log, lo, lo, hi, es => WithinDeliveries(cfg, es, at));
  }

  lemma SessionWithin(cfg: Config, log: seq<GoString>, s: Session, at: nat)
    requires SessionInv(cfg, log, s)
    ensures WithinDeliveries(cfg, s.events, at)
  {
    ClaimWithin(cfg, s.world, log, s.start, s.pos, at);
    if s.pos < |log| {
      PrefixWithin(cfg, s.world, s.pos, log[s.pos], s.idx, at);
    }
    WithinConcat(cfg, ClaimTrace(cfg, s.world, Incomings(log, s.start, s.pos)), Partial(cfg, log, s), at);
  }

  /**
    Across all sessions of a run, the handler calls for an offset number at most its deliveries times the
    allowed attempts, and the dead letter callback is invoked for it at most once per delivery.
    */
  lemma CallsWithinDeliveries(cfg: Config, log: seq<GoString>, base: nat, acts: seq<Action>, o: nat)
    requires base <= |log| && Exec(cfg, Init(log, base), acts).Some?
    ensures var sessions := Exec(cfg, Init(log, base), acts).value.sessions;
            && Sum(sessions, Occurrences(AttemptAt(o))) <= Limit(cfg) * Sum(sessions, Occurrences(DeliveryAt(o)))
            && Sum(sessions, Occurrences(CallbackAt(o))) <= Sum(sessions, Occurrences(DeliveryAt(o)))
  {
    RunKeepsInv(cfg, log, base, acts);
    var st := Exec(cfg, Init(log, base), acts).value;
    forall s | s in st.sessions ensures WithinDeliveries(cfg, s.events, o) {
      SessionWithin(cfg, st.log, s, o);
    }
    SumScale(st.sessions, Limit(cfg), Occurrences(AttemptAt(o)), Occurrences(DeliveryAt(o)));
    SumMonotone(st.sessions, Occurrences(CallbackAt(o)), Occurrences(DeliveryAt(o)));
  }

  // ---- Exactly how many attempts and callbacks -----------------------------------------------

  /** `p` is about events of the message at `at` only. */
  ghost predicate OnlyAt(p: Event -> bool, at: nat) {
    forall e: Event :: p(e) ==> e.offset == at
  }

  ghost predicate Happens(es: seq<Event>, p: Event -> bool, k: nat) {
    Count(es, p) == k
  }

  /** The callback was invoked `k` times for the message at `at`. */
  ghost predicate CalledBack(es: seq<Event>, at: nat, k: nat) {
    Happens(es, CallbackAt(at), k)
  }

  lemma HappensConcat(a: seq<Event>, b: seq<Event>, p: Event -> bool, j: nat, k: nat)
    requires Happens(a, p, j) && Happens(b, p, k)
    ensures Happens(a + b, p, j + k)
  {
    CountConcat(a, b, p);
  }

  lemma NeverHappens(es: seq<Event>, p: Event -> bool, at: nat)
    requires OnlyAt(p, at) && forall e | e in es :: e.offset != at
    ensures Happens(es, p, 0)
  {
    CountZero(es, p);
  }

  lemma MessageOffsets(cfg: Config, w: World, o: nat, value: GoString)
    ensures forall e | e in MessageTrace(cfg, w, o, value) :: e.offset == o
  {
  }

  lemma MessageCallsBack(cfg: Config, w: World, o: nat, value: GoString)
    ensures CalledBack(MessageTrace(cfg, w, o, value), o, if CallsBack(cfg, w, o, value) then 1 else 0)
  {
    var t, n := MessageTrace(cfg, w, o, value), Attempts(w, o, cfg.maxRetries);
    MessageLayout(cfg, w, o, value);
    if CallsBack(cfg, w, o, value) {
      assert t[n + 1] == DeadLetterEvent(cfg, w, o, Dispatched(cfg, value).value);
      CountPositive(t, CallbackAt(o), n + 1);
      CountWithin(t, CallbackAt(o), n + 1, n + 2);
    } else {
      CountZero(t, CallbackAt(o));
    }
  }

  lemma MessageAttempts(cfg: Config, w: World, o: nat, value: GoString)
    ensures var n := if Dispatched(cfg, value).None? then 0 else Attempts(w, o, cfg.maxRetries);
            Happens(MessageTrace(cfg, w, o, value), AttemptAt(o), n)
  {
    var t, n := MessageTrace(cfg, w, o, value), Attempts(w, o, cfg.maxRetries);
    if Dispatched(cfg, value).None? {
      CountZero(t, AttemptAt(o));
    } else {
      var attempts := AttemptEvents(w, o, Dispatched(cfg, value).value, n);
      forall i | 0 <= i < |t| ensures AttemptAt(o)(t[i]) <==> 1 <= i < n + 1 {
        MessageLayout(cfg, w, o, value);
        assert 1 <= i < n + 1 ==> t[i] == attempts[i - 1];
      }
      CountExactly(t, AttemptAt(o), 1, n + 1);
    }
  }

  lemma GrowthElsewhere(
      cfg: Config, w: World, log: seq<GoString>, lo: nat, hi: nat, p: Event -> bool, at: nat, k: nat)
    requires OnlyAt(p, at) && lo <= hi < |log| && at != hi
    requires Happens(ClaimTrace(cfg, w, Incomings(log, lo, hi)), p, k)
    ensures Happens(ClaimTrace(cfg, w, Incomings(log, lo, hi + 1)), p, k)
  {
    var t := MessageTrace(cfg, w, hi, log[hi]);
    MessageOffsets(cfg, w, hi, log[hi]);
    NeverHappens(t, p, at);
    ClaimGrows(cfg, log, w, lo, hi);
    HappensConcat(ClaimTrace(cfg, w, Incomings(log, lo, hi)), t, p, k, 0);
  }

  /** Working on other offsets leaves the number of such events as it is. */
  lemma CarriesOn(
      cfg: Config, w: World, log: seq<GoString>, lo: nat, mid: nat, hi: nat, p: Event -> bool, at: nat, k: nat)
    requires OnlyAt(p, at) && lo <= mid <= hi <= |log| && !(mid <= at < hi)
    requires Happens(ClaimTrace(cfg, w, Incomings(log, lo, mid)), p, k)
    ensures Happens(ClaimTrace(cfg, w, Incomings(log, lo, hi)), p, k)
  {
    forall n | mid <= n < hi && Happens(ClaimTrace(cfg, w, Incomings(log, lo, n)), p, k)
      ensures Happens(ClaimTrace(cfg, w, Incomings(log, lo, n + 1)), p, k)
    {
      GrowthElsewhere(cfg, w, log, lo, n, p, at, k);
    }
    ClaimInduction(cfg, w, log, lo, mid, hi, es => Happens(es, p, k));
  }

  lemma ClaimHappens(cfg: Config, w: World, log: seq<GoString>, lo: nat, hi: nat, p: Event -> bool, at: nat, k: nat)
    requires OnlyAt(p, at) && lo <= at < hi <= |log| && Happens(MessageTrace(cfg, w, at, log[at]), p, k)
    ensures Happens(ClaimTrace(cfg, w, Incomings(log, lo, hi)), p, k)
  {
    assert Incomings(log, lo, lo) == [];
    CarriesOn(cfg, w, log, lo, lo, at, p, at, 0);
    ClaimGrows(cfg, log, w, lo, at);
    HappensConcat(ClaimTrace(cfg, w, Incomings(log, lo, at)), MessageTrace(cfg, w, at, log[at]), p, 0, k);
    CarriesOn(cfg, w, log, lo, at + 1, hi, p, at, k);
  }

  /** What happens in the trace of a message a session has finished happens as often in the session. */
  lemma SessionHappens(cfg: Config, log: seq<GoString>, s: Session, p: Event -> bool, at: nat, k: nat)
    requires SessionInv(cfg, log, s) && s.start <= at < s.pos && OnlyAt(p, at)
    requires Happens(MessageTrace(cfg, s.world, at, log[at]), p, k)
    ensures Happens(s.events, p, k)
  {
    ClaimHappens(cfg, s.world, log, s.start, s.pos, p, at, k);
    if s.pos < |log| {
      MessageOffsets(cfg, s.world, s.pos, log[s.pos]);
    }
    NeverHappens(Partial(cfg, log, s), p, at);
    HappensConcat(ClaimTrace(cfg, s.world, Incomings(log, s.start, s.pos)), Partial(cfg, log, s), p, k, 0);
  }

  /** A session calls back for a message it has finished exactly when it exhausted that message, and then once. */
  lemma SessionCallsBack(cfg: Config, log: seq<GoString>, s: Session, at: nat)
    requires SessionInv(cfg, log, s) && s.start <= at < s.pos
    ensures CalledBack(s.events, at, if CallsBack(cfg, s.world, at, log[at]) then 1 else 0)
  {
    MessageCallsBack(cfg, s.world, at, log[at]);
    SessionHappens(cfg, log, s, CallbackAt(at), at, if CallsBack(cfg, s.world, at, log[at]) then 1 else 0);
  }

  /** Some registered handler gets the record value. */
  predicate Handleable(cfg: Config, value: GoString) {
    cfg.decode(value).Some? && cfg.registry.Get(cfg.decode(value).value.eventType).Some?
  }

  /** Of the handler calls 1, 2, ... for `o`, call `n` is the first to return nil, or the last allowed. */
  ghost predicate LastCall(cfg: Config, w: World, o: nat, n: nat) {
    && n <= (if cfg.maxRetries < 0 then 0 else cfg.maxRetries) && (cfg.maxRetries >= 1 ==> n >= 1)
    && (forall j: nat | 1 <= j < n :: !Succeeds(w, o, j))
    && (n < cfg.maxRetries ==> Succeeds(w, o, n))
  }

  lemma LastCallIsAttempts(cfg: Config, w: World, o: nat, n: nat)
    requires LastCall(cfg, w, o, n)
    ensures n == Attempts(w, o, cfg.maxRetries)
    ensures Exhausted(cfg, w, o) <==> n >= 1 && !Succeeds(w, o, n)
  {
    forall j: nat ensures ErrorAt(w, o, j).None? <==> Succeeds(w, o, j) {
      ErrorsReport(w, o, j);
    }
    AttemptsUnique(w, o, cfg.maxRetries, n);
  }

  /**
    A message a session has finished got exactly the handler calls up to the first that returned nil, and no
    more than allowed; and one callback exactly when there were calls, the last of them did not return nil
    either, and a callback is set. A panic is no nil return. What no handler gets has neither.
    */
  lemma FinishedExactly(
      cfg: Config, log: seq<GoString>, base: nat, acts: seq<Action>, s: Session, o: nat, n: nat)
    requires base <= |log| && Exec(cfg, Init(log, base), acts).Some?
    requires s in Exec(cfg, Init(log, base), acts).value.sessions
    requires s.start <= o < s.pos && LastCall(cfg, s.world, o, n)
    ensures var end := Exec(cfg, Init(log, base), acts).value.log;
            && o < |end|
            && var handled := Handleable(cfg, end[o]);
               && Happens(s.events, AttemptAt(o), if handled then n else 0)
               && var exhausted := handled && n >= 1 && !Succeeds(s.world, o, n);
                  CalledBack(s.events, o, if exhausted && cfg.dlq.Some? then 1 else 0)
  {
    RunKeepsInv(cfg, log, base, acts);
    var end := Exec(cfg, Init(log, base), acts).value.log;
    LastCallIsAttempts(cfg, s.world, o, n);
    DispatchedExactly(cfg, end[o]);
    SessionCallsBack(cfg, end, s, o);
    MessageAttempts(cfg, s.world, o, end[o]);
    SessionHappens(cfg, end, s, AttemptAt(o), o, if Handleable(cfg, end[o]) then n else 0);
  }

  /** In particular a handler that never returns nil, be it by errors or by panics, exhausts the message. */
  lemma NoSuccessExhausts(cfg: Config, log: seq<GoString>, base: nat, acts: seq<Action>, s: Session, o: nat)
    requires base <= |log| && Exec(cfg, Init(log, base), acts).Some?
    requires s in Exec(cfg, Init(log, base), acts).value.sessions
    requires s.start <= o < s.pos && cfg.maxRetries >= 1 && cfg.dlq.Some?
    requires o < |Exec(cfg, Init(log, base), acts).value.log|
    requires Handleable(cfg, Exec(cfg, Init(log, base), acts).value.log[o])
    requires forall j: nat | 1 <= j <= cfg.maxRetries :: s.world.handler(o, j).ret != Returned(None)
    ensures Happens(s.events, AttemptAt(o), cfg.maxRetries) && CalledBack(s.events, o, 1)
  {
    assert forall j: nat | 1 <= j <= cfg.maxRetries :: !Succeeds(s.world, o, j);
    FinishedExactly(cfg, log, base, acts, s, o, cfg.maxRetries);
  }

  ghost predicate EachOf(es: seq<Event>, q: Event -> bool) {
    forall e | e in es :: q(e)
  }

  /** A property of single events that holds along the messages of a session holds of all its events. */
  lemma SessionEvents(cfg: Config, log: seq<GoString>, s: Session, q: Event -> bool)
    requires SessionInv(cfg, log, s)
    requires forall o, e | s.start <= o < |log| && e in MessageTrace(cfg, s.world, o, log[o]) :: q(e)
    ensures forall e | e in s.events :: q(e)
  {
    forall n | s.start <= n < s.pos && EachOf(ClaimTrace(cfg, s.world, Incomings(log, s.start, n)), q)
      ensures EachOf(ClaimTrace(cfg, s.world, Incomings(log, s.start, n + 1)), q)
    {
      ClaimGrows(cfg, log, s.world, s.start, n);
    }
    ClaimInduction(cfg, s.world, log, s.start, s.start, s.pos, es => EachOf(es, q));
    forall e | e in Partial(cfg, log, s) ensures q(e) {
      assert e in Current(cfg, log, s);
    }
  }

  lemma GrowthContains(cfg: Config, w: World, log: seq<GoString>, lo: nat, hi: nat, e: Event)
    requires lo <= hi < |log|
    requires e in ClaimTrace(cfg, w, Incomings(log, lo, hi)) || e in MessageTrace(cfg, w, hi, log[hi])
    ensures e in ClaimTrace(cfg, w, Incomings(log, lo, hi + 1))
  {
    ClaimGrows(cfg, log, w, lo, hi);
    InConcat(ClaimTrace(cfg, w, Incomings(log, lo, hi)), MessageTrace(cfg, w, hi, log[hi]), e);
  }

  lemma ClaimContains(cfg: Config, w: World, log: seq<GoString>, lo: nat, mid: nat, hi: nat, e: Event)
    requires lo <= mid <= hi <= |log| && e in ClaimTrace(cfg, w, Incomings(log, lo, mid))
    ensures e in ClaimTrace(cfg, w, Incomings(log, lo, hi))
  {
    forall n | mid <= n < hi && e in ClaimTrace(cfg, w, Incomings(log, lo, n))
      ensures e in ClaimTrace(cfg, w, Incomings(log, lo, n + 1))
    {
      GrowthContains(cfg, w, log, lo, n, e);
    }
    ClaimInduction(cfg, w, log, lo, mid, hi, es => e in es);
  }

  ghost predicate TruthfulIn(cfg: Config, log: seq<GoString>, w: World, e: Event) {
    e.offset < |log| && Truthful(cfg, w, e.offset, log[e.offset], e)
  }

  lemma SessionIsTruthful(cfg: Config, log: seq<GoString>, s: Session, e: Event)
    requires SessionInv(cfg, log, s) && e in s.events
    ensures TruthfulIn(cfg, log, s.world, e)
  {
    forall o, x | s.start <= o < |log| && x in MessageTrace(cfg, s.world, o, log[o])
      ensures TruthfulIn(cfg, log, s.world, x)
    {
      MessageOffsets(cfg, s.world, o, log[o]);
      MessageIsTruthful(cfg, s.world, o, log[o]);
    }
    SessionEvents(cfg, log, s, x => TruthfulIn(cfg, log, s.world, x));
  }

  /**
    In every run every event of every session tells what decoder, registry, handler calls, encoder and broker
    did: an attempt reported without an error is a call that returned nil, and none is missing an error.
    */
  lemma RunIsTruthful(cfg: Config, log: seq<GoString>, base: nat, acts: seq<Action>, s: Session, e: Event)
    requires base <= |log| && Exec(cfg, Init(log, base), acts).Some?
    requires s in Exec(cfg, Init(log, base), acts).value.sessions && e in s.events
    ensures var end := Exec(cfg, Init(log, base), acts).value.log;
            e.offset < |end| && Truthful(cfg, s.world, e.offset, end[e.offset], e)
  {
    RunKeepsInv(cfg, log, base, acts);
    SessionIsTruthful(cfg, Exec(cfg, Init(log, base), acts).value.log, s, e);
  }

  /** Each message's events are all there once the session has finished it. */
  lemma SessionContains(cfg: Config, log: seq<GoString>, s: Session, o: nat, e: Event)
    requires SessionInv(cfg, log, s) && s.start <= o < s.pos && e in MessageTrace(cfg, s.world, o, log[o])
    ensures e in s.events
  {
    var done := ClaimTrace(cfg, s.world, Incomings(log, s.start, s.pos));
    assert e in done by {
      GrowthContains(cfg, s.world, log, s.start, o, e);
      ClaimContains(cfg, s.world, log, s.start, o + 1, s.pos, e);
    }
    assert s.events == done + Partial(cfg, log, s);
    InConcat(done, Partial(cfg, log, s), e);
  }
}
