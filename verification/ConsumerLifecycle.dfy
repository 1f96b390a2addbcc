/**
  Shutdown of a `Consumer` (consumer/consumer.go, `Start` and `Close`) under any number of concurrent
  callers. Unlike the replayer, `Start` registers with the wait group only after it has released the lock
  under which it checked the closed flag, and its loop never looks at that flag again.
  */
module ConsumerLifecycle {
  import opened GoStrings
  import opened Options
  import opened Sequences

  /** `active` is the wait group's counter; `clientCloses` counts calls of the client's `Close`. */
  datatype Life = Life(closed: bool, active: int, clientCloses: nat)

  datatype StartPC =
    | Called
    | Checked
    | AtContext
    | InConsume
    | AfterError
    | Leaving
    | ReturnedClosed
    | ReturnedCause

  datatype ClosePC =
    | CloseCalled
    | Waiting
    | ClosingClient
    | CloseReturned(winner: bool, result: Option<GoString>)

  datatype Caller = Start(pc: StartPC, done: bool) | Close(cpc: ClosePC)

  /**
    `gap` is set when the wait of the winning `Close` passes: the `Start` calls that by then had passed
    their closed check without having registered.
    */
  datatype State = State(life: Life, callers: seq<Caller>, gap: Option<set<nat>>)

  const INITIAL := State(Life(false, 0, 0), [], None)

  datatype Action =
    | CallStart
    | CallClose
    | CancelContext(caller: nat)
    | Move(caller: nat)
    | ConsumeReturns(caller: nat, failed: bool)
    | ClientCloseReturns(caller: nat, err: Option<GoString>)

  predicate Enabled(st: State, a: Action) {
    match a
    case CallStart => true
    case CallClose => true
    case CancelContext(i) => i < |st.callers| && st.callers[i].Start?
    case Move(i) =>
      && i < |st.callers|
      && (match st.callers[i]
          case Start(pc, _) => !pc.InConsume? && !pc.ReturnedClosed? && !pc.ReturnedCause?
          case Close(pc) => pc.CloseCalled? || (pc.Waiting? && st.life.active == 0))
    case ConsumeReturns(i, _) => i < |st.callers| && st.callers[i].Start? && st.callers[i].pc.InConsume?
    case ClientCloseReturns(i, _) => i < |st.callers| && st.callers[i].Close? && st.callers[i].cpc.ClosingClient?
  }

  function MoveStart(c: Caller, closed: bool): Caller
    requires c.Start? && !c.pc.InConsume? && !c.pc.ReturnedClosed? && !c.pc.ReturnedCause?
  {
    match c.pc
    case Called => c.(pc := if closed then ReturnedClosed else Checked)
    case Checked => c.(pc := AtContext)
    case AtContext => c.(pc := if c.done then Leaving else InConsume)
    case AfterError => c.(pc := if c.done then Leaving else AtContext)
    case Leaving => c.(pc := ReturnedCause)
  }

  function CheckedCalls(callers: seq<Caller>): set<nat> {
    set i: nat | i < |callers| && callers[i].Start? && callers[i].pc.Checked?
  }

  function Next(st: State, a: Action): State
    requires Enabled(st, a)
  {
    match a
    case CallStart => st.(callers := st.callers + [Start(Called, false)])
    case CallClose => st.(callers := st.callers + [Close(CloseCalled)])
    case CancelContext(i) => st.(callers := st.callers[i := st.callers[i].(done := true)])
    case Move(i) =>
      var c := st.callers[i];
      if c.Start? then
        var active := st.life.active + (if c.pc.Checked? then 1 else if c.pc.Leaving? then -1 else 0);
        st.(life := st.life.(active := active), callers := st.callers[i := MoveStart(c, st.life.closed)])
      else if c.cpc.CloseCalled? then
        st.(life := st.life.(closed := true),
            callers := st.callers[i := Close(if st.life.closed then CloseReturned(false, None) else Waiting)])
      else
        st.(life := st.life.(clientCloses := st.life.clientCloses + 1),
            callers := st.callers[i := Close(ClosingClient)],
            gap := Some(CheckedCalls(st.callers)))
    case ConsumeReturns(i, failed) =>
      st.(callers := st.callers[i := st.callers[i].(pc := if failed then AfterError else AtContext)])
    case ClientCloseReturns(i, e) => st.(callers := st.callers[i := Close(CloseReturned(true, e))])
  }

  function Exec(st: State, acts: seq<Action>): Option<State> {
    if acts == [] then Some(st) else
      var n := |acts| - 1;
      var mid := Exec(st, acts[..n]);
      if mid.Some? && Enabled(mid.value, acts[n]) then Some(Next(mid.value, acts[n])) else None
  }

  // ---- Invariant -----------------------------------------------------------------------------

  /** The call has registered with the wait group and not yet left it. */
  predicate Active(c: Caller) {
    c.Start? && (c.pc.AtContext? || c.pc.InConsume? || c.pc.AfterError? || c.pc.Leaving?)
  }

  /** Past its closed check and not yet out of its loop. */
  predicate OnItsWay(c: Caller) {
    Active(c) || (c.Start? && c.pc.Checked?)
  }

  predicate Winner(c: Caller) {
    c.Close? && (c.cpc.Waiting? || c.cpc.ClosingClient? || (c.cpc.CloseReturned? && c.cpc.winner))
  }

  predicate PastWait(c: Caller) {
    Winner(c) && !c.cpc.Waiting?
  }

  function IsActive(c: Caller): int { One(Active(c)) }
  function IsWinner(c: Caller): int { One(Winner(c)) }
  function IsPastWait(c: Caller): int { One(PastWait(c)) }

  ghost predicate SumInv(st: State) {
    && st.life.active == Sum(st.callers, IsActive)
    && Sum(st.callers, IsWinner) == One(st.life.closed)
    && Sum(st.callers, IsPastWait) == st.life.clientCloses == One(st.gap.Some?)
  }

  /** Only calls that were in the gap may still be on their way once the wait has passed. */
  ghost predicate GapInv(st: State) {
    st.gap.Some? ==>
      && st.life.closed
      && forall i | 0 <= i < |st.callers| && OnItsWay(st.callers[i]) :: i in st.gap.value
  }

  /** A `Start` leaves its loop only through its context. */
  predicate LeavesByContext(c: Caller) {
    c.Start? && (c.pc.Leaving? || c.pc.ReturnedCause?) ==> c.done
  }

  ghost predicate Inv(st: State) {
    SumInv(st) && GapInv(st) && forall c | c in st.callers :: LeavesByContext(c) && (Winner(c) ==> st.life.closed)
  }

  lemma Replaced(callers: seq<Caller>, i: nat, c: Caller)
    requires i < |callers|
    ensures Sum(callers[i := c], IsActive) == Sum(callers, IsActive) - IsActive(callers[i]) + IsActive(c)
    ensures Sum(callers[i := c], IsWinner) == Sum(callers, IsWinner) - IsWinner(callers[i]) + IsWinner(c)
    ensures Sum(callers[i := c], IsPastWait) == Sum(callers, IsPastWait) - IsPastWait(callers[i]) + IsPastWait(c)
  {
    SumUpdate(callers, i, c, IsActive);
    SumUpdate(callers, i, c, IsWinner);
    SumUpdate(callers, i, c, IsPastWait);
  }

  lemma Added(callers: seq<Caller>, c: Caller)
    requires !Active(c) && !Winner(c)
    ensures Sum(callers + [c], IsActive) == Sum(callers, IsActive)
    ensures Sum(callers + [c], IsWinner) == Sum(callers, IsWinner)
    ensures Sum(callers + [c], IsPastWait) == Sum(callers, IsPastWait)
  {
    SumAppend(callers, c, IsActive);
    SumAppend(callers, c, IsWinner);
    SumAppend(callers, c, IsPastWait);
  }

  /** While one `Close` waits, no other has passed the wait. */
  lemma WaitingIsAlone(st: State, i: nat)
    requires SumInv(st) && i < |st.callers| && st.callers[i] == Close(Waiting)
    ensures st.gap.None?
  {
    Replaced(st.callers, i, Close(CloseCalled));
    var others := st.callers[i := Close(CloseCalled)];
    SumMonotone(others, IsPastWait, IsWinner);
  }

  lemma MoveKeepsSums(st: State, i: nat)
    requires SumInv(st) && Enabled(st, Move(i))
    ensures SumInv(Next(st, Move(i)))
  {
    var c, st' := st.callers[i], Next(st, Move(i));
    if c == Close(Waiting) {
      WaitingIsAlone(st, i);
    }
    Replaced(st.callers, i, st'.callers[i]);
    assert st'.callers == st.callers[i := st'.callers[i]];
  }

  lemma StepKeepsSums(st: State, a: Action)
    requires SumInv(st) && Enabled(st, a)
    ensures SumInv(Next(st, a))
  {
    match a
    case CallStart => Added(st.callers, Start(Called, false));
    case CallClose => Added(st.callers, Close(CloseCalled));
    case Move(i) => MoveKeepsSums(st, i);
    case _ =>
      var c' := Next(st, a).callers[a.caller];
      Replaced(st.callers, a.caller, c');
      assert Next(st, a).callers == st.callers[a.caller := c'];
  }

  lemma NoneActive(st: State)
    requires SumInv(st) && st.life.active == 0
    ensures forall i | 0 <= i < |st.callers| :: !Active(st.callers[i])
  {
    SumBounds(st.callers, IsActive);
    forall i | 0 <= i < |st.callers| ensures !Active(st.callers[i]) {
      assert IsActive(st.callers[i]) <= 0;
    }
  }

  lemma StepKeepsGap(st: State, a: Action)
    requires Inv(st) && Enabled(st, a)
    ensures GapInv(Next(st, a))
  {
    if a.Move? && st.callers[a.caller] == Close(Waiting) {
      assert st.callers[a.caller] in st.callers;
      NoneActive(st);
    }
  }

  lemma StepKeepsInv(st: State, a: Action)
    requires Inv(st) && Enabled(st, a)
    ensures Inv(Next(st, a))
  {
    StepKeepsSums(st, a);
    StepKeepsGap(st, a);
    if !a.CallStart? && !a.CallClose? {
      assert st.callers[a.caller] in st.callers;
    }
  }

  lemma {:induction false} RunKeepsInv(acts: seq<Action>)
    requires Exec(INITIAL, acts).Some?
    ensures Inv(Exec(INITIAL, acts).value)
  {
    if acts != [] {
      var n := |acts| - 1;
      RunKeepsInv(acts[..n]);
      StepKeepsInv(Exec(INITIAL, acts[..n]).value, acts[n]);
    }
  }

  // ---- Safety --------------------------------------------------------------------------------

  /**
    In every reachable state: the client has been closed at most once, and only after the wait passed; a
    `Start` that is still on its way after that was in the gap, so it passed its closed check before the
    flag was set; and no `Start` leaves its loop unless its own context is done, closed or not.
    */
  lemma ShutdownIsSafe(acts: seq<Action>)
    requires Exec(INITIAL, acts).Some?
    ensures var st := Exec(INITIAL, acts).value;
            && st.life.clientCloses == One(st.gap.Some?) <= One(st.life.closed)
            && (st.gap.Some? ==> forall i | 0 <= i < |st.callers| && Active(st.callers[i]) :: i in st.gap.value)
            && (forall c | c in st.callers && c.Start? && (c.pc.Leaving? || c.pc.ReturnedCause?) :: c.done)
  {
    RunKeepsInv(acts);
    var st := Exec(INITIAL, acts).value;
    assert forall c | c in st.callers :: LeavesByContext(c);
  }

  /** The wait passes only when every `Start` that ever registered has returned, each with its context done. */
  lemma WaitPassesWhenAllDone(acts: seq<Action>, i: nat)
    requires Exec(INITIAL, acts).Some? && Enabled(Exec(INITIAL, acts).value, Move(i))
    requires Exec(INITIAL, acts).value.callers[i] == Close(Waiting)
    ensures var st := Exec(INITIAL, acts).value;
            && Next(st, Move(i)).gap == Some(CheckedCalls(st.callers))
            && forall c | c in st.callers && c.Start? ::
                 c.pc.Called? || c.pc.Checked? || c.pc.ReturnedClosed? || (c.pc.ReturnedCause? && c.done)
  {
    RunKeepsInv(acts);
    var st := Exec(INITIAL, acts).value;
    NoneActive(st);
    forall c | c in st.callers && c.Start? && c.pc.ReturnedCause? ensures c.done {
      assert LeavesByContext(c);
    }
  }

  /** Whoever is on its way at the end already was at `st`. */
  ghost predicate OnlyEarlier(st: State, end: State) {
    forall i | 0 <= i < |end.callers| && OnItsWay(end.callers[i]) :: i < |st.callers| && OnItsWay(st.callers[i])
  }

  lemma NoCheckAfterClosed(st: State, a: Action)
    requires st.life.closed && Enabled(st, a)
    ensures Next(st, a).life.closed && OnlyEarlier(st, Next(st, a))
  {
  }

  /**
    Once the flag is set no `Start` passes its closed check any more: those on their way at any later time
    had passed it before.
    */
  lemma {:induction false} OnlyEarlierChecks(st: State, acts: seq<Action>)
    requires st.life.closed && Exec(st, acts).Some?
    ensures Exec(st, acts).value.life.closed && OnlyEarlier(st, Exec(st, acts).value)
  {
    if acts != [] {
      var n := |acts| - 1;
      OnlyEarlierChecks(st, acts[..n]);
      NoCheckAfterClosed(Exec(st, acts[..n]).value, acts[n]);
    }
  }

  ghost predicate SomeActive(st: State) {
    exists c | c in st.callers :: Active(c)
  }

  ghost predicate LeadsToActive(st: State, acts: seq<Action>) {
    Exec(st, acts).Some? && SomeActive(Exec(st, acts).value)
  }

  /**
    Once the flag is set, some continuation of the run has a registered `Start` if and only if some call is
    past its closed check and not yet out of its loop. Whether one can still run after the wait has passed is
    decided by `GapOutlivesWait`.
    */
  lemma GapDecides(st: State)
    requires st.life.closed
    ensures (exists acts :: LeadsToActive(st, acts)) <==> exists c | c in st.callers :: OnItsWay(c)
  {
    if exists c | c in st.callers :: OnItsWay(c) {
      var i :| 0 <= i < |st.callers| && OnItsWay(st.callers[i]);
      if Active(st.callers[i]) {
        var none: seq<Action> := [];
        assert st.callers[i] in st.callers;
        assert LeadsToActive(st, none);
      } else {
        var next := Next(st, Move(i));
        assert next.callers[i] in next.callers && Active(next.callers[i]);
        var one := [Move(i)];
        assert one[..0] == [] && Exec(st, one) == Some(next);
        assert LeadsToActive(st, one);
      }
    } else {
      forall acts | Exec(st, acts).Some? ensures !LeadsToActive(st, acts) {
        OnlyEarlierChecks(st, acts);
      }
    }
  }

  lemma Extend(acts: seq<Action>, st: State, a: Action, next: State) returns (more: seq<Action>)
    requires Exec(INITIAL, acts) == Some(st) && Enabled(st, a) && Next(st, a) == next
    ensures more == acts + [a] && Exec(INITIAL, more) == Some(next)
  {
    more := acts + [a];
    assert more[..|acts|] == acts;
  }

  lemma StartChecked() returns (acts: seq<Action>)
    ensures Exec(INITIAL, acts) == Some(State(Life(false, 0, 0), [Start(Checked, false)], None))
  {
    var s1 := State(Life(false, 0, 0), [Start(Called, false)], None);
    acts := Extend([], INITIAL, CallStart, s1);
    acts := Extend(acts, s1, Move(0), State(Life(false, 0, 0), [Start(Checked, false)], None));
  }

  /** A whole `Close` while one `Start` sits between its check and its registration. */
  lemma CloseAround(acts: seq<Action>) returns (more: seq<Action>)
    requires Exec(INITIAL, acts) == Some(State(Life(false, 0, 0), [Start(Checked, false), Close(CloseCalled)], None))
    ensures Exec(INITIAL, more)
         == Some(State(Life(true, 0, 1), [Start(Checked, false), Close(CloseReturned(true, None))], Some({0})))
  {
    var start := Start(Checked, false);
    var s3 := State(Life(false, 0, 0), [start, Close(CloseCalled)], None);
    var s4 := State(Life(true, 0, 0), [start, Close(Waiting)], None);
    more := Extend(acts, s3, Move(1), s4);
    assert CheckedCalls(s4.callers) == {0};
    var s5 := State(Life(true, 0, 1), [start, Close(ClosingClient)], Some({0}));
    more := Extend(more, s4, Move(1), s5);
    more := Extend(more, s5, ClientCloseReturns(1, None), s5.(callers := [start, Close(CloseReturned(true, None))]));
  }

  /** The race is real: a `Start` can be in its loop after the client it uses has been closed. */
  lemma StartMayOutliveClose() returns (acts: seq<Action>)
    ensures Exec(INITIAL, acts).Some?
    ensures var end := Exec(INITIAL, acts).value;
            end.life.clientCloses == 1 && SomeActive(end)
            && |end.callers| == 2 && end.callers[1] == Close(CloseReturned(true, None))
  {
    var s2 := State(Life(false, 0, 0), [Start(Checked, false)], None);
    acts := StartChecked();
    acts := Extend(acts, s2, CallClose, s2.(callers := [Start(Checked, false), Close(CloseCalled)]));
    acts := CloseAround(acts);
    var s6 := State(Life(true, 0, 1), [Start(Checked, false), Close(CloseReturned(true, None))], Some({0}));
    var s7 := State(Life(true, 1, 1), [Start(AtContext, false), Close(CloseReturned(true, None))], Some({0}));
    acts := Extend(acts, s6, Move(0), s7);
    assert Active(s7.callers[0]) && s7.callers[0] in s7.callers;
  }

  // ---- What a waiting Close waits for --------------------------------------------------------

  predicate NoCancels(acts: seq<Action>) {
    forall a | a in acts :: !a.CancelContext?
  }

  /** In its loop, with a live context. */
  predicate Held(c: Caller) {
    Active(c) && !c.done && !c.pc.Leaving?
  }

  /** Nothing but its own context gets a `Start` out of its loop: not `Close`, whatever else happens. */
  lemma {:induction false} OnlyContextEndsStart(st: State, acts: seq<Action>, i: nat)
    requires Exec(st, acts).Some? && NoCancels(acts) && i < |st.callers| && Held(st.callers[i])
    ensures i < |Exec(st, acts).value.callers| && Held(Exec(st, acts).value.callers[i])
  {
    if acts != [] {
      OnlyContextEndsStart(st, acts[..|acts| - 1], i);
    }
  }

  /** `Start` registers, `Close` sets the flag and waits, and the loop goes round again. */
  const LOOPING_ON := [CallStart, Move(0), Move(0), CallClose, Move(1), Move(0)]

  /** Closing does not end `Start`: in that run the loop starts another `Consume` after the flag is set. */
  lemma CloseDoesNotEndStart()
    ensures Exec(INITIAL, LOOPING_ON[..5])
         == Some(State(Life(true, 1, 0), [Start(AtContext, false), Close(Waiting)], None))
    ensures Exec(INITIAL, LOOPING_ON) == Some(State(Life(true, 1, 0), [Start(InConsume, false), Close(Waiting)], None))
  {
    var loop := Start(AtContext, false);
    var s1 := State(Life(false, 0, 0), [Start(Called, false)], None);
    var s2 := s1.(callers := [Start(Checked, false)]);
    var s3 := State(Life(false, 1, 0), [loop], None);
    var s4 := s3.(callers := [loop, Close(CloseCalled)]);
    var s5 := State(Life(true, 1, 0), [loop, Close(Waiting)], None);
    var acts := Extend([], INITIAL, CallStart, s1);
    acts := Extend(acts, s1, Move(0), s2);
    acts := Extend(acts, s2, Move(0), s3);
    acts := Extend(acts, s3, CallClose, s4);
    acts := Extend(acts, s4, Move(1), s5);
    assert acts == LOOPING_ON[..5];
    acts := Extend(acts, s5, Move(0), s5.(callers := [Start(InConsume, false), Close(Waiting)]));
    assert acts == LOOPING_ON;
  }

  /** Call `i`, which was waiting, has got past the wait. */
  predicate PassesWait(st: State, more: seq<Action>, i: nat) {
    Exec(st, more).Some? && i < |Exec(st, more).value.callers| && Exec(st, more).value.callers[i] != Close(Waiting)
  }

  /** `Close` call `i` waits while `Start` call `j` is held in its loop. */
  ghost predicate Blocked(st: State, i: nat, j: nat) {
    && Inv(st)
    && i < |st.callers| && st.callers[i] == Close(Waiting)
    && j < |st.callers| && Held(st.callers[j])
  }

  lemma StepKeepsBlocked(st: State, a: Action, i: nat, j: nat)
    requires Blocked(st, i, j) && Enabled(st, a) && !a.CancelContext?
    ensures Blocked(Next(st, a), i, j)
  {
    StepKeepsInv(st, a);
    if st.life.active == 0 {
      NoneActive(st);
    }
  }

  lemma {:induction false} BlockedForever(st: State, more: seq<Action>, i: nat, j: nat)
    requires Blocked(st, i, j) && Exec(st, more).Some? && NoCancels(more)
    ensures Blocked(Exec(st, more).value, i, j)
  {
    if more != [] {
      var n := |more| - 1;
      BlockedForever(st, more[..n], i, j);
      StepKeepsBlocked(Exec(st, more[..n]).value, more[n], i, j);
    }
  }

  /** How many steps a registered `Start` whose context is done has left. */
  function Rank(c: Caller): int {
    if !Active(c) then 0
    else match c.pc
      case InConsume => 3
      case AtContext => 2
      case AfterError => 2
      case _ => 1
  }

  /** Call `i` waits for calls whose contexts are all done. */
  ghost predicate Draining(st: State, i: nat) {
    && Inv(st) && i < |st.callers| && st.callers[i] == Close(Waiting)
    && forall c | c in st.callers && Active(c) :: c.done
  }

  lemma SomeoneIsActive(st: State) returns (j: nat)
    requires SumInv(st) && st.life.active != 0
    ensures j < |st.callers| && Active(st.callers[j])
  {
    if forall c | c in st.callers :: !Active(c) {
      SumZero(st.callers, IsActive);
    }
    j :| 0 <= j < |st.callers| && Active(st.callers[j]);
  }

  /** Between `st` and `end` only registered calls have moved. */
  ghost predicate OthersKept(st: State, end: State) {
    |end.callers| == |st.callers|
    && forall k | 0 <= k < |st.callers| && !Active(st.callers[k]) :: end.callers[k] == st.callers[k]
  }

  lemma SomeoneLeaves(st: State, i: nat) returns (a: Action)
    requires Draining(st, i) && st.life.active != 0
    ensures !a.CancelContext? && Enabled(st, a) && Draining(Next(st, a), i)
    ensures Sum(Next(st, a).callers, Rank) < Sum(st.callers, Rank)
    ensures OthersKept(st, Next(st, a))
  {
    var j := SomeoneIsActive(st);
    assert st.callers[j] in st.callers;
    a := if st.callers[j].pc.InConsume? then ConsumeReturns(j, true) else Move(j);
    StepKeepsInv(st, a);
    SumUpdate(st.callers, j, Next(st, a).callers[j], Rank);
    assert Next(st, a).callers == st.callers[j := Next(st, a).callers[j]];
  }

  /** Registered calls whose contexts are done can all leave, with nobody else moving. */
  lemma DoneCallsLeave(st: State, i: nat) returns (more: seq<Action>)
    requires Draining(st, i)
    ensures NoCancels(more) && Exec(st, more).Some?
    ensures var end := Exec(st, more).value; Draining(end, i) && end.life.active == 0 && OthersKept(st, end)
  {
    more := [];
    var mid := st;
    while mid.life.active != 0
      invariant NoCancels(more) && Exec(st, more) == Some(mid) && Draining(mid, i) && OthersKept(st, mid)
      decreases Sum(mid.callers, Rank)
    {
      SumBounds(mid.callers, Rank);
      var a := SomeoneLeaves(mid, i);
      assert (more + [a])[..|more|] == more;
      more, mid := more + [a], Next(mid, a);
    }
  }

  /** Then the wait passes. */
  lemma DoneCallsRelease(st: State, i: nat) returns (more: seq<Action>)
    requires Draining(st, i)
    ensures NoCancels(more) && PassesWait(st, more, i)
  {
    more := DoneCallsLeave(st, i);
    assert (more + [Move(i)])[..|more|] == more;
    more := more + [Move(i)];
  }

  /**
    Exactly when a waiting `Close` can go on without anybody else's context being cancelled: if and only if
    the contexts of all registered `Start` calls are done. One live context blocks it forever.
    */
  lemma WaitNeedsContexts(acts: seq<Action>, i: nat)
    requires Exec(INITIAL, acts).Some? && i < |Exec(INITIAL, acts).value.callers|
    requires Exec(INITIAL, acts).value.callers[i] == Close(Waiting)
    ensures var st := Exec(INITIAL, acts).value;
            (exists more :: NoCancels(more) && PassesWait(st, more, i))
            <==> forall c | c in st.callers && Active(c) :: c.done
  {
    RunKeepsInv(acts);
    var st := Exec(INITIAL, acts).value;
    if forall c | c in st.callers && Active(c) :: c.done {
      var more := DoneCallsRelease(st, i);
    } else {
      var j :| 0 <= j < |st.callers| && Active(st.callers[j]) && !st.callers[j].done;
      assert LeavesByContext(st.callers[j]);
      forall more | NoCancels(more) && Exec(st, more).Some? ensures !PassesWait(st, more, i) {
        BlockedForever(st, more, i, j);
      }
    }
  }

  // ---- Who outlives the wait -----------------------------------------------------------------

  /** The flag is set, nobody is in the gap, and once call `i` no longer waits nobody is registered. */
  ghost predicate GapClosed(st: State, i: nat) {
    && Inv(st) && st.life.closed
    && i < |st.callers| && st.callers[i].Close?
    && CheckedCalls(st.callers) == {}
    && (st.callers[i] == Close(Waiting) || forall c | c in st.callers :: !Active(c))
  }

  lemma StepKeepsGapClosed(st: State, a: Action, i: nat)
    requires GapClosed(st, i) && Enabled(st, a)
    ensures GapClosed(Next(st, a), i)
  {
    var st' := Next(st, a);
    StepKeepsInv(st, a);
    NoCheckAfterClosed(st, a);
    assert forall k | k in CheckedCalls(st'.callers) :: k in CheckedCalls(st.callers);
    if a == Move(i) && st.callers[i] == Close(Waiting) {
      NoneActive(st);
    } else if a.Move? {
      assert a.caller !in CheckedCalls(st.callers);
      assert st.callers[a.caller] in st.callers;
    } else if !a.CallStart? && !a.CallClose? {
      assert st.callers[a.caller] in st.callers;
    }
  }

  lemma {:induction false} GapClosedForever(st: State, more: seq<Action>, i: nat)
    requires GapClosed(st, i) && Exec(st, more).Some?
    ensures GapClosed(Exec(st, more).value, i)
  {
    if more != [] {
      var n := |more| - 1;
      GapClosedForever(st, more[..n], i);
      StepKeepsGapClosed(Exec(st, more[..n]).value, more[n], i);
    }
  }

  lemma {:induction false} ExecConcat(st: State, acts: seq<Action>, more: seq<Action>)
    requires Exec(st, acts).Some?
    ensures Exec(st, acts + more) == Exec(Exec(st, acts).value, more)
  {
    if more == [] {
      assert acts + more == acts;
    } else {
      var n := |more| - 1;
      ExecConcat(st, acts, more[..n]);
      assert (acts + more)[..|acts + more| - 1] == acts + more[..n];
    }
  }

  /** `end` is `st` with the contexts of the first `n` callers done. */
  ghost predicate CancelledUpTo(st: State, end: State, n: nat) {
    && |end.callers| == |st.callers| && end.life == st.life && end.gap == st.gap
    && forall k | 0 <= k < |st.callers| ::
         end.callers[k] == if k < n && st.callers[k].Start? then st.callers[k].(done := true) else st.callers[k]
  }

  /** All contexts may be cancelled. */
  lemma CancelAll(st: State) returns (more: seq<Action>)
    requires Inv(st)
    ensures Exec(st, more).Some? && Inv(Exec(st, more).value)
    ensures CancelledUpTo(st, Exec(st, more).value, |st.callers|)
  {
    more := [];
    var mid := st;
    for n := 0 to |st.callers|
      invariant Exec(st, more) == Some(mid) && Inv(mid) && CancelledUpTo(st, mid, n)
    {
      if st.callers[n].Start? {
        StepKeepsInv(mid, CancelContext(n));
        assert (more + [CancelContext(n)])[..|more|] == more;
        more, mid := more + [CancelContext(n)], Next(mid, CancelContext(n));
      }
    }
  }

  /** Call `i` is past its wait, and some `Start` is registered. */
  ghost predicate Outlived(st: State, more: seq<Action>, i: nat) {
    PassesWait(st, more, i) && SomeActive(Exec(st, more).value)
  }

  /** A call in the gap can sit out the whole wait and register after it. */
  lemma GapCallOutlives(st: State, i: nat, j: nat) returns (more: seq<Action>)
    requires Inv(st) && i < |st.callers| && st.callers[i] == Close(Waiting) && j in CheckedCalls(st.callers)
    ensures Outlived(st, more, i)
  {
    var cancels := CancelAll(st);
    var cancelled := Exec(st, cancels).value;
    assert Draining(cancelled, i);
    var leaving := DoneCallsLeave(cancelled, i);
    var drained := Exec(cancelled, leaving).value;
    assert drained.callers[j].pc.Checked?;
    var passed := Next(drained, Move(i));
    var end := Next(passed, Move(j));
    var last := [Move(i), Move(j)];
    assert last[..1] == [Move(i)] && [Move(i)][..0] == [];
    assert Exec(drained, [Move(i)]) == Some(passed);
    assert Exec(drained, last) == Some(end);
    ExecConcat(cancelled, leaving, last);
    ExecConcat(st, cancels, leaving + last);
    more := cancels + (leaving + last);
    assert end.callers[j] in end.callers && Active(end.callers[j]);
  }

  /**
    Exactly when a `Start` can be running after a waiting `Close` has got past its wait, on its way to close
    the client: if and only if some call sits between its closed check and its registration.
    */
  lemma GapOutlivesWait(acts: seq<Action>, i: nat)
    requires Exec(INITIAL, acts).Some? && i < |Exec(INITIAL, acts).value.callers|
    requires Exec(INITIAL, acts).value.callers[i] == Close(Waiting)
    ensures var st := Exec(INITIAL, acts).value;
            (exists more :: Outlived(st, more, i)) <==> CheckedCalls(st.callers) != {}
  {
    RunKeepsInv(acts);
    var st := Exec(INITIAL, acts).value;
    assert st.callers[i] in st.callers;
    if CheckedCalls(st.callers) != {} {
      var j :| j in CheckedCalls(st.callers);
      var more := GapCallOutlives(st, i, j);
    } else {
      forall more | Exec(st, more).Some? ensures !Outlived(st, more, i) {
        GapClosedForever(st, more, i);
      }
    }
  }

  // ---- The methods ---------------------------------------------------------------------------

  /** What one turn of a `Start` loop meets: the context at its head, whether `Consume` fails, the context then. */
  datatype Turn = Turn(doneBefore: bool, failed: bool, doneAfter: bool, closed: bool)

  datatype Exit = ErrClosed | Cause

  class Consumer {
    var closed: bool
    var active: int
    var clientCloses: nat

    constructor ()
      ensures !closed && active == 0 && clientCloses == 0
    {
      closed, active, clientCloses := false, 0, 0;
    }

    /** The lock section at the head of `Close`. */
    method TryMarkClosed() returns (winner: bool)
      modifies `closed
      ensures closed && winner == !old(closed)
    {
      winner := !closed;
      closed := true;
    }

    method CloseClient()
      requires active == 0
      modifies `clientCloses
      ensures clientCloses == old(clientCloses) + 1
    {
      clientCloses := clientCloses + 1;
    }

    /**
      `Close`: the client is closed only after the wait, which passes once the registered `Start` calls, which
      run in other goroutines, have returned one by one.
      */
    method Close(clientErr: Option<GoString>) returns (result: Option<GoString>)
      requires active >= 0
      modifies this
      ensures closed
      ensures old(closed) ==> result.None? && active == old(active) && clientCloses == old(clientCloses)
      ensures !old(closed) ==> result == clientErr && active == 0 && clientCloses == old(clientCloses) + 1
    {
      var winner := TryMarkClosed();
      if !winner {
        return None;
      }
      while active > 0
        invariant active >= 0 && closed && clientCloses == old(clientCloses)
      {
        active := active - 1;
      }
      CloseClient();
      return clientErr;
    }

    /**
      `Start` against a sequence of turns; `None` when it is still looping after the last one. It ends only
      at a turn whose context is done: being closed meanwhile does not end it, not even when that happens
      between its closed check and its registration, which are not one lock section.
      */
    method Start(closedInGap: bool, turns: seq<Turn>) returns (result: Option<Exit>)
      modifies this
      ensures old(closed) ==> result == Some(ErrClosed) && active == old(active)
      ensures !old(closed) && result.None? ==> active == old(active) + 1 && forall t | t in turns ::
                !t.doneBefore && !(t.failed && t.doneAfter)
      ensures !old(closed) && result.Some? ==>
                && result == Some(Cause) && active == old(active)
                && exists i | 0 <= i < |turns| ::
                     && (turns[i].doneBefore || (turns[i].failed && turns[i].doneAfter))
                     && forall j | 0 <= j < i :: !turns[j].doneBefore && !(turns[j].failed && turns[j].doneAfter)
    {
      if closed {
        return Some(ErrClosed);
      }
      if closedInGap {
        closed := true;  // by a concurrent `Close`
      }
      active := active + 1;
      for i := 0 to |turns|
        invariant active == old(active) + 1 && forall j | 0 <= j < i ::
          !turns[j].doneBefore && !(turns[j].failed && turns[j].doneAfter)
      {
        if turns[i].doneBefore {
          active := active - 1;
          return Some(Cause);
        }
        if turns[i].closed {
          closed := true;  // by a concurrent `Close`
        }
        if turns[i].failed {
          if turns[i].doneAfter {
            active := active - 1;
            return Some(Cause);
          }
        }
      }
      return None;
    }
  }

  /** A turn of the loop and the steps of the interleaved model take the same way out, whatever the flag. */
  lemma TurnMatchesSteps(c: Caller, t: Turn)
    requires c.Start? && c.pc.AtContext?
    ensures var head := MoveStart(c.(done := t.doneBefore), t.closed);
            if t.doneBefore then head.pc.Leaving?
            else
              && head.pc.InConsume?
              && var back := head.(pc := if t.failed then AfterError else AtContext, done := t.doneAfter);
                 var next := if t.failed then MoveStart(back, t.closed) else back;
                 next.pc == if t.failed && t.doneAfter then Leaving else AtContext
  {
  }
}
