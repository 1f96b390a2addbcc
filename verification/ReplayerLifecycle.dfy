/**
  Shutdown of a `Replayer` (dlq/replayer.go, `ReplayWithFilter` and `Close`) under any number of
  concurrent callers, interleaved at the granularity of the mutex's sections.
  */
module ReplayerLifecycle {
  import opened GoStrings
  import opened Options
  import opened Replayers
  import opened Sequences

  /** How a `ReplayWithFilter` call returns. */
  datatype Exit = ErrClosed | Nil | Cause | Wrapped(err: GoString)

  datatype ReplayPC =
    | Called
    | AtContext
    | InConsume
    | AfterError(err: GoString)
    | ErrorCheck(failed: GoString)
    | OkCheck
    | Leaving(leaving: Exit)
    | Returned(exit: Exit)

  datatype ClosePC =
    | CloseCalled
    | ClosingGroup
    | Waiting(groupErr: Option<GoString>)
    | CloseReturned(winner: bool, result: Option<GoString>)

  /** What a loop last read: whether its context was live when it looked after an error, and the closed flag. */
  datatype Readings = Readings(live: Option<bool>, closed: Option<bool>)

  const UNREAD := Readings(None, None)

  /** `started` counts the `Consume` calls a replay loop started after the closed flag was set. */
  datatype Caller =
    | Replay(pc: ReplayPC, done: bool, lastErr: Option<GoString>, started: nat, read: Readings)
    | Close(cpc: ClosePC)

  datatype State = State(life: Life, callers: seq<Caller>)

  const INITIAL := State(NEW_LIFE, [])

  datatype Action =
    | CallReplay
    | CallClose
    | CancelContext(caller: nat)
    | Move(caller: nat)
    | ConsumeReturns(caller: nat, err: Option<GoString>)
    | GroupCloseReturns(caller: nat, err: Option<GoString>)

  predicate Enabled(st: State, a: Action) {
    match a
    case CallReplay => true
    case CallClose => true
    case CancelContext(i) => i < |st.callers| && st.callers[i].Replay?
    case Move(i) =>
      && i < |st.callers|
      && (match st.callers[i]
          case Replay(pc, _, _, _, _) => !pc.InConsume? && !pc.Returned?
          case Close(pc) => pc.CloseCalled? || (pc.Waiting? && st.life.active == 0))
    case ConsumeReturns(i, _) => i < |st.callers| && st.callers[i].Replay? && st.callers[i].pc.InConsume?
    case GroupCloseReturns(i, _) => i < |st.callers| && st.callers[i].Close? && st.callers[i].cpc.ClosingGroup?
  }

  /** The next position of a replay call that finds the closed flag at `closed`. */
  function MoveReplay(c: Caller, closed: bool): Caller
    requires c.Replay? && !c.pc.InConsume? && !c.pc.Returned?
  {
    match c.pc
    case Called => c.(pc := if closed then Returned(ErrClosed) else AtContext)
    case AtContext =>
      if c.done then c.(pc := Leaving(Cause))
      else c.(pc := InConsume, started := if closed then c.started + 1 else c.started)
    case AfterError(e) => c.(pc := if c.done then Leaving(Cause) else ErrorCheck(e))
    case ErrorCheck(e) => c.(pc := Leaving(if closed then Nil else Wrapped(e)))
    case OkCheck => c.(pc := if closed then Leaving(Nil) else AtContext)
    case Leaving(x) => c.(pc := Returned(x))
  }

  /** What the move reads, whatever it makes of it. */
  function Reading(c: Caller, closed: bool): Readings
    requires c.Replay?
  {
    match c.pc
    case AfterError(_) => c.read.(live := Some(!c.done))
    case ErrorCheck(_) => c.read.(closed := Some(closed))
    case OkCheck => c.read.(closed := Some(closed))
    case _ => c.read
  }

  function Next(st: State, a: Action): State
    requires Enabled(st, a)
  {
    match a
    case CallReplay => st.(callers := st.callers + [Replay(Called, false, None, 0, UNREAD)])
    case CallClose => st.(callers := st.callers + [Close(CloseCalled)])
    case CancelContext(i) => st.(callers := st.callers[i := st.callers[i].(done := true)])
    case Move(i) =>
      var c := st.callers[i];
      if c.Replay? then
        State(if c.pc.Called? then Register(st.life) else if c.pc.Leaving? then Release(st.life) else st.life,
              st.callers[i := MoveReplay(c, st.life.closed).(read := Reading(c, st.life.closed))])
      else if c.cpc.CloseCalled? then
        State(MarkClosed(st.life),
              st.callers[i := Close(if st.life.closed then CloseReturned(false, None) else ClosingGroup)])
      else
        st.(callers := st.callers[i := Close(CloseReturned(true, c.cpc.groupErr))])
    case ConsumeReturns(i, e) =>
      var pc := if e.Some? then AfterError(e.value) else OkCheck;
      st.(callers := st.callers[i := st.callers[i].(pc := pc, lastErr := e)])
    case GroupCloseReturns(i, e) => State(CloseGroup(st.life), st.callers[i := Close(Waiting(e))])
  }

  function Exec(st: State, acts: seq<Action>): Option<State> {
    if acts == [] then Some(st) else
      var n := |acts| - 1;
      var mid := Exec(st, acts[..n]);
      if mid.Some? && Enabled(mid.value, acts[n]) then Some(Next(mid.value, acts[n])) else None
  }

  // ---- Invariant -----------------------------------------------------------------------------

  /** The call has registered with the wait group and not yet left it. */
  predicate Active(c: Caller) {
    c.Replay? && !c.pc.Called? && !c.pc.Returned?
  }

  predicate Winner(c: Caller) {
    c.Close? && (c.cpc.ClosingGroup? || c.cpc.Waiting? || (c.cpc.CloseReturned? && c.cpc.winner))
  }

  predicate GroupClosed(c: Caller) {
    Winner(c) && !c.cpc.ClosingGroup?
  }

  predicate WinnerReturned(c: Caller) {
    c.Close? && c.cpc.CloseReturned? && c.cpc.winner
  }

  function IsActive(c: Caller): int { One(Active(c)) }
  function IsWinner(c: Caller): int { One(Winner(c)) }
  function IsGroupClosed(c: Caller): int { One(GroupClosed(c)) }

  /** The result a replay call is about to return, or has returned. */
  function ResultOf(pc: ReplayPC): Option<Exit> {
    if pc.Leaving? then Some(pc.leaving) else if pc.Returned? then Some(pc.exit) else None
  }

  /** Why a call may return what it returns. */
  predicate Justified(c: Caller, closed: bool) {
    c.Replay? ==>
      && (c.pc.AfterError? ==> c.lastErr == Some(c.pc.err))
      && (c.pc.ErrorCheck? ==> c.lastErr == Some(c.pc.failed) && c.read.live == Some(true))
      && var result := ResultOf(c.pc);
         result.Some? ==>
           && (result.value.Nil? || result.value.ErrClosed? ==> closed)
           && (result.value.Cause? ==> c.done)
           && (result.value.Nil? ==> c.read.closed == Some(true))
           && (result.value.Wrapped? ==>
                 c.lastErr == Some(result.value.err) && c.read == Readings(Some(true), Some(false)))
  }

  /** After the closed flag is set a loop starts at most one more `Consume`, and none from its head after that. */
  predicate LastConsume(c: Caller, closed: bool) {
    c.Replay? ==> c.started <= 1 && (c.started == 1 ==> closed && !c.pc.Called? && !c.pc.AtContext?)
  }

  ghost predicate SumInv(st: State) {
    && st.life.active == Sum(st.callers, IsActive)
    && Sum(st.callers, IsWinner) == (if st.life.closed then 1 else 0)
    && Sum(st.callers, IsGroupClosed) == st.life.groupCloses
  }

  /** Of single callers: a returned winner has seen every loop off, and results are justified. */
  ghost predicate CallerInv(l: Life, c: Caller) {
    && (Winner(c) ==> l.closed)
    && (WinnerReturned(c) ==> l.active == 0)
    && Justified(c, l.closed) && LastConsume(c, l.closed)
  }

  ghost predicate Inv(st: State) {
    SumInv(st) && forall c | c in st.callers :: CallerInv(st.life, c)
  }

  /** How the three sums change when caller `i` becomes `c`. */
  lemma Replaced(callers: seq<Caller>, i: nat, c: Caller)
    requires i < |callers|
    ensures Sum(callers[i := c], IsActive) == Sum(callers, IsActive) - One(Active(callers[i])) + One(Active(c))
    ensures Sum(callers[i := c], IsWinner) == Sum(callers, IsWinner) - One(Winner(callers[i])) + One(Winner(c))
    ensures Sum(callers[i := c], IsGroupClosed)
         == Sum(callers, IsGroupClosed) - One(GroupClosed(callers[i])) + One(GroupClosed(c))
  {
    SumUpdate(callers, i, c, IsActive);
    SumUpdate(callers, i, c, IsWinner);
    SumUpdate(callers, i, c, IsGroupClosed);
  }

  lemma Added(callers: seq<Caller>, c: Caller)
    requires !Active(c) && !Winner(c)
    ensures Sum(callers + [c], IsActive) == Sum(callers, IsActive)
    ensures Sum(callers + [c], IsWinner) == Sum(callers, IsWinner)
    ensures Sum(callers + [c], IsGroupClosed) == Sum(callers, IsGroupClosed)
  {
    SumAppend(callers, c, IsActive);
    SumAppend(callers, c, IsWinner);
    SumAppend(callers, c, IsGroupClosed);
  }

  /** The counter is positive exactly while some loop is registered. */
  lemma ActiveCounted(st: State)
    requires SumInv(st)
    ensures st.life.active >= 0
    ensures st.life.active == 0 <==> forall c | c in st.callers :: !Active(c)
  {
    SumBounds(st.callers, IsActive);
    if forall c | c in st.callers :: !Active(c) {
      SumZero(st.callers, IsActive);
    } else {
      var c :| c in st.callers && Active(c);
      assert IsActive(c) == 1;
    }
  }

  lemma MoveKeepsSums(st: State, i: nat)
    requires SumInv(st) && Enabled(st, Move(i))
    ensures SumInv(Next(st, Move(i)))
  {
    var c, st' := st.callers[i], Next(st, Move(i));
    Replaced(st.callers, i, st'.callers[i]);
    assert st'.callers == st.callers[i := st'.callers[i]];
  }

  lemma StepKeepsSums(st: State, a: Action)
    requires SumInv(st) && Enabled(st, a)
    ensures SumInv(Next(st, a))
  {
    match a
    case CallReplay => Added(st.callers, Replay(Called, false, None, 0, UNREAD));
    case CallClose => Added(st.callers, Close(CloseCalled));
    case Move(i) => MoveKeepsSums(st, i);
    case _ =>
      var c' := Next(st, a).callers[a.caller];
      Replaced(st.callers, a.caller, c');
      assert Next(st, a).callers == st.callers[a.caller := c'];
  }

  /** What one step does to the shared state, as far as other callers can tell. */
  lemma StepOnLife(st: State, a: Action)
    requires Inv(st) && Enabled(st, a)
    ensures var l, l' := st.life, Next(st, a).life;
            && (l.closed ==> l'.closed)
            && (l.closed ==> l'.active <= l.active)
            && (l.active == 0 && l.closed ==> l'.active == 0)
  {
    if a.Move? && st.callers[a.caller].Replay? && st.callers[a.caller].pc.Leaving? {
      assert st.callers[a.caller] in st.callers;
      ActiveCounted(st);
    }
  }

  lemma MoverKeepsInv(st: State, a: Action)
    requires Inv(st) && Enabled(st, a) && !a.CallReplay? && !a.CallClose?
    ensures CallerInv(Next(st, a).life, Next(st, a).callers[a.caller])
  {
    var c := st.callers[a.caller];
    assert c in st.callers;
    assert CallerInv(st.life, c);
  }

  lemma StepKeepsCallerInv(st: State, a: Action, c: Caller)
    requires Inv(st) && Enabled(st, a) && c in Next(st, a).callers
    ensures CallerInv(Next(st, a).life, c)
  {
    if c in st.callers {
      assert CallerInv(st.life, c);
      StepOnLife(st, a);
    } else if !a.CallReplay? && !a.CallClose? {
      MoverKeepsInv(st, a);
    }
  }

  lemma StepKeepsInv(st: State, a: Action)
    requires Inv(st) && Enabled(st, a)
    ensures Inv(Next(st, a))
  {
    StepKeepsSums(st, a);
    forall c | c in Next(st, a).callers ensures CallerInv(Next(st, a).life, c) {
      StepKeepsCallerInv(st, a, c);
    }
  }

  lemma {:induction false} RunKeepsInv(acts: seq<Action>)
    requires Exec(INITIAL, acts).Some?
    ensures Inv(Exec(INITIAL, acts).value)
  {
    if acts != [] {
      var n := |acts| - 1;
      RunKeepsInv(acts[..n]);
      StepKeepsInv(Exec(INITIAL, acts[..n]).value, acts[n]);
    }
  }

  // ---- Safety --------------------------------------------------------------------------------

  /** No call registers with the wait group once the closed flag is set: the counter only falls. */
  lemma NoAddAfterClosed(st: State, a: Action)
    requires Inv(st) && Enabled(st, a) && st.life.closed
    ensures Next(st, a).life.closed && Next(st, a).life.active <= st.life.active
    ensures forall i | 0 <= i < |st.callers| :: Active(Next(st, a).callers[i]) ==> Active(st.callers[i])
  {
  }

  /**
    In every reachable state the consumer group has been closed at most once, and once before anybody waits
    for the loops; and if the `Close` call that closed it has returned, no replay loop is registered. As that
    holds of all later states too, no loop ever becomes active again.
    */
  lemma ShutdownIsSafe(acts: seq<Action>)
    requires Exec(INITIAL, acts).Some?
    ensures var st := Exec(INITIAL, acts).value;
            && st.life.groupCloses <= 1
            && (forall c | c in st.callers && c.Close? && (c.cpc.Waiting? || WinnerReturned(c)) ::
                  st.life.groupCloses == 1)
            && (forall c, d | c in st.callers && d in st.callers && WinnerReturned(c) :: !Active(d))
  {
    RunKeepsInv(acts);
    var st := Exec(INITIAL, acts).value;
    SumMonotone(st.callers, IsGroupClosed, IsWinner);
    ActiveCounted(st);
    SumBounds(st.callers, IsGroupClosed);
    assert forall c | c in st.callers && c.Close? && (c.cpc.Waiting? || WinnerReturned(c)) :: IsGroupClosed(c) == 1;
  }

  lemma StepKeepsReturned(st: State, a: Action, i: nat)
    requires Enabled(st, a) && i < |st.callers| && WinnerReturned(st.callers[i])
    ensures Next(st, a).callers[i] == st.callers[i]
  {
  }

  lemma {:induction false} StaysReturned(acts: seq<Action>, more: seq<Action>, i: nat)
    requires Exec(INITIAL, acts).Some? && i < |Exec(INITIAL, acts).value.callers|
    requires WinnerReturned(Exec(INITIAL, acts).value.callers[i]) && Exec(INITIAL, acts + more).Some?
    ensures var end := Exec(INITIAL, acts + more).value;
            i < |end.callers| && WinnerReturned(end.callers[i])
  {
    if more == [] {
      assert acts + more == acts;
    } else {
      var n := |more| - 1;
      assert (acts + more)[..|acts + more| - 1] == acts + more[..n];
      StaysReturned(acts, more[..n], i);
      StepKeepsReturned(Exec(INITIAL, acts + more[..n]).value, more[n], i);
    }
  }

  /** Once the winning `Close` has returned, no continuation of the run has an active loop. */
  lemma QuiescentForever(acts: seq<Action>, more: seq<Action>, i: nat)
    requires Exec(INITIAL, acts).Some? && i < |Exec(INITIAL, acts).value.callers|
    requires WinnerReturned(Exec(INITIAL, acts).value.callers[i]) && Exec(INITIAL, acts + more).Some?
    ensures var end := Exec(INITIAL, acts + more).value;
            && i < |end.callers| && WinnerReturned(end.callers[i])
            && forall c | c in end.callers :: !Active(c)
  {
    StaysReturned(acts, more, i);
    ShutdownIsSafe(acts + more);
    var end := Exec(INITIAL, acts + more).value;
    assert end.callers[i] in end.callers;
  }

  /**
    A loop returns nil only when it read the closed flag as set, and the context's cause only when the context
    is done. A wrapped error is that of its last `Consume`, after which it found the context live and then the
    flag clear.
    */
  lemma ResultsAreJustified(acts: seq<Action>, c: Caller)
    requires Exec(INITIAL, acts).Some? && c in Exec(INITIAL, acts).value.callers && c.Replay? && ResultOf(c.pc).Some?
    ensures var result, closed := ResultOf(c.pc).value, Exec(INITIAL, acts).value.life.closed;
            match result
            case ErrClosed => closed
            case Nil => closed && c.read.closed == Some(true)
            case Cause => c.done
            case Wrapped(e) => c.lastErr == Some(e) && c.read == Readings(Some(true), Some(false))
  {
    RunKeepsInv(acts);
    assert CallerInv(Exec(INITIAL, acts).value.life, c);
  }

  // ---- Progress ------------------------------------------------------------------------------

  /** How many more steps a loop can take once the closed flag is set. */
  function Remaining(pc: ReplayPC): nat {
    match pc
    case Called => 0
    case AtContext => 5
    case InConsume => 4
    case AfterError(_) => 3
    case ErrorCheck(_) => 2
    case OkCheck => 2
    case Leaving(_) => 1
    case Returned(_) => 0
  }

  function Rank(c: Caller): int {
    if c.Replay? then Remaining(c.pc) else 0
  }

  /** A step of a registered replay loop, including the return of its `Consume`. */
  predicate LoopStep(st: State, a: Action) {
    (a.Move? || a.ConsumeReturns?) && a.caller < |st.callers| && Active(st.callers[a.caller])
  }

  /** After closing, every step of a loop lowers the total rank, and no other step raises it. */
  lemma LoopStepsLowerRank(st: State, a: Action)
    requires Enabled(st, a) && st.life.closed
    ensures Sum(Next(st, a).callers, Rank) <= Sum(st.callers, Rank) - if LoopStep(st, a) then 1 else 0
  {
    var st' := Next(st, a);
    if a.CallReplay? || a.CallClose? {
      SumAppend(st.callers, st'.callers[|st.callers|], Rank);
    } else {
      SumUpdate(st.callers, a.caller, st'.callers[a.caller], Rank);
      assert st'.callers == st.callers[a.caller := st'.callers[a.caller]];
    }
  }

  function LoopSteps(st: State, acts: seq<Action>): nat
    requires Exec(st, acts).Some?
  {
    if acts == [] then 0 else
      var n := |acts| - 1;
      LoopSteps(st, acts[..n]) + if LoopStep(Exec(st, acts[..n]).value, acts[n]) then 1 else 0
  }

  /** However the callers interleave, the loops take no more steps than their total rank at closing. */
  lemma {:induction false} LoopStepsBounded(st: State, acts: seq<Action>)
    requires st.life.closed && Exec(st, acts).Some?
    ensures Exec(st, acts).value.life.closed
    ensures LoopSteps(st, acts) + Sum(Exec(st, acts).value.callers, Rank) <= Sum(st.callers, Rank)
  {
    if acts != [] {
      var n := |acts| - 1;
      LoopStepsBounded(st, acts[..n]);
      LoopStepsLowerRank(Exec(st, acts[..n]).value, acts[n]);
    }
  }

  /**
    While any loop is registered, one of them can step, if `Consume` returns when called upon; once none
    is, the wait of the `Close` that set the flag can pass. With the bound on loop steps, every run in
    which loops keep stepping releases that `Close`.
    */
  lemma WaitIsReleased(acts: seq<Action>)
    requires Exec(INITIAL, acts).Some?
    ensures var st := Exec(INITIAL, acts).value;
            && (st.life.active > 0 ==> exists a :: Enabled(st, a) && LoopStep(st, a))
            && (st.life.active == 0 ==>
                  forall i | 0 <= i < |st.callers| && st.callers[i].Close? && st.callers[i].cpc.Waiting? ::
                    Enabled(st, Move(i)))
  {
    RunKeepsInv(acts);
    var st := Exec(INITIAL, acts).value;
    ActiveCounted(st);
    if st.life.active > 0 {
      var i :| 0 <= i < |st.callers| && Active(st.callers[i]);
      var a := if st.callers[i].pc.InConsume? then ConsumeReturns(i, None) else Move(i);
      assert Enabled(st, a) && LoopStep(st, a);
    }
  }

  /** After the closed flag is set, no loop starts more than one further `Consume`. */
  lemma OneLastConsume(acts: seq<Action>, c: Caller)
    requires Exec(INITIAL, acts).Some? && c in Exec(INITIAL, acts).value.callers && c.Replay?
    ensures c.started <= 1
  {
    RunKeepsInv(acts);
    assert CallerInv(Exec(INITIAL, acts).value.life, c);
  }

  // ---- When Close waits ----------------------------------------------------------------------

  /** If call `i`, a `Close`, has returned, no loop is registered. */
  ghost predicate WaitedFor(st: State, i: nat) {
    i < |st.callers| && st.callers[i].Close? && st.callers[i].cpc.CloseReturned? ==>
      forall c | c in st.callers :: !Active(c)
  }

  ghost predicate WaitedAfter(st: State, more: seq<Action>, i: nat) {
    Exec(st, more).Some? ==> WaitedFor(Exec(st, more).value, i)
  }

  /** The flag is set, and call `i` set it or no loop is registered any more. */
  ghost predicate Settled(st: State, i: nat) {
    Inv(st) && st.life.closed && i < |st.callers| && (Winner(st.callers[i]) || st.life.active == 0)
  }

  lemma StepKeepsSettled(st: State, a: Action, i: nat)
    requires Settled(st, i) && Enabled(st, a)
    ensures Settled(Next(st, a), i)
  {
    StepKeepsInv(st, a);
    StepOnLife(st, a);
  }

  lemma {:induction false} SettledForever(st: State, more: seq<Action>, i: nat)
    requires Settled(st, i) && Exec(st, more).Some?
    ensures Settled(Exec(st, more).value, i)
  {
    if more != [] {
      var n := |more| - 1;
      SettledForever(st, more[..n], i);
      StepKeepsSettled(Exec(st, more[..n]).value, more[n], i);
    }
  }

  lemma SettledWaits(st: State, i: nat)
    requires Settled(st, i)
    ensures WaitedFor(st, i)
  {
    ActiveCounted(st);
    assert st.callers[i] in st.callers;
    assert CallerInv(st.life, st.callers[i]);
  }

  /**
    Exactly when a `Close` keeps its promise to wait: in no continuation does it return while a loop is
    registered, if and only if it finds the flag clear or no loop registered.
    */
  lemma CloseWaitsExactly(acts: seq<Action>, i: nat)
    requires Exec(INITIAL, acts).Some? && i < |Exec(INITIAL, acts).value.callers|
    requires Exec(INITIAL, acts).value.callers[i] == Close(CloseCalled)
    ensures var st := Exec(INITIAL, acts).value;
            (forall more :: WaitedAfter(Next(st, Move(i)), more, i)) <==> !st.life.closed || st.life.active == 0
  {
    RunKeepsInv(acts);
    var st := Exec(INITIAL, acts).value;
    var next := Next(st, Move(i));
    StepKeepsInv(st, Move(i));
    if !st.life.closed || st.life.active == 0 {
      forall more | Exec(next, more).Some? ensures WaitedAfter(next, more, i) {
        SettledForever(next, more, i);
        SettledWaits(Exec(next, more).value, i);
      }
    } else {
      var none: seq<Action> := [];
      ActiveCounted(next);
      assert Exec(next, none) == Some(next) && !WaitedFor(next, i);
      assert !WaitedAfter(next, none, i);
    }
  }

  lemma Extend(acts: seq<Action>, st: State, a: Action, next: State) returns (more: seq<Action>)
    requires Exec(INITIAL, acts) == Some(st) && Enabled(st, a) && Next(st, a) == next
    ensures Exec(INITIAL, more) == Some(next)
  {
    more := acts + [a];
    assert more[..|acts|] == acts;
  }

  lemma LoopRuns() returns (acts: seq<Action>)
    ensures Exec(INITIAL, acts) == Some(State(Life(false, 1, 0), [Replay(AtContext, false, None, 0, UNREAD)]))
  {
    var s1 := State(NEW_LIFE, [Replay(Called, false, None, 0, UNREAD)]);
    acts := Extend([], INITIAL, CallReplay, s1);
    acts := Extend(acts, s1, Move(0), State(Life(false, 1, 0), [Replay(AtContext, false, None, 0, UNREAD)]));
  }

  /** The other case is real: a second `Close` may return while a loop is still registered. */
  lemma SecondCloseDoesNotWait() returns (acts: seq<Action>)
    ensures Exec(INITIAL, acts).Some?
    ensures var callers := Exec(INITIAL, acts).value.callers;
            |callers| == 3 && Active(callers[0]) && callers[2] == Close(CloseReturned(false, None))
  {
    var looping := Replay(AtContext, false, None, 0, UNREAD);
    acts := LoopRuns();
    var s2, s3 := State(Life(false, 1, 0), [looping]), State(Life(false, 1, 0), [looping, Close(CloseCalled)]);
    acts := Extend(acts, s2, CallClose, s3);
    var s4 := State(Life(true, 1, 0), [looping, Close(ClosingGroup)]);
    acts := Extend(acts, s3, Move(1), s4);
    var s5 := s4.(callers := s4.callers + [Close(CloseCalled)]);
    acts := Extend(acts, s4, CallClose, s5);
    acts := Extend(acts, s5, Move(2), s4.(callers := s4.callers + [Close(CloseReturned(false, None))]));
  }

  // ---- The loop as code ----------------------------------------------------------------------

  /**
    What one turn of a replay loop meets: the context at its head, the result of `Consume`, the context
    after an error, and whether the closed flag has been set by the time the loop reads it.
    */
  datatype Turn = Turn(doneBefore: bool, consumed: Option<GoString>, doneAfter: bool, closed: bool)

  /** How a turn ends the loop, if it does. */
  function TurnExit(t: Turn): Option<Exit> {
    if t.doneBefore then Some(Cause)
    else if t.consumed.Some? then
      Some(if t.doneAfter then Cause else if t.closed then Nil else Wrapped(t.consumed.value))
    else if t.closed then Some(Nil)
    else None
  }

  /** When a turn ends the loop, and how, from what it meets. */
  lemma TurnExitExactly(t: Turn)
    ensures TurnExit(t) == None <==> !t.doneBefore && t.consumed.None? && !t.closed
    ensures TurnExit(t) == Some(Cause) <==> t.doneBefore || (t.consumed.Some? && t.doneAfter)
    ensures TurnExit(t) == Some(Nil) <==> !t.doneBefore && t.closed && (t.consumed.None? || !t.doneAfter)
    ensures forall e :: TurnExit(t) == Some(Wrapped(e))
                   <==> !t.doneBefore && t.consumed == Some(e) && !t.doneAfter && !t.closed
  {
  }

  /** `ReplayWithFilter` against a sequence of turns; `None` when it is still looping after the last one. */
  method ReplayWithFilter(r: Replayer, turns: seq<Turn>) returns (result: Option<Exit>)
    modifies r
    ensures old(r.closed) ==> result == Some(ErrClosed) && r.View() == old(r.View())
    ensures !old(r.closed) && result.None? ==>
              r.active == old(r.active) + 1 && forall t | t in turns :: TurnExit(t).None?
    ensures !old(r.closed) && result.Some? ==>
              && r.active == old(r.active)
              && exists i | 0 <= i < |turns| ::
                   TurnExit(turns[i]) == result && forall j | 0 <= j < i :: TurnExit(turns[j]).None?
    ensures result == Some(Nil) ==> r.closed
    ensures r.groupCloses == old(r.groupCloses) && r.stats == old(r.stats)
  {
    var ok := r.TryRegister();
    if !ok {
      return Some(ErrClosed);
    }
    for i := 0 to |turns|
      invariant r.active == old(r.active) + 1 && !r.closed
      invariant r.groupCloses == old(r.groupCloses) && r.stats == old(r.stats)
      invariant forall j | 0 <= j < i :: TurnExit(turns[j]).None?
    {
      if turns[i].doneBefore {
        r.Done();
        return Some(Cause);
      }
      var err := turns[i].consumed;
      if turns[i].closed {
        r.closed := true;  // by a concurrent `Close`
      }
      if err.Some? {
        if turns[i].doneAfter {
          r.Done();
          return Some(Cause);
        }
        if r.closed {
          r.Done();
          return Some(Nil);
        }
        r.Done();
        return Some(Wrapped(err.value));
      }
      if r.closed {
        r.Done();
        return Some(Nil);
      }
    }
    return None;
  }

  /** A turn of the loop and the steps of the interleaved model take the same way out. */
  lemma TurnMatchesSteps(c: Caller, t: Turn)
    requires c.Replay? && c.pc.AtContext?
    ensures var head := MoveReplay(c.(done := t.doneBefore), t.closed);
            if t.doneBefore then ResultOf(head.pc) == TurnExit(t)
            else
              && head.pc.InConsume?
              && var pc := if t.consumed.Some? then AfterError(t.consumed.value) else OkCheck;
                 var back := head.(pc := pc, done := t.doneAfter);
                 var next := MoveReplay(back, t.closed);
                 var last := if next.pc.ErrorCheck? then MoveReplay(next, t.closed) else next;
                 ResultOf(last.pc) == TurnExit(t) && (TurnExit(t).None? ==> last.pc.AtContext?)
  {
  }
}
