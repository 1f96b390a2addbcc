/**
  Any number of `PublishBatch` calls interleaved with each other and with `Close` (producer/producer.go).
  The closed flag is read under the lock before each send, and the send happens after the lock is released.
  */
module PublishingLifecycle {
  import opened GoStrings
  import opened Options
  import opened Envelopes
  import opened Records
  import opened Sequences
  import opened Topics
  import opened Publishing

  datatype Outcome = Complete | Stopped(index: nat, cause: PublishError)

  /**
    A batch at item `i`; `checked` once the item has passed its closed check. `late` counts its calls of the
    broker after closing, and `refused` says whether the broker refused the last call.
    */
  datatype Batch = Batch(items: seq<Item>, i: nat, checked: bool, outcome: Option<Outcome>, late: nat, refused: bool)

  /** A record the broker accepted, and the batch it came from. */
  datatype Shipment = Shipment(batch: nat, record: Record)

  datatype State = State(closed: bool, closes: nat, sent: seq<Shipment>, batches: seq<Batch>)

  const INITIAL := State(false, 0, [], [])

  datatype Action =
    | Open(items: seq<Item>)
    | Check(batch: nat)
    | Send(batch: nat, accepts: bool)
    | Close

  predicate Enabled(st: State, a: Action) {
    match a
    case Open(_) => true
    case Check(k) =>
      k < |st.batches| && var b := st.batches[k]; b.outcome.None? && !b.checked && b.i <= |b.items|
    case Send(k, _) =>
      k < |st.batches| && var b := st.batches[k]; b.outcome.None? && b.checked && b.i < |b.items|
    case Close => true
  }

  /** The head of a turn of the batch loop, up to the end of the lock section. */
  function AfterCheck(b: Batch, closed: bool): Batch
    requires b.i <= |b.items|
  {
    if b.i == |b.items| then b.(outcome := Some(Complete))
    else if Unroutable(b.items[b.i]).Some? then b.(outcome := Some(Stopped(b.i, Unroutable(b.items[b.i]).value)))
    else if closed then b.(outcome := Some(Stopped(b.i, ProducerClosed)))
    else b.(checked := true)
  }

  /** The item gets as far as the broker, whether it accepts or refuses. */
  predicate CallsBroker(marshal: Marshal, item: Item) {
    Encodable(marshal, item)
  }

  /** The rest of the turn: validation, encoding and the send. */
  function AfterSend(marshal: Marshal, b: Batch, closed: bool, accepts: bool): Batch
    requires b.i < |b.items|
  {
    var err := SendError(marshal, b.items[b.i], false, accepts);
    var called := CallsBroker(marshal, b.items[b.i]);
    var b' := b.(checked := false, late := if closed && called then b.late + 1 else b.late,
                 refused := called && !accepts);
    if err.Some? then b'.(outcome := Some(Stopped(b.i, err.value))) else b'.(i := b.i + 1)
  }

  function Next(marshal: Marshal, st: State, a: Action): State
    requires Enabled(st, a)
  {
    match a
    case Open(items) => st.(batches := st.batches + [Batch(items, 0, false, None, 0, false)])
    case Check(k) => st.(batches := st.batches[k := AfterCheck(st.batches[k], st.closed)])
    case Send(k, accepts) =>
      var b := st.batches[k];
      var record := RecordFor(marshal, b.items[b.i]);
      st.(batches := st.batches[k := AfterSend(marshal, b, st.closed, accepts)],
          sent := st.sent + if SendError(marshal, b.items[b.i], false, accepts).None? && record.Some?
                            then [Shipment(k, record.value)] else [])
    case Close => st.(closed := true, closes := if st.closed then st.closes else st.closes + 1)
  }

  function Exec(marshal: Marshal, st: State, acts: seq<Action>): Option<State> {
    if acts == [] then Some(st) else
      var n := |acts| - 1;
      var mid := Exec(marshal, st, acts[..n]);
      if mid.Some? && Enabled(mid.value, acts[n]) then Some(Next(marshal, mid.value, acts[n])) else None
  }

  // ---- Invariant -----------------------------------------------------------------------------

  /** The records batch `k` got accepted, in order. */
  function SentBy(sent: seq<Shipment>, k: nat): seq<Record> {
    if sent == [] then [] else
      var last := sent[|sent| - 1];
      SentBy(sent[..|sent| - 1], k) + if last.batch == k then [last.record] else []
  }

  lemma SentByGrows(sent: seq<Shipment>, s: Shipment, k: nat)
    ensures SentBy(sent + [s], k) == SentBy(sent, k) + if s.batch == k then [s.record] else []
  {
    assert (sent + [s])[..|sent|] == sent;
  }

  /** The error for the item: the flag was set, the broker refused, or the item cannot be sent for that reason. */
  ghost predicate Explains(marshal: Marshal, item: Item, closed: bool, refused: bool, err: PublishError) {
    match err
    case ProducerClosed => closed && item.env.Some? && ForEventType(item.env.value.eventType) != ""
    case SendFailed => refused && Sendable(marshal, item)
    case _ => ItemResult(marshal, item, false, true, Some(err))
  }

  ghost predicate BatchInv(marshal: Marshal, closed: bool, b: Batch) {
    && b.i <= |b.items|
    && (forall j | 0 <= j < b.i :: Sendable(marshal, b.items[j]))
    && (b.checked ==> b.outcome.None? && b.i < |b.items| && Unroutable(b.items[b.i]).None?)
    && (b.outcome == Some(Complete) ==> b.i == |b.items|)
    && (b.outcome.Some? && b.outcome.value.Stopped? ==>
          && b.outcome.value.index == b.i < |b.items|
          && Explains(marshal, b.items[b.i], closed, b.refused, b.outcome.value.cause))
    && b.late <= 1 && (b.late == 1 ==> closed && !b.checked)
  }

  /** Batch `k` got accepted what it has gone past. */
  ghost predicate Ships(marshal: Marshal, sent: seq<Shipment>, k: nat, b: Batch) {
    b.i <= |b.items| && SentBy(sent, k) == RecordsFor(marshal, b.items[..b.i])
  }

  ghost predicate Inv(marshal: Marshal, st: State) {
    && st.closes == (if st.closed then 1 else 0)
    && (forall s | s in st.sent :: s.batch < |st.batches|)
    && forall k | 0 <= k < |st.batches| ::
         && BatchInv(marshal, st.closed, st.batches[k])
         && Ships(marshal, st.sent, k, st.batches[k])
  }

  lemma {:induction false} NothingSentBy(sent: seq<Shipment>, k: nat)
    requires forall s | s in sent :: s.batch != k
    ensures SentBy(sent, k) == []
  {
    if sent != [] {
      NothingSentBy(sent[..|sent| - 1], k);
    }
  }

  lemma CheckKeepsInv(marshal: Marshal, closed: bool, b: Batch)
    requires BatchInv(marshal, closed, b) && b.outcome.None? && !b.checked
    ensures BatchInv(marshal, closed, AfterCheck(b, closed))
  {
    if b.i < |b.items| {
      ResultsExactly(marshal, b.items[b.i], false, true);
    }
  }

  /** The error of a send explains why the batch stops there. */
  lemma SendErrorExplained(marshal: Marshal, item: Item, closed: bool, accepts: bool)
    requires Unroutable(item).None?
    ensures var err := SendError(marshal, item, false, accepts);
            if err.None? then Sendable(marshal, item) && accepts
            else Explains(marshal, item, closed, CallsBroker(marshal, item) && !accepts, err.value)
  {
    ResultsExactly(marshal, item, false, true);
  }

  lemma SendKeepsInv(marshal: Marshal, closed: bool, b: Batch, accepts: bool)
    requires BatchInv(marshal, closed, b) && b.outcome.None? && b.checked
    ensures BatchInv(marshal, closed, AfterSend(marshal, b, closed, accepts))
  {
    SendErrorExplained(marshal, b.items[b.i], closed, accepts);
  }

  lemma ClosingKeepsInv(marshal: Marshal, b: Batch, closed: bool)
    requires BatchInv(marshal, closed, b)
    ensures BatchInv(marshal, true, b)
  {
  }

  lemma SendMakesRecord(marshal: Marshal, item: Item, accepts: bool)
    requires SendError(marshal, item, false, accepts).None?
    ensures RecordFor(marshal, item).Some?
  {
  }

  /** A send either ships the item and moves on, or leaves both as they are. */
  lemma SendEffect(marshal: Marshal, st: State, k: nat, accepts: bool)
    requires Enabled(st, Send(k, accepts))
    ensures var st', b := Next(marshal, st, Send(k, accepts)), st.batches[k];
            var record := RecordFor(marshal, b.items[b.i]);
            && st'.batches[k].items == b.items
            && (forall n | 0 <= n < |st.batches| && n != k :: st'.batches[n] == st.batches[n])
            && if SendError(marshal, b.items[b.i], false, accepts).None? then
                 && record.Some? && st'.sent == st.sent + [Shipment(k, record.value)] && st'.batches[k].i == b.i + 1
               else st'.sent == st.sent && st'.batches[k].i == b.i
  {
    var b := st.batches[k];
    if SendError(marshal, b.items[b.i], false, accepts).None? {
      SendMakesRecord(marshal, b.items[b.i], accepts);
    } else {
      AppendEmpty(st.sent);
    }
  }

  lemma ShipmentGrows(
      marshal: Marshal, sent: seq<Shipment>, k: nat, b: Batch, record: Record, n: nat, other: Batch)
    requires b.i < |b.items| && RecordFor(marshal, b.items[b.i]) == Some(record)
    requires Ships(marshal, sent, k, b) && Ships(marshal, sent, n, other)
    ensures Ships(marshal, sent + [Shipment(k, record)], k, b.(i := b.i + 1))
    ensures n != k ==> Ships(marshal, sent + [Shipment(k, record)], n, other)
  {
    RecordsGrow(marshal, b.items, b.i, record);
    SentByGrows(sent, Shipment(k, record), k);
    SentByGrows(sent, Shipment(k, record), n);
    AppendEmpty(SentBy(sent, n));
  }

  lemma SendKeepsShipments(marshal: Marshal, st: State, k: nat, accepts: bool, n: nat)
    requires Inv(marshal, st) && Enabled(st, Send(k, accepts)) && n < |st.batches|
    ensures var st' := Next(marshal, st, Send(k, accepts));
            Ships(marshal, st'.sent, n, st'.batches[n])
  {
    var b := st.batches[k];
    assert Ships(marshal, st.sent, n, st.batches[n]);
    SendEffect(marshal, st, k, accepts);
    if SendError(marshal, b.items[b.i], false, accepts).None? {
      ShipmentGrows(marshal, st.sent, k, b, RecordFor(marshal, b.items[b.i]).value, n, st.batches[n]);
    }
  }

  lemma SendStep(marshal: Marshal, st: State, k: nat, accepts: bool)
    requires Inv(marshal, st) && Enabled(st, Send(k, accepts))
    ensures Inv(marshal, Next(marshal, st, Send(k, accepts)))
  {
    var st', b := Next(marshal, st, Send(k, accepts)), st.batches[k];
    SendKeepsInv(marshal, st.closed, b, accepts);
    forall n | 0 <= n < |st'.batches| ensures Ships(marshal, st'.sent, n, st'.batches[n]) {
      SendKeepsShipments(marshal, st, k, accepts, n);
    }
  }

  lemma StepKeepsInv(marshal: Marshal, st: State, a: Action)
    requires Inv(marshal, st) && Enabled(st, a)
    ensures Inv(marshal, Next(marshal, st, a))
  {
    match a
    case Open(items) => NothingSentBy(st.sent, |st.batches|);
    case Check(k) => CheckKeepsInv(marshal, st.closed, st.batches[k]);
    case Send(k, accepts) => SendStep(marshal, st, k, accepts);
    case Close =>
      forall k | 0 <= k < |st.batches| ensures BatchInv(marshal, true, st.batches[k]) {
        ClosingKeepsInv(marshal, st.batches[k], st.closed);
      }
  }

  lemma {:induction false} RunKeepsInv(marshal: Marshal, acts: seq<Action>)
    requires Exec(marshal, INITIAL, acts).Some?
    ensures Inv(marshal, Exec(marshal, INITIAL, acts).value)
  {
    if acts != [] {
      var n := |acts| - 1;
      RunKeepsInv(marshal, acts[..n]);
      StepKeepsInv(marshal, Exec(marshal, INITIAL, acts[..n]).value, acts[n]);
    }
  }

  /** When nobody closes the producer in between, the two steps of a turn do what `Publish` does. */
  lemma TurnMatchesPublish(marshal: Marshal, b: Batch, closed: bool, accepts: bool)
    requires b.i < |b.items| && b.outcome.None? && !b.checked
    ensures var mid, err := AfterCheck(b, closed), ItemError(marshal, b.items[b.i], closed, accepts);
            var end := if mid.checked then AfterSend(marshal, mid, closed, accepts) else mid;
            if err.Some? then end.outcome == Some(Stopped(b.i, err.value)) && end.i == b.i
            else end.outcome.None? && !end.checked && end.i == b.i + 1
  {
  }

  // ---- What every run guarantees -------------------------------------------------------------

  /** A batch stops only at an item that cannot be sent, that the broker refused, or that found the flag set. */
  predicate StopsRightly(marshal: Marshal, b: Batch, closed: bool) {
    b.outcome.Some? && b.outcome.value.Stopped? ==>
      && b.i < |b.items|
      && (!Sendable(marshal, b.items[b.i]) || b.refused || (closed && b.outcome.value.cause.ProducerClosed?))
  }

  lemma StopIsRight(marshal: Marshal, closed: bool, b: Batch)
    requires BatchInv(marshal, closed, b)
    ensures StopsRightly(marshal, b, closed)
  {
  }

  /**
    What a batch got accepted is, whatever else was published or closed meanwhile, the records of its first
    items in order; each was valid and went to the topic of its type. A batch that reports an error at an
    index got exactly that many items accepted, and a batch that reports none got them all.
    */
  lemma BatchSendsAPrefix(marshal: Marshal, acts: seq<Action>, k: nat)
    requires Exec(marshal, INITIAL, acts).Some? && k < |Exec(marshal, INITIAL, acts).value.batches|
    ensures var st := Exec(marshal, INITIAL, acts).value;
            var b, sent := st.batches[k], SentBy(st.sent, k);
            && |sent| <= |b.items|
            && (forall j | 0 <= j < |sent| ::
                  && RecordFor(marshal, b.items[j]) == Some(sent[j])
                  && Publishable(b.items[j].env.value)
                  && sent[j].key == b.items[j].key && marshal(b.items[j].env.value) == Some(sent[j].value)
                  && sent[j].topic == ForEventType(b.items[j].env.value.eventType) != "")
            && (b.outcome == Some(Complete) ==> |sent| == |b.items|)
            && (b.outcome.Some? && b.outcome.value.Stopped? ==>
                  && |sent| == b.outcome.value.index < |b.items|
                  && Explains(marshal, b.items[|sent|], st.closed, b.refused, b.outcome.value.cause))
  {
    RunKeepsInv(marshal, acts);
    var st := Exec(marshal, INITIAL, acts).value;
    var b := st.batches[k];
    RecordsOfSendable(marshal, b.items[..b.i]);
  }

  /** In every run a batch stops only for such a reason. */
  lemma BatchStopsRightly(marshal: Marshal, acts: seq<Action>, k: nat)
    requires Exec(marshal, INITIAL, acts).Some? && k < |Exec(marshal, INITIAL, acts).value.batches|
    ensures var st := Exec(marshal, INITIAL, acts).value;
            StopsRightly(marshal, st.batches[k], st.closed)
  {
    RunKeepsInv(marshal, acts);
    var st := Exec(marshal, INITIAL, acts).value;
    StopIsRight(marshal, st.closed, st.batches[k]);
  }

  /** The producer is closed at most once, and after that every batch calls the broker at most once more. */
  lemma ClosingStopsBatches(marshal: Marshal, acts: seq<Action>, k: nat)
    requires Exec(marshal, INITIAL, acts).Some? && k < |Exec(marshal, INITIAL, acts).value.batches|
    ensures Exec(marshal, INITIAL, acts).value.closes <= 1 && Exec(marshal, INITIAL, acts).value.batches[k].late <= 1
  {
    RunKeepsInv(marshal, acts);
  }

  /** The step is a call of the broker for batch `k`, accepted or refused. */
  predicate IsCallOf(marshal: Marshal, st: State, a: Action, k: nat)
    requires Enabled(st, a)
  {
    a.Send? && a.batch == k && CallsBroker(marshal, st.batches[k].items[st.batches[k].i])
  }

  /** How often `acts` call the broker for batch `k`. */
  function CallsOf(marshal: Marshal, st: State, acts: seq<Action>, k: nat): nat
    requires Exec(marshal, st, acts).Some?
  {
    if acts == [] then 0 else
      var n := |acts| - 1;
      CallsOf(marshal, st, acts[..n], k) + One(IsCallOf(marshal, Exec(marshal, st, acts[..n]).value, acts[n], k))
  }

  lemma LateCountsCalls(marshal: Marshal, st: State, a: Action, k: nat)
    requires Inv(marshal, st) && st.closed && Enabled(st, a) && k < |st.batches|
    ensures var next, calls := Next(marshal, st, a), One(IsCallOf(marshal, st, a, k));
            && next.batches[k].late == st.batches[k].late + calls
            && |SentBy(st.sent, k)| <= |SentBy(next.sent, k)| <= |SentBy(st.sent, k)| + calls
  {
    if a.Send? && SendError(marshal, st.batches[a.batch].items[st.batches[a.batch].i], false, a.accepts).None? {
      var item := st.batches[a.batch].items[st.batches[a.batch].i];
      SendMakesRecord(marshal, item, a.accepts);
      SentByGrows(st.sent, Shipment(a.batch, RecordFor(marshal, item).value), k);
    } else {
      AppendEmpty(st.sent);
    }
  }

  lemma {:induction false} LateCalls(marshal: Marshal, st: State, acts: seq<Action>, k: nat)
    requires Inv(marshal, st) && st.closed && k < |st.batches| && Exec(marshal, st, acts).Some?
    ensures var end, calls := Exec(marshal, st, acts).value, CallsOf(marshal, st, acts, k);
            && Inv(marshal, end) && end.closed && k < |end.batches|
            && end.batches[k].late == st.batches[k].late + calls
            && |SentBy(st.sent, k)| <= |SentBy(end.sent, k)| <= |SentBy(st.sent, k)| + calls
  {
    if acts != [] {
      var n := |acts| - 1;
      LateCalls(marshal, st, acts[..n], k);
      var mid := Exec(marshal, st, acts[..n]).value;
      StepKeepsInv(marshal, mid, acts[n]);
      LateCountsCalls(marshal, mid, acts[n], k);
    }
  }

  /**
    Once the producer is closed, no continuation of the run calls the broker more than once for a batch,
    whether it accepts or refuses, and so gets at most that one further item accepted.
    */
  lemma AtMostOneAfterClose(marshal: Marshal, acts: seq<Action>, more: seq<Action>, k: nat)
    requires Exec(marshal, INITIAL, acts).Some? && Exec(marshal, INITIAL, acts).value.closed
    requires k < |Exec(marshal, INITIAL, acts).value.batches|
    requires Exec(marshal, Exec(marshal, INITIAL, acts).value, more).Some?
    ensures var st := Exec(marshal, INITIAL, acts).value;
            var end, calls := Exec(marshal, st, more).value, CallsOf(marshal, st, more, k);
            && end.closed && calls <= 1 && k < |end.batches|
            && |SentBy(st.sent, k)| <= |SentBy(end.sent, k)| <= |SentBy(st.sent, k)| + calls
  {
    RunKeepsInv(marshal, acts);
    LateCalls(marshal, Exec(marshal, INITIAL, acts).value, more, k);
  }
}
