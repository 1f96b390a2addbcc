/**
  Publishing single events and batches (producer/producer.go): the methods, run alone, and any number of
  `PublishBatch` calls interleaved with each other and with `Close`.
  */
module Publishing {
  import opened GoStrings
  import opened Options
  import opened Envelopes
  import opened Records
  import opened Sequences
  import opened Topics

  datatype PublishError =
    | NoEnvelope
    | NoTopicForEventType
    | ProducerClosed
    | InvalidEnvelope(cause: ValidationError)
    | MarshalFailed
    | SendFailed

  /** One element of a batch: the envelope, which may be nil, and its partition key. */
  datatype Item = Item(env: Option<Envelope>, key: GoString)

  type Marshal = Envelope -> Option<GoString>

  /** The record for an item on a topic, field by field. */
  predicate Carries(marshal: Marshal, record: Record, topic: Topic, item: Item) {
    && item.env.Some?
    && record.topic == topic && record.key == item.key && marshal(item.env.value) == Some(record.value)
    && |record.headers| == 3
    && record.headers[0] == Header("event_type", item.env.value.eventType)
    && record.headers[1] == Header("event_id", item.env.value.id)
    && record.headers[2] == Header("correlation_id", item.env.value.correlationID)
  }

  /** The record sent to `topic` for an item, if it can be encoded at all. */
  function RecordTo(marshal: Marshal, topic: Topic, item: Item): Option<Record> {
    if item.env.None? then None else
      var env := item.env.value;
      if marshal(env).None? then None else
        Some(Record(topic, item.key, marshal(env).value,
                    [Header("event_type", env.eventType), Header("event_id", env.id),
                     Header("correlation_id", env.correlationID)]))
  }

  /** The record `Publish` sends: to the topic of the event's type. */
  function RecordFor(marshal: Marshal, item: Item): Option<Record> {
    if item.env.None? then None else RecordTo(marshal, ForEventType(item.env.value.eventType), item)
  }

  /** What `Publish` checks before it looks at the closed flag. */
  function Unroutable(item: Item): Option<PublishError> {
    if item.env.None? then Some(NoEnvelope)
    else if ForEventType(item.env.value.eventType) == "" then Some(NoTopicForEventType)
    else None
  }

  /** What `PublishToTopic` checks after it, up to the send. */
  function Unsendable(marshal: Marshal, item: Item): Option<PublishError> {
    if item.env.None? then Some(NoEnvelope)
    else
      var invalid := Validate(item.env.value);
      if invalid.Some? then Some(InvalidEnvelope(invalid.value))
      else if marshal(item.env.value).None? then Some(MarshalFailed)
      else None
  }

  lemma RecordCarries(marshal: Marshal, topic: Topic, item: Item)
    ensures RecordTo(marshal, topic, item).Some? <==> item.env.Some? && marshal(item.env.value).Some?
    ensures RecordTo(marshal, topic, item).Some? ==>
              Carries(marshal, RecordTo(marshal, topic, item).value, topic, item)
  {
  }

  /** A valid envelope that can be encoded. */
  predicate Encodable(marshal: Marshal, item: Item) {
    item.env.Some? && Publishable(item.env.value) && marshal(item.env.value).Some?
  }

  /** What each result of `PublishToTopic` means: the first of its checks that failed, or that none did. */
  ghost predicate TopicResult(marshal: Marshal, item: Item, closed: bool, accepts: bool, err: Option<PublishError>) {
    match err
    case None => !closed && Encodable(marshal, item) && accepts
    case Some(ProducerClosed) => closed
    case Some(NoEnvelope) => !closed && item.env.None?
    case Some(InvalidEnvelope(cause)) => !closed && item.env.Some? && FirstViolation(item.env.value, cause)
    case Some(MarshalFailed) =>
      !closed && item.env.Some? && Publishable(item.env.value) && marshal(item.env.value).None?
    case Some(SendFailed) => !closed && Encodable(marshal, item) && !accepts
    case Some(NoTopicForEventType) => false
  }

  /** What each result of `Publish` means. */
  ghost predicate ItemResult(marshal: Marshal, item: Item, closed: bool, accepts: bool, err: Option<PublishError>) {
    if item.env.None? then err == Some(NoEnvelope)
    else if ForEventType(item.env.value.eventType) == "" then err == Some(NoTopicForEventType)
    else TopicResult(marshal, item, closed, accepts, err)
  }

  /** The result of `PublishToTopic` when the flag reads `closed` and the broker accepts or refuses. */
  function SendError(marshal: Marshal, item: Item, closed: bool, accepts: bool): Option<PublishError> {
    if closed then Some(ProducerClosed)
    else if Unsendable(marshal, item).Some? then Unsendable(marshal, item)
    else if !accepts then Some(SendFailed)
    else None
  }

  /** A valid envelope whose type has a topic and which can be encoded. */
  predicate Sendable(marshal: Marshal, item: Item) {
    Encodable(marshal, item) && ForEventType(item.env.value.eventType) != ""
  }

  /** The result of `Publish`. */
  function ItemError(marshal: Marshal, item: Item, closed: bool, accepts: bool): (err: Option<PublishError>)
    ensures err.None? <==> Sendable(marshal, item) && !closed && accepts
    ensures err.None? ==> RecordFor(marshal, item).Some?
  {
    if Unroutable(item).Some? then Unroutable(item) else SendError(marshal, item, closed, accepts)
  }

  /** Every result means that its check was the first to fail, or that none was. */
  lemma ResultsExactly(marshal: Marshal, item: Item, closed: bool, accepts: bool)
    ensures TopicResult(marshal, item, closed, accepts, SendError(marshal, item, closed, accepts))
    ensures ItemResult(marshal, item, closed, accepts, ItemError(marshal, item, closed, accepts))
  {
  }

  /** The records for the items that can be encoded, in order. */
  function RecordsFor(marshal: Marshal, items: seq<Item>): seq<Record> {
    if items == [] then [] else
      var record := RecordFor(marshal, items[|items| - 1]);
      RecordsFor(marshal, items[..|items| - 1]) + if record.Some? then [record.value] else []
  }

  /** Sendable items have one record each. */
  lemma {:induction false} RecordsOfSendable(marshal: Marshal, items: seq<Item>)
    requires forall i | 0 <= i < |items| :: RecordFor(marshal, items[i]).Some?
    ensures |RecordsFor(marshal, items)| == |items|
    ensures forall i | 0 <= i < |items| :: RecordFor(marshal, items[i]) == Some(RecordsFor(marshal, items)[i])
  {
    if items != [] {
      var n := |items| - 1;
      RecordsOfSendable(marshal, items[..n]);
      forall i | 0 <= i <= n ensures RecordFor(marshal, items[i]) == Some(RecordsFor(marshal, items)[i]) {
        if i < n {
          assert items[..n][i] == items[i];
        }
      }
    }
  }

  lemma RecordsGrow(marshal: Marshal, items: seq<Item>, i: nat, record: Record)
    requires i < |items| && RecordFor(marshal, items[i]) == Some(record)
    ensures RecordsFor(marshal, items[..i + 1]) == RecordsFor(marshal, items[..i]) + [record]
  {
    assert items[..i + 1][..i] == items[..i];
  }

  // ---- The methods ---------------------------------------------------------------------------

  datatype BatchError = LengthMismatch | Failed(index: nat, cause: PublishError)

  function Items(envs: seq<Option<Envelope>>, keys: seq<GoString>): (items: seq<Item>)
    requires |envs| == |keys|
    ensures |items| == |envs| && forall i | 0 <= i < |items| :: items[i] == Item(envs[i], keys[i])
  {
    seq(|envs|, i requires 0 <= i < |envs| => Item(envs[i], keys[i]))
  }

  class Producer {
    const marshal: Marshal
    var closed: bool
    var closes: nat
    var sent: seq<Record>

    constructor (marshal: Marshal)
      ensures this.marshal == marshal && !closed && closes == 0 && sent == []
    {
      this.marshal := marshal;
      closed, closes, sent := false, 0, [];
    }

    /** `PublishToTopic`; the broker accepts the message or refuses it. */
    method PublishToTopic(topic: Topic, item: Item, accepts: bool) returns (err: Option<PublishError>)
      modifies `sent
      ensures err.None? <==> Encodable(marshal, item) && !closed && accepts
      ensures err.None? ==> |sent| == |old(sent)| + 1 && Carries(marshal, sent[|old(sent)|], topic, item)
      ensures err == SendError(marshal, item, closed, accepts)
      ensures err.None? ==> RecordTo(marshal, topic, item).Some?
      ensures sent == old(sent) + if err.None? then [RecordTo(marshal, topic, item).value] else []
    {
      AppendEmpty(sent);
      RecordCarries(marshal, topic, item);
      if closed {
        return Some(ProducerClosed);
      }
      if item.env.None? {
        return Some(NoEnvelope);
      }
      var env := item.env.value;
      var invalid := Validate(env);
      if invalid.Some? {
        return Some(InvalidEnvelope(invalid.value));
      }
      var data := marshal(env);
      if data.None? {
        return Some(MarshalFailed);
      }
      var headers := [Header("event_type", env.eventType), Header("event_id", env.id),
                      Header("correlation_id", env.correlationID)];
      if !accepts {
        return Some(SendFailed);
      }
      var record := Record(topic, item.key, data.value, headers);
      assert RecordTo(marshal, topic, item) == Some(record);
      sent := sent + [record];
      return None;
    }

    method Publish(item: Item, accepts: bool) returns (err: Option<PublishError>)
      modifies `sent
      ensures err.None? <==> Sendable(marshal, item) && !closed && accepts
      ensures err.None? ==> |sent| == |old(sent)| + 1
                            && Carries(marshal, sent[|old(sent)|], ForEventType(item.env.value.eventType), item)
      ensures err == ItemError(marshal, item, closed, accepts)
      ensures sent == old(sent) + if err.None? then [RecordFor(marshal, item).value] else []
    {
      if item.env.None? {
        return Some(NoEnvelope);
      }
      var topic := ForEventType(item.env.value.eventType);
      if topic == "" {
        return Some(NoTopicForEventType);
      }
      err := PublishToTopic(topic, item, accepts);
    }

    /** The items before the first that fails are sent, in order; a reported index is their number. */
    method PublishBatch(envs: seq<Option<Envelope>>, keys: seq<GoString>, accepts: nat -> bool)
      returns (err: Option<BatchError>)
      modifies `sent
      ensures |envs| != |keys| <==> err == Some(LengthMismatch)
      ensures |envs| != |keys| ==> sent == old(sent)
      ensures |envs| == |keys| ==>
                var items := Items(envs, keys);
                var n := if err.None? then |items| else err.value.index;
                && n <= |items|
                && (forall i | 0 <= i < n :: Sendable(marshal, items[i]) && accepts(i) && !closed)
                && (err.Some? ==> n < |items| && !(Sendable(marshal, items[n]) && accepts(n) && !closed))
                && (err.Some? ==>
                      n < |items| && ItemError(marshal, items[n], closed, accepts(n)) == Some(err.value.cause))
                && sent == old(sent) + RecordsFor(marshal, items[..n])
    {
      if |envs| != |keys| {
        return Some(LengthMismatch);
      }
      ghost var items, before := Items(envs, keys), sent;
      for i := 0 to |envs|
        invariant forall j | 0 <= j < i :: Sendable(marshal, items[j]) && accepts(j) && !closed
        invariant sent == before + RecordsFor(marshal, items[..i])
      {
        var failure := Publish(Item(envs[i], keys[i]), accepts(i));
        if failure.Some? {
          return Some(Failed(i, failure.value));
        }
        ghost var done, record := RecordsFor(marshal, items[..i]), RecordFor(marshal, Item(envs[i], keys[i])).value;
        assert sent == before + done + [record];
        RecordsGrow(marshal, items, i, record);
        AppendAssociative(before, done, [record]);
        forall j | 0 <= j < i + 1 ensures Sendable(marshal, items[j]) && accepts(j) && !closed {
          if j == i {
            assert items[j] == Item(envs[i], keys[i]);
          }
        }
      }
      assert items[..|items|] == items;
      return None;
    }

    /** The call that finds the flag clear sets it and closes the client, whose error it returns. */
    method Close(clientErr: Option<GoString>) returns (result: Option<GoString>)
      modifies `closed, `closes
      ensures closed && closes == old(closes) + if old(closed) then 0 else 1
      ensures result == if old(closed) then None else clientErr
    {
      if closed {
        return None;
      }
      closed := true;
      closes := closes + 1;
      return clientErr;
    }
  }
}
