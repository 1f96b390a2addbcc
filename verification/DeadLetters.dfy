/** Dead letter messages and the handler that sends them (dlq/message.go, dlq/handler.go). */
module DeadLetters {
  import opened GoStrings
  import opened Options
  import opened Envelopes
  import opened Records
  import Topics

  /** A handler's error, or the error `invokeHandler` makes of a recovered panic. */
  datatype Error = HandlerError(text: GoString) | HandlerPanic(text: GoString) {
    function Text(): GoString {
      if HandlerPanic? then "handler panicked: " + text else text
    }
  }

  datatype Message = Message(
    originalTopic: GoString,
    originalPartition: int,
    originalOffset: int,
    errorMessage: GoString,
    attemptCount: int,
    firstFailure: Time,
    lastFailure: Time,
    envelope: Option<Envelope>)

  /** JSON encoding of messages, as far as the pipeline depends on it. */
  datatype Codec = Codec(marshal: Message -> Option<GoString>, unmarshal: GoString -> Option<Message>) {
    ghost predicate RoundTrips() {
      forall m: Message :: marshal(m).Some? ==> unmarshal(marshal(m).value) == Some(m)
    }
  }

  /** A record accepted by the broker, in the partition the broker chose. */
  datatype Delivery = Delivery(partition: nat, record: Record)

  /** What the environment answers to one `Handle` call: the clock, and the accepting partition if any. */
  datatype Answer = Answer(now: Time, partition: Option<nat>)

  /** The metadata `CreateConsumerDLQHandler` fixes when the callback is created. */
  datatype Callback = Callback(topic: GoString, partition: int, offset: int, attempts: int)

  datatype HandleError = NilEnvelope | MarshalFailed | SendFailed

  /** The text a dead letter reports: nothing, the handler's own text, or the panic's with a prefix. */
  function ErrorText(err: Option<Error>): (text: GoString)
    ensures match err
            case None => text == ""
            case Some(HandlerError(own)) => text == own
            case Some(HandlerPanic(reason)) => text == "handler panicked: " + reason
  {
    if err.Some? then err.value.Text() else ""
  }

  function NewMessage(cb: Callback, env: Envelope, err: Option<Error>, now: Time): Message {
    Message(cb.topic, cb.partition, cb.offset, ErrorText(err), cb.attempts, now, now, Some(env))
  }

  /** The outcome of one `Handle` call: the delivery it makes, or why it makes none. */
  datatype Handling = Sent(delivery: Delivery) | NotSent(error: HandleError)

  function Handled(codec: Codec, cb: Callback, env: Option<Envelope>, err: Option<Error>, answer: Answer): Handling {
    if env.None? then NotSent(NilEnvelope)
    else
      var data := codec.marshal(NewMessage(cb, env.value, err, answer.now));
      if data.None? then NotSent(MarshalFailed)
      else if answer.partition.None? then NotSent(SendFailed)
      else
        var headers := [Header("original_topic", cb.topic), Header("event_type", env.value.eventType),
                        Header("event_id", env.value.id), Header("error_message", ErrorText(err))];
        Sent(Delivery(answer.partition.value, Record(Topics.DLQ(cb.topic), env.value.id, data.value, headers)))
  }

  /** The message a dead letter of `env` carries, field by field. */
  predicate Describes(m: Message, cb: Callback, env: Envelope, err: Option<Error>, now: Time) {
    && m.originalTopic == cb.topic && m.originalPartition == cb.partition && m.originalOffset == cb.offset
    && m.attemptCount == cb.attempts && m.errorMessage == ErrorText(err)
    && m.firstFailure == now && m.lastFailure == now && m.envelope == Some(env)
  }

  /** The record of that message: where it goes, under which key, and with which headers. */
  predicate Carries(codec: Codec, record: Record, cb: Callback, env: Envelope, err: Option<Error>, m: Message) {
    && record.topic == cb.topic + ".dlq" && record.key == env.id && codec.marshal(m) == Some(record.value)
    && |record.headers| == 4
    && record.headers[0] == Header("original_topic", cb.topic)
    && record.headers[1] == Header("event_type", env.eventType)
    && record.headers[2] == Header("event_id", env.id)
    && record.headers[3] == Header("error_message", ErrorText(err))
  }

  /**
    What `Handle` does in each case: without an envelope nothing is sent; otherwise the message that describes
    the failure is, unless it cannot be encoded or the broker refuses it.
    */
  ghost predicate HandledAsPromised(
      h: Handling, codec: Codec, cb: Callback, env: Option<Envelope>, err: Option<Error>, answer: Answer) {
    if env.None? then h == NotSent(NilEnvelope)
    else exists m | Describes(m, cb, env.value, err, answer.now) ::
      if codec.marshal(m).None? then h == NotSent(MarshalFailed)
      else if answer.partition.None? then h == NotSent(SendFailed)
      else h.Sent? && Some(h.delivery.partition) == answer.partition
           && Carries(codec, h.delivery.record, cb, env.value, err, m)
  }

  lemma HandledExactly(codec: Codec, cb: Callback, env: Option<Envelope>, err: Option<Error>, answer: Answer)
    ensures HandledAsPromised(Handled(codec, cb, env, err, answer), codec, cb, env, err, answer)
  {
    if env.Some? {
      assert Describes(NewMessage(cb, env.value, err, answer.now), cb, env.value, err, answer.now);
    }
  }

  /**
    What a replayer reads back from a dead-lettered record is the envelope that failed, unchanged, with
    the text of the last error; the record lands on the dead letter topic of the callback's topic, keyed by
    the envelope. Topic, partition, offset and attempts are those given when the callback was created.
    */
  lemma SentMessageReadsBack(codec: Codec, cb: Callback, env: Envelope, err: Error, answer: Answer)
    requires codec.RoundTrips()
    requires Handled(codec, cb, Some(env), Some(err), answer).Sent?
    ensures var record := Handled(codec, cb, Some(env), Some(err), answer).delivery.record;
            var read := codec.unmarshal(record.value);
            && read.Some? && read.value.envelope == Some(env) && read.value.errorMessage == err.Text()
            && Callback(read.value.originalTopic, read.value.originalPartition,
                        read.value.originalOffset, read.value.attemptCount) == cb
            && read.value.firstFailure == read.value.lastFailure == answer.now
            && record.topic == Topics.DLQ(read.value.originalTopic) == cb.topic + ".dlq" && record.key == env.id
  {
    var m := NewMessage(cb, env, Some(err), answer.now);
    assert codec.unmarshal(codec.marshal(m).value) == Some(m);
  }

  /** The broker's side of a synchronous producer: what it has accepted, in order. */
  class SyncProducer {
    var log: seq<Delivery>

    method SendMessage(record: Record, partition: Option<nat>) returns (ok: bool)
      modifies this
      ensures ok == partition.Some?
      ensures log == old(log) + if ok then [Delivery(partition.value, record)] else []
    {
      ok := partition.Some?;
      if ok {
        log := log + [Delivery(partition.value, record)];
      }
    }
  }

  class Handler {
    const producer: SyncProducer
    const codec: Codec

    constructor (producer: SyncProducer, codec: Codec)
      ensures this.producer == producer && this.codec == codec
    {
      this.producer := producer;
      this.codec := codec;
    }

    /** `Handler.Handle`; `answer` is what clock and broker reply. */
    method Handle(cb: Callback, env: Option<Envelope>, err: Option<Error>, answer: Answer)
      returns (failure: Option<HandleError>)
      modifies producer
      ensures var h := Handled(codec, cb, env, err, answer);
              && failure == (if h.Sent? then None else Some(h.error))
              && producer.log == old(producer.log) + (if h.Sent? then [h.delivery] else [])
              && HandledAsPromised(h, codec, cb, env, err, answer)
    {
      HandledExactly(codec, cb, env, err, answer);
      if env.None? {
        return Some(NilEnvelope);
      }
      var dlqMsg := NewMessage(cb, env.value, err, answer.now);
      var data := codec.marshal(dlqMsg);
      if data.None? {
        return Some(MarshalFailed);
      }
      var errorMessage := "";
      if err.Some? {
        errorMessage := err.value.Text();
      }
      var headers := [Header("original_topic", cb.topic), Header("event_type", env.value.eventType),
                      Header("event_id", env.value.id), Header("error_message", errorMessage)];
      var ok := producer.SendMessage(Record(Topics.DLQ(cb.topic), env.value.id, data.value, headers), answer.partition);
      return if ok then None else Some(SendFailed);
    }
  }
}
