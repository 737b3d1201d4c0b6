/** The producer as the Java code has it: objects whose fields change in
    place. A `Message` carries the two headers a send stamps; a
    `ConnectionFactory` stands for the Pulsar client and keeps the log of
    what was published through it; a `Session` holds an optional open
    transaction; a `PulsarMessageProducer` holds the six per-producer settings.
    Every method is proved against the definitions of module ProducerSpec. */
module Producer {
  import opened JmsTypes
  import opened ProducerSpec

  /** A JMS message. `setJMSDeliveryMode` and `setJMSPriority` are plain
      writes of the two header fields. */
  class Message {
    var deliveryMode: Int32
    var priority: Int32
    var content: string

    constructor (deliveryMode: Int32, priority: Int32, content: string)
      ensures Snapshot() == MessageSnapshot(deliveryMode, priority, content)
    {
      this.deliveryMode := deliveryMode;
      this.priority := priority;
      this.content := content;
    }

    function Snapshot(): (s: MessageSnapshot)
      reads this
    {
      MessageSnapshot(deliveryMode, priority, content)
    }
  }

  /** The Pulsar client behind a session: every publish it is handed, in the
      order it was handed them. */
  class ConnectionFactory {
    var published: seq<PublishRecord>

    constructor ()
      ensures published == []
    {
      published := [];
    }
  }

  class Session {
    const factory: ConnectionFactory
    /** The open Pulsar transaction, or `None` (Java `null`) when the
        session is not transacted. */
    var transaction: Option<TransactionId>

    constructor (factory: ConnectionFactory, transaction: Option<TransactionId>)
      ensures this.factory == factory && this.transaction == transaction
    {
      this.factory := factory;
      this.transaction := transaction;
    }
  }

  datatype CreateResult = Created(producer: PulsarMessageProducer) | Rejected(error: CreateError)

  /** `new PulsarMessageProducer(session, defaultDestination)`: a destination
      that is not a Pulsar destination fails the cast and the constructor
      throws `InvalidDestinationException`; a null one is accepted. */
  method NewProducer(session: Session, defaultDestination: Option<Destination>) returns (r: CreateResult)
    ensures r.Rejected? <==> defaultDestination.Some? && !defaultDestination.value.IsPulsar()
    ensures r.Rejected? ==> r.error == InvalidDestination(defaultDestination.value.description)
    ensures r.Created? ==>
      fresh(r.producer) && r.producer.session == session &&
      r.producer.defaultDestination == defaultDestination &&
      r.producer.Valid() && r.producer.CurrentSettings() == InitialSettings
  {
    if defaultDestination.Some? && !defaultDestination.value.IsPulsar() {
      return Rejected(InvalidDestination(defaultDestination.value.description));
    }
    var p := new PulsarMessageProducer(session, defaultDestination);
    return Created(p);
  }

  class PulsarMessageProducer {
    const session: Session
    const defaultDestination: Option<Destination>

    var disableMessageId: bool
    var disableMessageTimestamp: bool
    var deliveryMode: Int32
    var priority: Int32
    var defaultTimeToLive: Int64
    var defaultDeliveryDelay: Int64

    /** The body of the Java constructor once the destination cast has
        succeeded, with the field initialisers. */
    constructor (session: Session, defaultDestination: Option<Destination>)
      requires defaultDestination.Some? ==> defaultDestination.value.IsPulsar()
      ensures this.session == session && this.defaultDestination == defaultDestination
      ensures Valid() && CurrentSettings() == InitialSettings
    {
      this.session := session;
      this.defaultDestination := defaultDestination;
      disableMessageId := false;
      disableMessageTimestamp := false;
      deliveryMode := DEFAULT_DELIVERY_MODE;
      priority := DEFAULT_PRIORITY;
      defaultTimeToLive := DEFAULT_TIME_TO_LIVE;
      defaultDeliveryDelay := DEFAULT_DELIVERY_DELAY;
    }

    /** The Java field is typed `PulsarDestination`: the default destination
        is null or a Pulsar destination. */
    predicate Valid() {
      defaultDestination.Some? ==> defaultDestination.value.IsPulsar()
    }

    /** The six settings as one value. */
    function CurrentSettings(): (s: ProducerSpec.Settings)
      reads this
    {
      ProducerSpec.Settings(disableMessageId, disableMessageTimestamp, deliveryMode, priority,
                            defaultTimeToLive, defaultDeliveryDelay)
    }

    // ---------------------------------------------------------------------
    // Setters and getters

    method SetDisableMessageID(value: bool)
      modifies this
      ensures CurrentSettings() == ApplySetter(old(CurrentSettings()), Setter.SetDisableMessageID(value))
    {
      disableMessageId := value;
    }

    method GetDisableMessageID() returns (v: bool)
      ensures v == CurrentSettings().disableMessageId
    {
      v := disableMessageId;
    }

    method SetDisableMessageTimestamp(value: bool)
      modifies this
      ensures CurrentSettings() == ApplySetter(old(CurrentSettings()), Setter.SetDisableMessageTimestamp(value))
    {
      disableMessageTimestamp := value;
    }

    method GetDisableMessageTimestamp() returns (v: bool)
      ensures v == CurrentSettings().disableMessageTimestamp
    {
      v := disableMessageTimestamp;
    }

    method SetDeliveryMode(deliveryMode: Int32)
      modifies this
      ensures CurrentSettings() == ApplySetter(old(CurrentSettings()), Setter.SetDeliveryMode(deliveryMode))
    {
      this.deliveryMode := deliveryMode;
    }

    method GetDeliveryMode() returns (v: Int32)
      ensures v == CurrentSettings().deliveryMode
    {
      v := deliveryMode;
    }

    /** Assigns the priority field to itself: the argument is never stored. */
    method SetPriority(defaultPriority: Int32)
      modifies this
      ensures CurrentSettings() == ApplySetter(old(CurrentSettings()), Setter.SetPriority(defaultPriority))
      ensures priority == old(priority)
    {
      priority := priority;
    }

    method GetPriority() returns (v: Int32)
      ensures v == CurrentSettings().priority
    {
      v := priority;
    }

    method SetTimeToLive(timeToLive: Int64)
      modifies this
      ensures CurrentSettings() == ApplySetter(old(CurrentSettings()), Setter.SetTimeToLive(timeToLive))
    {
      defaultTimeToLive := timeToLive;
    }

    method GetTimeToLive() returns (v: Int64)
      ensures v == CurrentSettings().timeToLive
    {
      v := defaultTimeToLive;
    }

    method SetDeliveryDelay(deliveryDelay: Int64)
      modifies this
      ensures CurrentSettings() == ApplySetter(old(CurrentSettings()), Setter.SetDeliveryDelay(deliveryDelay))
    {
      defaultDeliveryDelay := deliveryDelay;
    }

    method GetDeliveryDelay() returns (v: Int64)
      ensures v == CurrentSettings().deliveryDelay
    {
      v := defaultDeliveryDelay;
    }

    method GetDestination() returns (d: Option<Destination>)
      ensures d == defaultDestination
    {
      d := defaultDestination;
    }

    // ---------------------------------------------------------------------
    // The eight send overloads. Each one may change the message and the
    // publish log and nothing else, and does to them what SendSpec says.

    /** `send(Message)`: validates the default destination with time-to-live
        0 and publishes the message without stamping it. */
    method Send(message: Message) returns (r: Outcome<SendError>)
      requires Valid()
      modifies message, session.factory
      ensures unchanged(this) && unchanged(session)
      ensures r != Fail(DestinationCastFailed)
      ensures var s := SendSpec(CurrentSettings(), defaultDestination, session.transaction, Plain,
                                old(message.Snapshot()), old(session.factory.published));
        r == s.outcome && message.Snapshot() == s.message && session.factory.published == s.log
    {
      r := ValidateMessageSend(defaultDestination, 0);
      if r.Fail? { return; }
      r := SendMessage(defaultDestination.value, message);
    }

    /** `send(Message, int, int, long)`. */
    method SendWithHeaders(message: Message, deliveryMode: Int32, priority: Int32, timeToLive: Int64)
      returns (r: Outcome<SendError>)
      requires Valid()
      modifies message, session.factory
      ensures unchanged(this) && unchanged(session)
      ensures r != Fail(DestinationCastFailed)
      ensures var s := SendSpec(CurrentSettings(), defaultDestination, session.transaction,
                                WithHeaders(deliveryMode, priority, timeToLive),
                                old(message.Snapshot()), old(session.factory.published));
        r == s.outcome && message.Snapshot() == s.message && session.factory.published == s.log
    {
      r := ValidateMessageSend(defaultDestination, timeToLive);
      if r.Fail? { return; }
      message.deliveryMode := deliveryMode;
      message.priority := priority;
      r := SendMessage(defaultDestination.value, message);
    }

    /** `send(Destination, Message)`: stamps the producer's defaults. */
    method SendTo(destination: Option<Destination>, message: Message) returns (r: Outcome<SendError>)
      modifies message, session.factory
      ensures unchanged(this) && unchanged(session)
      ensures var s := SendSpec(CurrentSettings(), defaultDestination, session.transaction, To(destination),
                                old(message.Snapshot()), old(session.factory.published));
        r == s.outcome && message.Snapshot() == s.message && session.factory.published == s.log
    {
      r := ValidateMessageSend(destination, 0);
      if r.Fail? { return; }
      message.deliveryMode := this.deliveryMode;
      message.priority := this.priority;
      r := SendMessage(destination.value, message);
    }

    /** `send(Destination, Message, int, int, long)`. */
    method SendToWithHeaders(destination: Option<Destination>, message: Message,
                             deliveryMode: Int32, priority: Int32, timeToLive: Int64)
      returns (r: Outcome<SendError>)
      modifies message, session.factory
      ensures unchanged(this) && unchanged(session)
      ensures var s := SendSpec(CurrentSettings(), defaultDestination, session.transaction,
                                ToWithHeaders(destination, deliveryMode, priority, timeToLive),
                                old(message.Snapshot()), old(session.factory.published));
        r == s.outcome && message.Snapshot() == s.message && session.factory.published == s.log
    {
      r := ValidateMessageSend(destination, timeToLive);
      if r.Fail? { return; }
      message.deliveryMode := deliveryMode;
      message.priority := priority;
      r := SendMessage(destination.value, message);
    }

    /** `send(Message, CompletionListener)`: stamps the producer's defaults. */
    method SendAsync(message: Message, listener: CompletionListener) returns (r: Outcome<SendError>)
      requires Valid()
      modifies message, session.factory
      ensures unchanged(this) && unchanged(session)
      ensures r != Fail(DestinationCastFailed)
      ensures var s := SendSpec(CurrentSettings(), defaultDestination, session.transaction, PlainAsync(listener),
                                old(message.Snapshot()), old(session.factory.published));
        r == s.outcome && message.Snapshot() == s.message && session.factory.published == s.log
    {
      r := ValidateMessageSend(defaultDestination, 0);
      if r.Fail? { return; }
      message.deliveryMode := this.deliveryMode;
      message.priority := this.priority;
      r := SendMessageAsync(defaultDestination.value, message, listener);
    }

    /** `send(Message, int, int, long, CompletionListener)`. */
    method SendWithHeadersAsync(message: Message, deliveryMode: Int32, priority: Int32, timeToLive: Int64,
                                listener: CompletionListener)
      returns (r: Outcome<SendError>)
      requires Valid()
      modifies message, session.factory
      ensures unchanged(this) && unchanged(session)
      ensures r != Fail(DestinationCastFailed)
      ensures var s := SendSpec(CurrentSettings(), defaultDestination, session.transaction,
                                WithHeadersAsync(deliveryMode, priority, timeToLive, listener),
                                old(message.Snapshot()), old(session.factory.published));
        r == s.outcome && message.Snapshot() == s.message && session.factory.published == s.log
    {
      r := ValidateMessageSend(defaultDestination, timeToLive);
      if r.Fail? { return; }
      message.deliveryMode := deliveryMode;
      message.priority := priority;
      r := SendMessageAsync(defaultDestination.value, message, listener);
    }

    /** `send(Destination, Message, CompletionListener)`: stamps the
        producer's defaults. */
    method SendToAsync(destination: Option<Destination>, message: Message, listener: CompletionListener)
      returns (r: Outcome<SendError>)
      modifies message, session.factory
      ensures unchanged(this) && unchanged(session)
      ensures var s := SendSpec(CurrentSettings(), defaultDestination, session.transaction,
                                ToAsync(destination, listener),
                                old(message.Snapshot()), old(session.factory.published));
        r == s.outcome && message.Snapshot() == s.message && session.factory.published == s.log
    {
      r := ValidateMessageSend(destination, 0);
      if r.Fail? { return; }
      message.deliveryMode := this.deliveryMode;
      message.priority := this.priority;
      r := SendMessageAsync(destination.value, message, listener);
    }

    /** `send(Destination, Message, int, int, long, CompletionListener)`:
        validates with time-to-live 0, whatever `timeToLive` is. */
    method SendToWithHeadersAsync(destination: Option<Destination>, message: Message,
                                  deliveryMode: Int32, priority: Int32, timeToLive: Int64,
                                  listener: CompletionListener)
      returns (r: Outcome<SendError>)
      modifies message, session.factory
      ensures unchanged(this) && unchanged(session)
      ensures var s := SendSpec(CurrentSettings(), defaultDestination, session.transaction,
                                ToWithHeadersAsync(destination, deliveryMode, priority, timeToLive, listener),
                                old(message.Snapshot()), old(session.factory.published));
        r == s.outcome && message.Snapshot() == s.message && session.factory.published == s.log
    {
      r := ValidateMessageSend(destination, 0);
      if r.Fail? { return; }
      message.deliveryMode := deliveryMode;
      message.priority := priority;
      r := SendMessageAsync(destination.value, message, listener);
    }

    // ---------------------------------------------------------------------
    // The two sendMessage helpers

    /** Synchronous publish, under the session's transaction when it holds
        one. */
    method SendMessage(destination: Destination, message: Message) returns (r: Outcome<SendError>)
      modifies session.factory
      ensures unchanged(session)
      ensures var p := Publish(destination, message.Snapshot(), session.transaction, None,
                               old(session.factory.published));
        r == p.outcome && session.factory.published == p.log
    {
      if !destination.IsPulsar() {
        return Fail(DestinationCastFailed);
      }
      var factory := session.factory;
      if session.transaction.Some? {
        factory.published := factory.published + [PublishRecord(destination, message.Snapshot(), session.transaction, None)];
      } else {
        factory.published := factory.published + [PublishRecord(destination, message.Snapshot(), None, None)];
      }
      r := Pass;
    }

    /** Asynchronous publish with a completion listener, under the session's
        transaction when it holds one. */
    method SendMessageAsync(destination: Destination, message: Message, listener: CompletionListener)
      returns (r: Outcome<SendError>)
      modifies session.factory
      ensures unchanged(session)
      ensures var p := Publish(destination, message.Snapshot(), session.transaction, Some(listener),
                               old(session.factory.published));
        r == p.outcome && session.factory.published == p.log
    {
      if !destination.IsPulsar() {
        return Fail(DestinationCastFailed);
      }
      var factory := session.factory;
      if session.transaction.Some? {
        factory.published := factory.published + [PublishRecord(destination, message.Snapshot(), session.transaction, Some(listener))];
      } else {
        factory.published := factory.published + [PublishRecord(destination, message.Snapshot(), None, Some(listener))];
      }
      r := Pass;
    }
  }

  /** The scenario of the queue test: a producer created on a queue sends ten
      text messages with `send(Message)`; the Pulsar client is handed the ten
      messages, in order and unchanged, none of them transactional or
      asynchronous. */
  method QueueProducerScenario(queueName: string) returns (factory: ConnectionFactory)
    ensures |factory.published| == 10
    ensures forall i :: 0 <= i < 10 ==>
      factory.published[i] == PublishRecord(PulsarQueue(queueName), MessageSnapshot(DEFAULT_DELIVERY_MODE, DEFAULT_PRIORITY, "foo-" + [Digit(i)]), None, None)
  {
    factory := new ConnectionFactory();
    var session := new Session(factory, None);
    var created := NewProducer(session, Some(PulsarQueue(queueName)));
    var producer := created.producer;
    var i := 0;
    while i < 10
      invariant 0 <= i <= 10
      invariant producer.session == session && session.factory == factory && session.transaction == None
      invariant producer.defaultDestination == Some(PulsarQueue(queueName))
      invariant |factory.published| == i
      invariant forall k :: 0 <= k < i ==>
        factory.published[k] == PublishRecord(PulsarQueue(queueName), MessageSnapshot(DEFAULT_DELIVERY_MODE, DEFAULT_PRIORITY, "foo-" + [Digit(k)]), None, None)
    {
      var message := new Message(DEFAULT_DELIVERY_MODE, DEFAULT_PRIORITY, "foo-" + [Digit(i)]);
      var r := producer.Send(message);
      i := i + 1;
    }
  }

  function Digit(i: int): (c: char)
    requires 0 <= i < 10
  {
    "0123456789"[i]
  }
}
