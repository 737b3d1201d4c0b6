/** Values shared by the producer model: Java integer widths, the JMS default
    header values, destinations, message snapshots, publish records and the
    errors a send can raise. */
module JmsTypes {

  /** Java `int`. */
  type Int32 = x: int | -0x8000_0000 <= x < 0x8000_0000

  /** Java `long`. */
  type Int64 = x: int | -0x8000_0000_0000_0000 <= x < 0x8000_0000_0000_0000

  /** `DeliveryMode.NON_PERSISTENT` and `DeliveryMode.PERSISTENT` of the JMS API. */
  const NON_PERSISTENT: Int32 := 1
  const PERSISTENT: Int32 := 2

  /** `Message.DEFAULT_*` of the JMS API: the values a new producer starts with. */
  const DEFAULT_DELIVERY_MODE: Int32 := PERSISTENT
  const DEFAULT_PRIORITY: Int32 := 4
  const DEFAULT_TIME_TO_LIVE: Int64 := 0
  const DEFAULT_DELIVERY_DELAY: Int64 := 0

  datatype Option<+T> = None | Some(value: T)

  /** A JMS destination. The two Pulsar kinds are what `PulsarDestination`
      covers; `Foreign` is any other implementation of `javax.jms.Destination`,
      which the producer's casts to `PulsarDestination` reject. A Java `null`
      destination is `None` of an `Option<Destination>`. */
  datatype Destination =
    | PulsarQueue(name: string)
    | PulsarTopic(name: string)
    | Foreign(description: string)
  {
    predicate IsPulsar() { PulsarQueue? || PulsarTopic? }
  }

  /** Handle of an open Pulsar transaction held by a session. */
  datatype TransactionId = TransactionId(id: nat)

  /** Identity of a `CompletionListener` passed to an asynchronous send. */
  datatype CompletionListener = CompletionListener(id: nat)

  /** What a message carries when it is published: the two headers the
      producer stamps, and everything else (body, properties, other headers)
      as one opaque value. The headers the Pulsar message's own send sets
      (message ID, timestamp, destination, expiration) are not modelled. */
  datatype MessageSnapshot = MessageSnapshot(deliveryMode: Int32, priority: Int32, content: string)

  /** One publish handed to the Pulsar client: the target, the message as
      published, the session transaction it was issued under (`None` for a
      plain publish) and the completion listener (`None` for a synchronous
      publish). */
  datatype PublishRecord = PublishRecord(
    destination: Destination,
    message: MessageSnapshot,
    transaction: Option<TransactionId>,
    listener: Option<CompletionListener>)
  {
    predicate Transactional() { transaction.Some? }
    predicate Async() { listener.Some? }
  }

  /** The exceptions a send raises before or while publishing. */
  datatype SendError =
    | NullDestination          // UnsupportedOperationException("destination is null")
    | TimeToLiveNotSupported   // JMSException("timeToLive not supported")
    | DestinationCastFailed    // ClassCastException from the cast to PulsarDestination

  datatype Outcome<+E> = Pass | Fail(error: E)

  /** The exception the producer's constructor raises. */
  datatype CreateError = InvalidDestination(description: string)
}
