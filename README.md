# Pulsar JMS message producer, in Dafny

This project models the message producer of the Pulsar JMS adapter,
`PulsarMessageProducer`. It covers the producer's six per-producer settings
(disable message ID, disable timestamp, delivery mode, priority, time-to-live,
delivery delay) and their setters and getters. It covers the validation that
runs before every send, and the eight `send` overloads. Seven of the eight
stamp delivery mode and priority on the message; all eight then publish it. A send is transactional
when the session holds a Pulsar transaction, and asynchronous when it is given
a `CompletionListener`.

The Pulsar client is modelled as a log of publish records kept by the
connection factory. A record holds the destination, the message as published,
the transaction (if any) and the listener (if any).

- `jms_types.dfy`, module `JmsTypes`: Java `int`/`long` ranges, the JMS
  default header values (`DEFAULT_DELIVERY_MODE` = `PERSISTENT` = 2,
  `DEFAULT_PRIORITY` = 4, `DEFAULT_TIME_TO_LIVE` = 0, `DEFAULT_DELIVERY_DELAY`
  = 0), destinations, message snapshots, publish records and errors. A Java
  `null` destination is `None`.
- `producer_spec.dfy`, module `ProducerSpec`: the producer as pure functions.
  `ApplySetter` gives the effect of one setter. `SendSpec` gives the effect of
  one send: validate, stamp, publish. `Run` gives the effect of a client's
  sequence of calls. The properties are lemmas about these functions.
- `producer.dfy`, module `Producer`: the classes `Message`,
  `ConnectionFactory`, `Session` and `PulsarMessageProducer`. Their fields
  change in place, as in the Java code. Each method's `ensures` ties the new
  state to `ProducerSpec`.

Five quirks of the code are modelled as written. Each one departs from the doc comment of its method:

- `setPriority` assigns the priority field to itself, so its argument is never
  stored. Every producer keeps priority 4 for its whole life. The doc comment
  above the method says otherwise.
- The six-argument asynchronous `send` validates with a time-to-live of 0.
  It therefore accepts a positive time-to-live, which the three other
  overloads that take a time-to-live reject.
- `send(Message)` stamps neither delivery mode nor priority. The other
  overloads that use the producer's defaults do stamp them.
- The four overloads that take a destination publish to that argument even
  when the producer was created with a destination. Their doc comments
  promise `UnsupportedOperationException` in that case.
- The stored time-to-live is never applied or checked. The four overloads
  without a time-to-live argument validate with 0, although their doc
  comments say they use the producer's default time-to-live. So
  `setTimeToLive(5)` followed by `send(m)` passes, while
  `send(m, mode, priority, 5)` fails. The stored delivery delay is never
  applied either: its doc comment promises a minimum delay before delivery,
  but no send hands it to the Pulsar client.

Of the six settings, a send reads only the delivery mode and the priority.
The disable-message-ID and disable-timestamp flags are stored and returned
but never read by any send. The JMS API lets a provider ignore these two
hints, so this does not depart from the doc comments.

A destination that is not a Pulsar destination is rejected by the
constructor (`InvalidDestinationException`). When such a destination is passed
to a send, it passes validation and the message is stamped. The cast in
`sendMessage` then fails, and nothing is published (`DestinationCastFailed`).
This departs from the doc comments of the four overloads that take a
destination: they promise `InvalidDestinationException`, but the code throws
`ClassCastException` from the cast.

## Model

| member | source | states |
|---|---|---|
| Producer.NewProducer | pulsar-jms/src/main/java/com/datastax/oss/pulsar/jms/PulsarMessageProducer.java:33-42 | construction fails with `InvalidDestination` exactly when the default destination is a non-Pulsar one; otherwise the new producer keeps the session and destination and has the initial settings |
| Producer.PulsarMessageProducer.constructor | pulsar-jms/src/main/java/com/datastax/oss/pulsar/jms/PulsarMessageProducer.java:44-49 | a new producer has delivery mode `DEFAULT_DELIVERY_MODE`, priority `DEFAULT_PRIORITY`, time-to-live `DEFAULT_TIME_TO_LIVE`, delay `DEFAULT_DELIVERY_DELAY`, and both disable flags false |
| ProducerSpec.ApplySetter | pulsar-jms/src/main/java/com/datastax/oss/pulsar/jms/PulsarMessageProducer.java:68-229 | each setter except `setPriority` stores its argument in its own field and leaves the other five unchanged; `setPriority` changes nothing; no setter changes the priority |
| Producer.PulsarMessageProducer.SetDisableMessageID | pulsar-jms/src/main/java/com/datastax/oss/pulsar/jms/PulsarMessageProducer.java:68-70 | the settings afterwards are `ApplySetter` of the old settings |
| Producer.PulsarMessageProducer.GetDisableMessageID | pulsar-jms/src/main/java/com/datastax/oss/pulsar/jms/PulsarMessageProducer.java:80-82 | returns the stored disable-message-ID flag |
| Producer.PulsarMessageProducer.SetDisableMessageTimestamp | pulsar-jms/src/main/java/com/datastax/oss/pulsar/jms/PulsarMessageProducer.java:101-103 | the settings afterwards are `ApplySetter` of the old settings |
| Producer.PulsarMessageProducer.GetDisableMessageTimestamp | pulsar-jms/src/main/java/com/datastax/oss/pulsar/jms/PulsarMessageProducer.java:113-115 | returns the stored disable-timestamp flag |
| Producer.PulsarMessageProducer.SetDeliveryMode | pulsar-jms/src/main/java/com/datastax/oss/pulsar/jms/PulsarMessageProducer.java:132-134 | the settings afterwards are `ApplySetter` of the old settings |
| Producer.PulsarMessageProducer.GetDeliveryMode | pulsar-jms/src/main/java/com/datastax/oss/pulsar/jms/PulsarMessageProducer.java:145-147 | returns the stored default delivery mode |
| Producer.PulsarMessageProducer.SetPriority | pulsar-jms/src/main/java/com/datastax/oss/pulsar/jms/PulsarMessageProducer.java:163-165 | the stored priority is the same afterwards, whatever the argument |
| Producer.PulsarMessageProducer.GetPriority | pulsar-jms/src/main/java/com/datastax/oss/pulsar/jms/PulsarMessageProducer.java:175-177 | returns the stored priority |
| Producer.PulsarMessageProducer.SetTimeToLive | pulsar-jms/src/main/java/com/datastax/oss/pulsar/jms/PulsarMessageProducer.java:192-194 | the settings afterwards are `ApplySetter` of the old settings |
| Producer.PulsarMessageProducer.GetTimeToLive | pulsar-jms/src/main/java/com/datastax/oss/pulsar/jms/PulsarMessageProducer.java:206-208 | returns the stored default time-to-live |
| Producer.PulsarMessageProducer.SetDeliveryDelay | pulsar-jms/src/main/java/com/datastax/oss/pulsar/jms/PulsarMessageProducer.java:227-229 | the settings afterwards are `ApplySetter` of the old settings |
| Producer.PulsarMessageProducer.GetDeliveryDelay | pulsar-jms/src/main/java/com/datastax/oss/pulsar/jms/PulsarMessageProducer.java:242-244 | returns the stored default delivery delay |
| Producer.PulsarMessageProducer.GetDestination | pulsar-jms/src/main/java/com/datastax/oss/pulsar/jms/PulsarMessageProducer.java:255-257 | returns the default destination given at construction |
| ProducerSpec.ValidateMessageSend | pulsar-jms/src/main/java/com/datastax/oss/pulsar/jms/PulsarMessageProducer.java:386-393 | passes iff the destination is non-null and the time-to-live is at most 0; a null destination fails with `NullDestination` whatever the time-to-live; otherwise a positive time-to-live fails with `TimeToLiveNotSupported` |
| Producer.PulsarMessageProducer.Send | pulsar-jms/src/main/java/com/datastax/oss/pulsar/jms/PulsarMessageProducer.java:296-299 | outcome, message and publish log are those of `SendSpec` for `send(Message)`; the producer and session are unchanged; the destination cast never fails, because the default destination is null or a Pulsar destination |
| Producer.PulsarMessageProducer.SendWithHeaders | pulsar-jms/src/main/java/com/datastax/oss/pulsar/jms/PulsarMessageProducer.java:318-325 | as `SendSpec` for `send(Message, int, int, long)`; the producer and session are unchanged; the destination cast never fails, because the default destination is null or a Pulsar destination |
| Producer.PulsarMessageProducer.SendTo | pulsar-jms/src/main/java/com/datastax/oss/pulsar/jms/PulsarMessageProducer.java:346-352 | as `SendSpec` for `send(Destination, Message)`; the producer and session are unchanged |
| Producer.PulsarMessageProducer.SendToWithHeaders | pulsar-jms/src/main/java/com/datastax/oss/pulsar/jms/PulsarMessageProducer.java:376-384 | as `SendSpec` for `send(Destination, Message, int, int, long)`; the producer and session are unchanged |
| Producer.PulsarMessageProducer.SendAsync | pulsar-jms/src/main/java/com/datastax/oss/pulsar/jms/PulsarMessageProducer.java:523-529 | as `SendSpec` for `send(Message, CompletionListener)`; the producer and session are unchanged; the destination cast never fails, because the default destination is null or a Pulsar destination |
| Producer.PulsarMessageProducer.SendWithHeadersAsync | pulsar-jms/src/main/java/com/datastax/oss/pulsar/jms/PulsarMessageProducer.java:662-674 | as `SendSpec` for `send(Message, int, int, long, CompletionListener)`; the producer and session are unchanged; the destination cast never fails, because the default destination is null or a Pulsar destination |
| Producer.PulsarMessageProducer.SendToAsync | pulsar-jms/src/main/java/com/datastax/oss/pulsar/jms/PulsarMessageProducer.java:809-816 | as `SendSpec` for `send(Destination, Message, CompletionListener)`; the producer and session are unchanged |
| Producer.PulsarMessageProducer.SendToWithHeadersAsync | pulsar-jms/src/main/java/com/datastax/oss/pulsar/jms/PulsarMessageProducer.java:953-966 | as `SendSpec` for `send(Destination, Message, int, int, long, CompletionListener)`, whose validation uses time-to-live 0; the producer and session are unchanged |
| Producer.PulsarMessageProducer.SendMessage | pulsar-jms/src/main/java/com/datastax/oss/pulsar/jms/PulsarMessageProducer.java:968-977 | a non-Pulsar destination fails the cast and publishes nothing; otherwise appends one synchronous record carrying the session's transaction |
| Producer.PulsarMessageProducer.SendMessageAsync | pulsar-jms/src/main/java/com/datastax/oss/pulsar/jms/PulsarMessageProducer.java:979-990 | as `SendMessage`, with the record carrying the completion listener |
| ProducerSpec.SendOutcomes | pulsar-jms/src/main/java/com/datastax/oss/pulsar/jms/PulsarMessageProducer.java:386-393 | a send passes iff it gets through; it fails with `NullDestination` iff the target is null, with `TimeToLiveNotSupported` iff the target is non-null and the validated time-to-live is positive, and with `DestinationCastFailed` iff it passed validation but the target is not a Pulsar destination |
| ProducerSpec.RejectedSendChangesNothing | pulsar-jms/src/main/java/com/datastax/oss/pulsar/jms/PulsarMessageProducer.java:296-384 | a send that fails validation neither stamps the message nor publishes anything |
| ProducerSpec.SendPublishesOnce | pulsar-jms/src/main/java/com/datastax/oss/pulsar/jms/PulsarMessageProducer.java:968-990 | a send that gets through appends exactly one record, for the target destination and the stamped message, transactional iff the session holds a transaction and asynchronous iff a listener was supplied; any other send leaves the log as it was |
| ProducerSpec.StampingByOverload | pulsar-jms/src/main/java/com/datastax/oss/pulsar/jms/PulsarMessageProducer.java:318-384 | after validation, explicit-header overloads stamp their own delivery mode and priority, `send(Message)` stamps nothing, the others stamp the producer's current defaults; the producer's code never touches the content |
| ProducerSpec.OnlySixArgumentAsyncIgnoresTimeToLive | pulsar-jms/src/main/java/com/datastax/oss/pulsar/jms/PulsarMessageProducer.java:953-966 | with a Pulsar destination and a positive time-to-live, the six-argument asynchronous send passes while the overloads of lines 318, 376 and 662 fail with `TimeToLiveNotSupported` |
| ProducerSpec.IdentifiedProducerSendsToArgument | pulsar-jms/src/main/java/com/datastax/oss/pulsar/jms/PulsarMessageProducer.java:346-352 | a producer created with destination `d`, sending with `send(Destination, Message)` to another Pulsar destination `d2`, passes and publishes one record for `d2` stamped with the producer's defaults |
| ProducerSpec.SendReadsOnlyModeAndPriority | pulsar-jms/src/main/java/com/datastax/oss/pulsar/jms/PulsarMessageProducer.java:296-966 | the outcome, stamped message and log of every send are the same whatever the stored time-to-live, delivery delay and the two disable flags are |
| ProducerSpec.RunKeepsPriority | pulsar-jms/src/main/java/com/datastax/oss/pulsar/jms/PulsarMessageProducer.java:163-165 | no sequence of setter and send calls changes the stored priority |
| ProducerSpec.NewProducerPriorityIsAlwaysDefault | pulsar-jms/src/main/java/com/datastax/oss/pulsar/jms/PulsarMessageProducer.java:47-177 | after any sequence of calls on a new producer, the priority is still `DEFAULT_PRIORITY` |
| ProducerSpec.SendsKeepSettings | pulsar-jms/src/main/java/com/datastax/oss/pulsar/jms/PulsarMessageProducer.java:296-966 | a sequence of sends, whatever their overloads and arguments, leaves all six settings unchanged |
| ProducerSpec.RunLog | pulsar-jms/src/main/java/com/datastax/oss/pulsar/jms/PulsarMessageProducer.java:968-990 | over any sequence of calls the log only grows, by exactly one record per send that gets through, and every new record goes to a Pulsar destination and carries the session's transaction |
| ProducerSpec.PlainSendsPublishInOrder | pulsar-jms/src/main/java/com/datastax/oss/pulsar/jms/PulsarMessageProducer.java:296-299 | `send(Message)` calls on a producer with a Pulsar destination publish every message, in call order, unchanged and synchronously |
| Producer.QueueProducerScenario | pulsar-jms/src/test/java/com/datastax/oss/pulsar/jms/QueueTest.java:72-75 | a queue producer sending ten text messages with `send(Message)` hands the Pulsar client exactly those ten messages, in order, none transactional or asynchronous |

## Left out

- Producer.PulsarMessageProducer.Send, and the seven other send methods: the Pulsar message's own `send`/`sendAsync` is not modelled, so neither is what it writes on the message object (message ID, timestamp, destination, expiration). The contracts state that the message's `content` is unchanged after a send. That holds only for the producer's own code; the Pulsar message's send may change those headers.
- The Pulsar client calls (`getProducerForDestination`, `newMessage`, `send`/`sendAsync` of the message) are library and serialization code that is not part of this model. A publish is an append to the factory's log and always succeeds; transport errors are not modelled.
- Completion-listener callbacks and their timing and order are concurrency outside this class. The record only notes which listener was supplied.
- `close()` has an empty body, so there is nothing to model.
- The casts of a `Message` to `PulsarMessage` (and the resulting `ClassCastException`) are Java runtime typing. Every message here is a Pulsar message.
- `setJMSDeliveryMode` and `setJMSPriority` belong to `PulsarMessage`, which is not part of this model. They are modelled as plain writes of the two header fields, with no range check on the priority.
- `Producer.QueueProducerScenario` rests on three facts from code that is not part of this model. It takes `session.createProducer(destination)` to be `new PulsarMessageProducer(session, destination)`. It takes the session from `connection.createSession()` to hold no transaction. It creates its messages with `DEFAULT_DELIVERY_MODE` and `DEFAULT_PRIORITY`, because the headers of a new text message are not shown.
- Java `null` is modelled for destinations only. The model's message, listener and session are never null. In the source:
  - A null message passes validation. On the seven stamping overloads it then throws `NullPointerException` at `setJMSDeliveryMode`. On `send(Message)`, `getProducerForDestination` runs first, and the exception is thrown at the call `pulsarMessage.send(...)` on the null reference, so that `send` is never entered. Either way nothing is published.
  - A null completion listener is passed on to `sendAsync` unchecked, although the doc comments promise `IllegalArgumentException`. What `sendAsync` does with it is not part of this model.
  - With a null session, every send that reaches `sendMessage` throws `NullPointerException` at `session.getFactory()`. A send that fails validation throws its validation exception first, and a null message on a stamping overload throws at `setJMSDeliveryMode` first.
- The consumer side of the queue test (two consumers, receive, receiveNoWait) needs a running broker and consumer code that is not part of this model.
- `ProducerSpec.Run` assumes the session's transaction does not change during a sequence of calls. The producer never changes it; commit and rollback are not part of this model.
