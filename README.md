# DummyConnection, modelled in Dafny

Smack's `DummyConnection` is an in-process stand-in for an XMPP connection, used in unit tests. It
has no socket. It records every stanza and nonza the client under test sends in one outbound
queue, in send order. A test drains that queue with `getSentPacket` and reads its depth with
`getNumberOfSentPackets`. The test can also inject a received stanza with `processStanza`.

The connection walks through a small lifecycle:

- connecting always succeeds. It reports success on the SASL-feature and TLS signals and invents
  a stream identifier `dummy-<number>`.
- logging in rebuilds the user address `username@domain/resource` from the configuration. The
  resource defaults to `Test`.
- shutting down forgets the user and the authentication. It also arms a flag, so that the next
  connect notifies the reconnection listeners.

The model has four layers:

- `options.dfy`, `packets.dfy`: Option, Outcome and Result wrappers, and the stream elements
  (stanza, nonza, extension element) as opaque values.
- `jids.dfy`, `decimal.dfy`: the full address and an abstract version of the parser that builds
  one from a string, with its round trip. Also Java's decimal rendering of an `int`, with the
  proof that reading the digits back gives the number.
- `connection_spec.dfy`: the connection's state as values. The lifecycle fields (`Lifecycle`) and
  the outbound queue are kept apart, because no operation touches both. Each lifecycle operation
  is a function from the old lifecycle to the new one plus the notifications it fires; each queue
  operation is a function on the queue. `LifecycleStep`/`RunLifecycle` and `QueueStep`/`RunQueue`
  apply a call, or a sequence of calls, the way a test harness makes them, to each part.
- `connection_traces.dfy`: lemmas about sequences of calls. They cover first-in first-out
  draining, queue depth, when the reconnection notification fires, and the identity invariant.
- `dummy_connection.dfy`: the class `DummyConnection`. Its fields are updated in place by methods
  with `modifies` clauses. Each method is proved to change the lifecycle (`State()`) and the
  queue exactly as the matching `ConnectionSpec` function says, and to leave the other part
  alone. The module-level method `Apply` makes one `Call` through the matching method and is
  proved to move the object exactly as `LifecycleStep` and `QueueStep` say, which carries the trace
  lemmas over to any sequence of method calls on one object.

Notifications that the base class delivers are not carried out here. These are the two
negotiation signals, reconnection-succeeded, connection-closed, dispatch of a received stanza
and an added stream feature. Each one is appended to a ghost event log (`events`).

## Model

| member | source | states |
|---|---|---|
| `Jids.EntityFullFrom` | smack-core/src/test/java/org/jivesoftware/smack/DummyConnection.java:70-77 | a parse that succeeds yields a well-formed address whose textual form is exactly the input string |
| `Jids.ParseToString` | smack-core/src/test/java/org/jivesoftware/smack/DummyConnection.java:70-74 | parsing the text `local@domain/resource` of a well-formed address gives that address back |
| `Jids.ToStringInjective` | smack-core/src/test/java/org/jivesoftware/smack/DummyConnection.java:70-74 | two well-formed addresses with the same text are equal, so the stored address is determined by the string built |
| `Decimal.NatDigitsValue` | smack-core/src/test/java/org/jivesoftware/smack/DummyConnection.java:95 | the decimal digits produced for a number read back as that number |
| `Decimal.IntToString` | smack-core/src/test/java/org/jivesoftware/smack/DummyConnection.java:95 | the rendering of a 32-bit int is non-empty, starts with '-' exactly for negatives, and is otherwise made of decimal digits |
| `Decimal.IntToStringValue` | smack-core/src/test/java/org/jivesoftware/smack/DummyConnection.java:95 | the digits after the optional minus sign denote the magnitude of the number |
| `ConnectionSpec.ConfiguredResource` | smack-core/src/test/java/org/jivesoftware/smack/DummyConnection.java:74 | the configured resource when there is one, otherwise "Test" |
| `ConnectionSpec.GetUserJid` | smack-core/src/test/java/org/jivesoftware/smack/DummyConnection.java:68-79 | on success the address is well formed and its text is username@domain/resource-or-Test; the result is exactly that address if and only if the configured parts are well formed (when they are not, the result is either an IllegalStateException or a different well-formed address, see Left out) |
| `ConnectionSpec.Created` | smack-core/src/test/java/org/jivesoftware/smack/DummyConnection.java:81-88 | construction succeeds exactly when the address can be built; then the connection is not connected, not authenticated, not reconnecting, has no stream id and the user is the configured address (the constructor also starts the queue empty) |
| `ConnectionSpec.ConnectInternal` | smack-core/src/test/java/org/jivesoftware/smack/DummyConnection.java:91-100 | sets connected, sets the stream id to "dummy-" and the number, changes no other lifecycle field, fires both signals first and one reconnection notification if and only if the reconnect flag was set |
| `ConnectionSpec.LoginInternal` | smack-core/src/test/java/org/jivesoftware/smack/DummyConnection.java:122-126 | fails exactly when the address cannot be built; otherwise sets authenticated and the user to the configured address and changes nothing else, whatever its arguments |
| `ConnectionSpec.Shutdown` | smack-core/src/test/java/org/jivesoftware/smack/DummyConnection.java:103-109 | clears the user and authenticated, sets reconnect, keeps connected and stream id, fires exactly one connection-closed notification |
| `ConnectionSpec.Send` | smack-core/src/test/java/org/jivesoftware/smack/DummyConnection.java:128-136 | the queue grows by one, earlier elements keep their places, the element is at the tail |
| `ConnectionSpec.PollSent` | smack-core/src/test/java/org/jivesoftware/smack/DummyConnection.java:166-174 | on an empty queue returns nothing and changes nothing; otherwise returns the head, and head followed by the new queue is the old queue |
| `ConnectionSpec.LifecycleStep` | smack-core/src/test/java/org/jivesoftware/smack/DummyConnection.java:91-126 | sends and drains leave the lifecycle unchanged, fire nothing and throw nothing |
| `ConnectionSpec.QueueStep` | smack-core/src/test/java/org/jivesoftware/smack/DummyConnection.java:128-174 | every call other than a send or a drain leaves the queue unchanged and returns nothing |
| `ConnectionTraces.StepKeepsQueueOrder` | smack-core/src/test/java/org/jivesoftware/smack/DummyConnection.java:128-174 | for any single call, what it drains followed by the new queue is the old queue followed by what it sends |
| `ConnectionTraces.DrainedThenQueuedIsSent` | smack-core/src/test/java/org/jivesoftware/smack/DummyConnection.java:128-174 | after any calls, all drained elements followed by the queue are the initial queue followed by every sent element of either kind, in send order |
| `ConnectionTraces.DrainOrderIsSendOrder` | smack-core/src/test/java/org/jivesoftware/smack/DummyConnection.java:148-174 | drains return a prefix of queued-then-sent elements, in order, and the queue holds the rest |
| `ConnectionTraces.DrainsReturnFirstSent` | smack-core/src/test/java/org/jivesoftware/smack/DummyConnection.java:148-174 | from an empty queue, the drained elements are exactly the first elements sent, in send order |
| `ConnectionTraces.QueueDepth` | smack-core/src/test/java/org/jivesoftware/smack/DummyConnection.java:138-146 | the depth is the initial depth plus the number of sends minus the number of drains that returned an element |
| `ConnectionTraces.NoDrainsKeepEverything` | smack-core/src/test/java/org/jivesoftware/smack/DummyConnection.java:128-146 | without drains nothing is returned and the queue is the initial queue plus every sent element, so K sends give depth K |
| `ConnectionTraces.OtherCallsKeepQueue` | smack-core/src/test/java/org/jivesoftware/smack/DummyConnection.java:91-126 | any sequence of connects, logins, shutdowns, received stanzas and stream features leaves the queue as it was and drains nothing |
| `ConnectionTraces.RunQueueAppend` | smack-core/src/test/java/org/jivesoftware/smack/DummyConnection.java:128-174 | the queue after two call sequences in a row is the queue after their concatenation, and the drained elements are the two runs' drained elements in order |
| `ConnectionTraces.DrainsTakeHead` | smack-core/src/test/java/org/jivesoftware/smack/DummyConnection.java:148-174 | k drains on a queue of at least k elements return its first k elements in order and leave the rest |
| `ConnectionTraces.RunThenDrainAll` | smack-core/src/test/java/org/jivesoftware/smack/DummyConnection.java:144-174 | draining as many times as the depth returns the whole queue in order and leaves it empty |
| `ConnectionTraces.SendsThenDrainAll` | smack-core/src/test/java/org/jivesoftware/smack/DummyConnection.java:128-174 | K sends (among other calls, no drains) followed by as many drains as queued elements return them all in send order and leave depth 0 |
| `ConnectionTraces.ReconnectFlag` | smack-core/src/test/java/org/jivesoftware/smack/DummyConnection.java:103-109 | after any calls the reconnect flag is set if and only if it was set before or one of the calls was a shutdown |
| `ConnectionTraces.ConnectNotifiesIffShutdownBefore` | smack-core/src/test/java/org/jivesoftware/smack/DummyConnection.java:91-109 | on a freshly built connection, a connect fires the reconnection notification, exactly once, if and only if an earlier call was a shutdown; the first connect never fires it |
| `ConnectionTraces.CreatedSatisfiesIdentityInvariant` | smack-core/src/test/java/org/jivesoftware/smack/DummyConnection.java:81-88 | the constructed lifecycle satisfies the identity invariant: authenticated implies a user is set, and a set user is the configured address (that the user is set and authentication is off comes from `Created`) |
| `ConnectionTraces.StepKeepsIdentityInvariant` | smack-core/src/test/java/org/jivesoftware/smack/DummyConnection.java:103-126 | every call keeps: authenticated implies a user is set, and the user, when set, is the configured address |
| `ConnectionTraces.RunKeepsIdentityInvariant` | smack-core/src/test/java/org/jivesoftware/smack/DummyConnection.java:81-126 | any sequence of calls keeps the identity invariant |
| `ConnectionTraces.LoginIgnoresArguments` | smack-core/src/test/java/org/jivesoftware/smack/DummyConnection.java:122-126 | a login has the same effect whatever user name, password and resource it is given |
| `ConnectionTraces.ShutdownReconnectLogin` | smack-core/src/test/java/org/jivesoftware/smack/DummyConnection.java:91-126 | shutdown, connect, login restores the constructor's address and authentication, fires connection-closed, both signals and one reconnection notification, in that order |
| `ConnectionTraces.IdentityWithoutResource` | smack-core/src/test/java/org/jivesoftware/smack/DummyConnection.java:68-79 | with no configured resource, a well-formed user name and domain give the address username@domain/Test |
| `DummyConnections.DummyConnection.constructor` | smack-core/src/test/java/org/jivesoftware/smack/DummyConnection.java:81-88 | for a configuration with a well-formed address, the new object's lifecycle is `Created`, its queue is empty and no event was fired |
| `DummyConnections.DummyConnection.Create` | smack-core/src/test/java/org/jivesoftware/smack/DummyConnection.java:81-88 | a fresh connection in the `Created` state with an empty queue, or the IllegalStateException when the address cannot be built |
| `DummyConnections.DummyConnection.ConnectInternal` | smack-core/src/test/java/org/jivesoftware/smack/DummyConnection.java:91-100 | the new lifecycle and the fired events are those of `ConnectionSpec.ConnectInternal`; the queue is unchanged |
| `DummyConnections.DummyConnection.Shutdown` | smack-core/src/test/java/org/jivesoftware/smack/DummyConnection.java:103-109 | the new lifecycle and the fired events are those of `ConnectionSpec.Shutdown`; the queue is unchanged |
| `DummyConnections.DummyConnection.IsSecureConnection` | smack-core/src/test/java/org/jivesoftware/smack/DummyConnection.java:111-114 | always false |
| `DummyConnections.DummyConnection.IsUsingCompression` | smack-core/src/test/java/org/jivesoftware/smack/DummyConnection.java:116-119 | always false |
| `DummyConnections.DummyConnection.LoginInternal` | smack-core/src/test/java/org/jivesoftware/smack/DummyConnection.java:121-126 | passes with the state of `ConnectionSpec.LoginInternal`, or fails with its exception and leaves the lifecycle unchanged; no event, queue unchanged |
| `DummyConnections.DummyConnection.SendNonza` | smack-core/src/test/java/org/jivesoftware/smack/DummyConnection.java:128-131 | the new queue is `Send` of the old queue and the nonza; the lifecycle and events are unchanged |
| `DummyConnections.DummyConnection.SendStanzaInternal` | smack-core/src/test/java/org/jivesoftware/smack/DummyConnection.java:133-136 | the new queue is `Send` of the old queue and the stanza; the lifecycle and events are unchanged |
| `DummyConnections.DummyConnection.GetNumberOfSentPackets` | smack-core/src/test/java/org/jivesoftware/smack/DummyConnection.java:138-146 | returns the number of queued, undrained elements |
| `DummyConnections.DummyConnection.GetSentPacket` | smack-core/src/test/java/org/jivesoftware/smack/DummyConnection.java:148-156 | the default-wait drain: new queue and returned element are those of `PollSent`; the lifecycle is unchanged |
| `DummyConnections.DummyConnection.GetSentPacketWithin` | smack-core/src/test/java/org/jivesoftware/smack/DummyConnection.java:158-174 | new queue and returned element are those of `PollSent`; the lifecycle is unchanged |
| `DummyConnections.DummyConnection.ProcessStanza` | smack-core/src/test/java/org/jivesoftware/smack/DummyConnection.java:176-185 | lifecycle and queue are unchanged and one dispatch of the stanza is logged |
| `DummyConnections.Apply` | smack-core/src/test/java/org/jivesoftware/smack/DummyConnection.java:91-195 | a call made through the matching method moves the object's lifecycle, events, thrown error, queue and returned packet exactly as `LifecycleStep` and `QueueStep` say, keeping the identity invariant |
| `DummyConnections.DummyConnection.EnableStreamFeature` | smack-core/src/test/java/org/jivesoftware/smack/DummyConnection.java:187-195 | lifecycle and queue are unchanged and the feature's announcement is logged |

## Left out

- Timed blocking in `getSentPacket(wait)` is not modelled. In a single-threaded model no element
  can arrive while the caller waits, so the drain is a non-blocking poll and `wait` has no effect.
  The `InterruptedException` path, which becomes an `IllegalStateException`, is left out with it.
- Concurrency is not modelled. The outbound queue is thread-safe in `DummyConnection.java`, and a producer
  thread may send while the test thread drains; the model is sequential.
- The stream identifier's number comes from a `Random` seeded with the wall-clock time. It is the
  parameter `nonce` of `ConnectInternal`.
- The real address parser applies stringprep profiles and length limits. The model's
  `EntityFullFrom` accepts exactly the strings `local@domain/resource` with non-empty parts, where
  the local part and domain contain neither '@' nor '/'.
- `GetUserJid`: the failure direction is stated only for well-formed parts. A domain containing
  '/' makes the built string parse as a different address rather than fail. This follows from the
  parsing rule, not from anything the connection checks.
- Java renders a null user name as the text "null". The model's configuration always holds a
  string.
- Listener dispatch lives in the base class `AbstractXMPPConnection`, which is not part of this
  model. This covers stanza collectors and receive listeners, reconnection and connection-closed
  listeners, and the stream-feature store. Each call to it is logged as a ghost event.
- The base class's initial values are taken to be "not connected" and "not authenticated".
- Nothing in `DummyConnection` resets `connected`, and `loginInternal` does not check it. The
  invariant "authenticated implies connected" therefore depends on the base class refusing a
  login before a connect, and that guard is not part of this model.
- The connection-creation listeners notified by the constructor are not modelled. They are
  global state of `XMPPConnectionRegistry`.
- These are not modelled either: the configuration builder classes, `getDummyConfigurationBuilder`,
  the no-argument constructor that uses that builder, and `newConnectedDummyConnection` with its
  exception conversion. The model's configuration is a plain value.
- SendNonza: does not model the `LinkedBlockingQueue` capacity of 2^31 - 1 elements. In
  `DummyConnection.java`, adding to a full queue throws `IllegalStateException`; the model's queue
  is unbounded. Nor does it model a null element: `LinkedBlockingQueue.add` throws
  `NullPointerException` for one, while the model's `Nonza` values cannot be null, so that
  exception path is absent.
- SendStanzaInternal: the same capacity bound is not modelled, and neither is the
  `NullPointerException` for a null stanza, since the model's `Stanza` values cannot be null.
- ProcessStanza: assumes the listeners and collectors it dispatches to never call back into the
  connection. In Smack they are arbitrary code, may hold the connection (the constructor hands it
  to the creation listeners), and a listener that replies through `sendStanza` appends to the same
  outbound queue. The model only logs each dispatch, so "the queue is unchanged" in the contracts
  of ProcessStanza, ConnectInternal (reconnection listeners), Shutdown (connection-closed
  listeners), QueueStep and OtherCallsKeepQueue holds under this assumption only.
- GetNumberOfSentPackets: returns an unbounded `nat`. Java's `int` result is never exceeded,
  because of the capacity bound above.
