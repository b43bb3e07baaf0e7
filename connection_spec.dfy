/**
 * The dummy connection's state as values, and each of its operations as a
 * function from the state before to the state after. The lifecycle fields and
 * the outbound queue are separate: no operation touches both. The class in
 * `DummyConnections` is proved to follow these functions; the lemmas in
 * `ConnectionTraces` state what sequences of operations do.
 *
 * Notifications that the base connection class delivers to listeners (the
 * authentication and TLS signals, reconnection and connection-closed
 * notifications, dispatch of a received stanza, an announced stream feature)
 * are recorded as events instead of being carried out.
 */
module ConnectionSpec {
  import opened Options
  import opened Packets
  import opened Jids
  import opened Decimal

  /** The part of the connection configuration the dummy connection reads. */
  datatype Config = Config(
    username: string,
    password: string,
    xmppServiceDomain: string,
    resource: Option<string>)

  /** The resource used when the configuration names none. */
  const DefaultResource: string := "Test"

  /** The prefix of every stream identifier the dummy connection invents. */
  const StreamIdPrefix: string := "dummy-"

  /** How long, in seconds, `getSentPacket()` waits when not told otherwise. */
  const DefaultWaitSeconds: int := 5 * 60

  /** Java's `IllegalStateException`, naming what caused it. */
  datatype Error = IllegalState(cause: string)

  datatype Event =
    | SaslFeatureReceivedSuccess
    | TlsHandledSuccess
    | ReconnectionNotified
    | ConnectionClosedNotified
    | StanzaProcessed(stanza: Stanza)
    | StreamFeatureAdded(feature: ExtensionElement)

  /** The lifecycle fields: everything the operations read or write apart from the queue. */
  datatype Lifecycle = Lifecycle(
    connected: bool,
    authenticated: bool,
    user: Option<FullJid>,
    reconnect: bool,
    streamId: Option<string>)

  /** A lifecycle change together with the notifications it fires, in order. */
  datatype Transition = Transition(after: Lifecycle, emitted: seq<Event>)

  /** A drain of the outbound queue: the queue after it and the element it returned. */
  datatype Polled = Polled(rest: seq<TopLevelStreamElement>, packet: Option<TopLevelStreamElement>)

  function ConfiguredResource(config: Config): (r: string)
    ensures config.resource.Some? ==> r == config.resource.value
    ensures config.resource.None? ==> r == DefaultResource
  {
    match config.resource
    case Some(res) => res
    case None => DefaultResource
  }

  /** The address string the connection asks the parser to accept. */
  function UserJidString(config: Config): string {
    config.username + "@" + config.xmppServiceDomain + "/" + ConfiguredResource(config)
  }

  /** The configuration names a well-formed address. */
  predicate ValidIdentity(config: Config) {
    FullJid(config.username, config.xmppServiceDomain, ConfiguredResource(config)).Valid()
  }

  /**
   * `getUserJid`: the configured user name, domain and resource (or "Test"),
   * parsed as a full address; a parse failure becomes an IllegalStateException.
   */
  function GetUserJid(config: Config): (r: Result<FullJid, Error>)
    ensures r.Success? ==> r.value.Valid() && r.value.ToString() == UserJidString(config)
    ensures ValidIdentity(config) <==>
              r == Success(FullJid(config.username, config.xmppServiceDomain, ConfiguredResource(config)))
  {
    var jid := FullJid(config.username, config.xmppServiceDomain, ConfiguredResource(config));
    assert jid.ToString() == UserJidString(config);
    assert jid.Valid() ==> EntityFullFrom(UserJidString(config)) == Some(jid) by {
      if jid.Valid() { ParseToString(jid); }
    }
    match EntityFullFrom(UserJidString(config))
    case None => Failure(IllegalState("XmppStringprepException"))
    case Some(parsed) => Success(parsed)
  }

  /**
   * The lifecycle right after construction (the queue starts empty), or the
   * exception the constructor throws.
   */
  function Created(config: Config): (r: Result<Lifecycle, Error>)
    ensures r.Success? <==> GetUserJid(config).Success?
    ensures r.Success? ==>
              && !r.value.connected && !r.value.authenticated && !r.value.reconnect
              && r.value.user == Some(GetUserJid(config).value) && r.value.streamId.None?
  {
    match GetUserJid(config)
    case Failure(e) => Failure(e)
    case Success(jid) => Success(Lifecycle(false, false, Some(jid), false, None))
  }

  /**
   * `connectInternal`: connects, reports success on both negotiation signals,
   * takes a new stream identifier and, if a shutdown happened before,
   * notifies the reconnection listeners. `nonce` is the pseudo-random number.
   */
  function ConnectInternal(l: Lifecycle, nonce: int32): (t: Transition)
    ensures t.after.connected
    ensures t.after.streamId == Some(StreamIdPrefix + IntToString(nonce))
    ensures t.after == l.(connected := true, streamId := t.after.streamId)
    ensures |t.emitted| >= 2 && t.emitted[..2] == [SaslFeatureReceivedSuccess, TlsHandledSuccess]
    ensures ReconnectionNotified in t.emitted <==> l.reconnect
    ensures |t.emitted| == if l.reconnect then 3 else 2
  {
    var signals := [SaslFeatureReceivedSuccess, TlsHandledSuccess];
    Transition(
      l.(connected := true, streamId := Some(StreamIdPrefix + IntToString(nonce))),
      if l.reconnect then signals + [ReconnectionNotified] else signals)
  }

  /**
   * `loginInternal`: rebuilds the address from the configuration alone (the
   * arguments play no part) and marks the connection authenticated. When the
   * address cannot be built the exception leaves the state as it was.
   */
  function LoginInternal(config: Config, l: Lifecycle, username: string, password: string,
                         resource: Option<string>): (r: Result<Lifecycle, Error>)
    ensures r.Failure? <==> GetUserJid(config).Failure?
    ensures r.Success? ==>
              && r.value.authenticated
              && r.value.user == Some(GetUserJid(config).value)
              && r.value == l.(authenticated := true, user := r.value.user)
  {
    match GetUserJid(config)
    case Failure(e) => Failure(e)
    case Success(jid) => Success(l.(user := Some(jid), authenticated := true))
  }

  /**
   * `shutdown`: forgets the user and the authentication, notifies the
   * connection-closed listeners once, and arms the reconnection notification.
   */
  function Shutdown(l: Lifecycle): (t: Transition)
    ensures t.after.user.None? && !t.after.authenticated && t.after.reconnect
    ensures t.after.connected == l.connected && t.after.streamId == l.streamId
    ensures t.emitted == [ConnectionClosedNotified]
  {
    Transition(l.(user := None, authenticated := false, reconnect := true), [ConnectionClosedNotified])
  }

  /** `sendNonza` and `sendStanzaInternal`: the element joins the tail of the queue. */
  function Send(queue: seq<TopLevelStreamElement>, e: TopLevelStreamElement): (r: seq<TopLevelStreamElement>)
    ensures |r| == |queue| + 1
    ensures r[..|queue|] == queue && r[|queue|] == e
  {
    queue + [e]
  }

  /** `getSentPacket`: removes and returns the head of the queue, or returns nothing when it is empty. */
  function PollSent(queue: seq<TopLevelStreamElement>): (p: Polled)
    ensures queue == [] <==> p.packet.None?
    ensures queue == [] ==> p.rest == queue
    ensures p.packet.Some? ==> [p.packet.value] + p.rest == queue
  {
    if queue == [] then Polled(queue, None)
    else Polled(queue[1..], Some(queue[0]))
  }

  /** A call a test harness (or the client under test) makes on the connection. */
  datatype Call =
    | ConnectCall(nonce: int32)
    | LoginCall(username: string, password: string, resource: Option<string>)
    | ShutdownCall
    | SendNonzaCall(nonza: Nonza)
    | SendStanzaCall(stanza: Stanza)
    | GetSentPacketCall
    | ProcessStanzaCall(processed: Stanza)
    | EnableStreamFeatureCall(feature: ExtensionElement)
  {
    /** The calls that act on the outbound queue. */
    predicate IsQueueCall() {
      SendNonzaCall? || SendStanzaCall? || GetSentPacketCall?
    }
  }

  /** What one call does to the lifecycle: new state, events, a thrown exception. */
  datatype LifecycleEffect = LifecycleEffect(after: Lifecycle, emitted: seq<Event>, failure: Option<Error>)

  /**
   * One call's effect on the lifecycle. `processStanza` and
   * `enableStreamFeature` only fire their notification.
   */
  function LifecycleStep(config: Config, l: Lifecycle, call: Call): (e: LifecycleEffect)
    ensures call.IsQueueCall() ==> e == LifecycleEffect(l, [], None)
  {
    match call
    case ConnectCall(nonce) =>
      var t := ConnectInternal(l, nonce);
      LifecycleEffect(t.after, t.emitted, None)
    case LoginCall(username, password, resource) =>
      (match LoginInternal(config, l, username, password, resource)
       case Failure(err) => LifecycleEffect(l, [], Some(err))
       case Success(after) => LifecycleEffect(after, [], None))
    case ShutdownCall =>
      var t := Shutdown(l);
      LifecycleEffect(t.after, t.emitted, None)
    case ProcessStanzaCall(st) => LifecycleEffect(l, [StanzaProcessed(st)], None)
    case EnableStreamFeatureCall(f) => LifecycleEffect(l, [StreamFeatureAdded(f)], None)
    case _ => LifecycleEffect(l, [], None)
  }

  /** The lifecycle after a sequence of calls, and every event they fired, in order. */
  datatype LifecycleTrace = LifecycleTrace(after: Lifecycle, events: seq<Event>)

  function RunLifecycle(config: Config, l: Lifecycle, calls: seq<Call>): LifecycleTrace
    decreases |calls|
  {
    if calls == [] then LifecycleTrace(l, [])
    else
      var e := LifecycleStep(config, l, calls[0]);
      var rest := RunLifecycle(config, e.after, calls[1..]);
      LifecycleTrace(rest.after, e.emitted + rest.events)
  }

  /** One call's effect on the outbound queue; only sends and drains have one. */
  function QueueStep(queue: seq<TopLevelStreamElement>, call: Call): (p: Polled)
    ensures !call.IsQueueCall() ==> p == Polled(queue, None)
  {
    match call
    case SendNonzaCall(n) => Polled(Send(queue, NonzaElement(n)), None)
    case SendStanzaCall(st) => Polled(Send(queue, StanzaElement(st)), None)
    case GetSentPacketCall => PollSent(queue)
    case _ => Polled(queue, None)
  }

  /** The queue after a sequence of calls, and every element the drains returned, in order. */
  datatype QueueTrace = QueueTrace(queue: seq<TopLevelStreamElement>, drained: seq<TopLevelStreamElement>)

  function RunQueue(queue: seq<TopLevelStreamElement>, calls: seq<Call>): QueueTrace
    decreases |calls|
  {
    if calls == [] then QueueTrace(queue, [])
    else
      var p := QueueStep(queue, calls[0]);
      var rest := RunQueue(p.rest, calls[1..]);
      QueueTrace(rest.queue, (if p.packet.Some? then [p.packet.value] else []) + rest.drained)
  }

  /** The element a call sends, if it is a send. */
  function SentBy(call: Call): seq<TopLevelStreamElement> {
    match call
    case SendNonzaCall(n) => [NonzaElement(n)]
    case SendStanzaCall(st) => [StanzaElement(st)]
    case _ => []
  }

  /** The elements the calls send, in call order, whatever their kind. */
  function Sent(calls: seq<Call>): seq<TopLevelStreamElement>
    decreases |calls|
  {
    if calls == [] then [] else SentBy(calls[0]) + Sent(calls[1..])
  }
}
