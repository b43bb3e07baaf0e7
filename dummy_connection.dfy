/**
 * The dummy XMPP connection as an object whose methods update its fields in
 * place. Each method is proved to move the object's state exactly as the
 * corresponding function of `ConnectionSpec` says, so the lemmas of
 * `ConnectionTraces` describe any sequence of calls on an object.
 */
module DummyConnections {
  import opened Options
  import opened Packets
  import opened Jids
  import opened Decimal
  import opened ConnectionSpec
  import opened ConnectionTraces

  class DummyConnection {
    const config: Config

    // Fields of the base connection class that the dummy connection writes.
    var connected: bool
    var authenticated: bool
    var user: Option<FullJid>
    var streamId: Option<string>

    // The dummy connection's own fields.
    var reconnect: bool
    var queue: seq<TopLevelStreamElement>

    /** Notifications handed to the base class, oldest first. */
    ghost var events: seq<Event>

    /** The lifecycle fields as a value; the queue is kept apart. */
    function State(): Lifecycle
      reads this
    {
      Lifecycle(connected, authenticated, user, reconnect, streamId)
    }

    ghost predicate Valid()
      reads this
    {
      IdentityInvariant(config, State())
    }

    /**
     * Builds a connection for a configuration whose address is well formed;
     * `Create` models the constructor together with the exception it throws
     * otherwise.
     */
    constructor (configuration: Config)
      requires GetUserJid(configuration).Success?
      ensures config == configuration && Valid()
      ensures State() == Created(configuration).value && queue == [] && events == []
    {
      config := configuration;
      reconnect := false;
      queue := [];
      connected := false;
      authenticated := false;
      streamId := None;
      user := Some(GetUserJid(configuration).value);
      events := [];
    }

    /** `new DummyConnection(configuration)`, failing where the address cannot be built. */
    static method Create(configuration: Config) returns (r: Result<DummyConnection, Error>)
      ensures r.Failure? <==> Created(configuration).Failure?
      ensures r.Failure? ==> r.error == Created(configuration).error
      ensures r.Success? ==>
                && fresh(r.value) && r.value.config == configuration && r.value.Valid()
                && r.value.State() == Created(configuration).value
                && r.value.queue == [] && r.value.events == []
    {
      match GetUserJid(configuration) {
        case Failure(e) =>
          r := Failure(e);
        case Success(_) =>
          var connection := new DummyConnection(configuration);
          r := Success(connection);
      }
    }

    method ConnectInternal(nonce: int32)
      requires Valid()
      modifies this
      ensures Valid()
      ensures State() == ConnectionSpec.ConnectInternal(old(State()), nonce).after
      ensures events == old(events) + ConnectionSpec.ConnectInternal(old(State()), nonce).emitted
      ensures queue == old(queue)
    {
      connected := true;
      events := events + [SaslFeatureReceivedSuccess];
      events := events + [TlsHandledSuccess];
      streamId := Some(StreamIdPrefix + IntToString(nonce));
      if reconnect {
        events := events + [ReconnectionNotified];
      }
    }

    method Shutdown()
      requires Valid()
      modifies this
      ensures Valid()
      ensures State() == ConnectionSpec.Shutdown(old(State())).after
      ensures events == old(events) + ConnectionSpec.Shutdown(old(State())).emitted
      ensures queue == old(queue)
    {
      user := None;
      authenticated := false;
      events := events + [ConnectionClosedNotified];
      reconnect := true;
    }

    function IsSecureConnection(): (secure: bool)
      ensures !secure
    {
      false
    }

    function IsUsingCompression(): (compressed: bool)
      ensures !compressed
    {
      false
    }

    /** The arguments are not used: the address comes from the configuration. */
    method LoginInternal(username: string, password: string, resource: Option<string>)
      returns (outcome: Outcome<Error>)
      requires Valid()
      modifies this
      ensures Valid()
      ensures match ConnectionSpec.LoginInternal(config, old(State()), username, password, resource)
              case Success(after) => outcome == Pass && State() == after
              case Failure(e) => outcome == Fail(e) && State() == old(State())
      ensures events == old(events) && queue == old(queue)
    {
      match GetUserJid(config) {
        case Failure(e) =>
          outcome := Fail(e);
        case Success(jid) =>
          user := Some(jid);
          authenticated := true;
          outcome := Pass;
      }
    }

    method SendNonza(element: Nonza)
      requires Valid()
      modifies this`queue
      ensures Valid()
      ensures queue == Send(old(queue), NonzaElement(element))
      ensures State() == old(State())
    {
      queue := queue + [NonzaElement(element)];
    }

    method SendStanzaInternal(packet: Stanza)
      requires Valid()
      modifies this`queue
      ensures Valid()
      ensures queue == Send(old(queue), StanzaElement(packet))
      ensures State() == old(State())
    {
      queue := queue + [StanzaElement(packet)];
    }

    /** The number of sent elements not yet returned by `GetSentPacket`. */
    method GetNumberOfSentPackets() returns (n: nat)
      ensures n == |queue|
    {
      n := |queue|;
    }

    /** `getSentPacket()`: the default wait of five minutes. */
    method GetSentPacket() returns (packet: Option<TopLevelStreamElement>)
      requires Valid()
      modifies this`queue
      ensures Valid()
      ensures queue == PollSent(old(queue)).rest && packet == PollSent(old(queue)).packet
      ensures State() == old(State())
    {
      packet := GetSentPacketWithin(DefaultWaitSeconds);
    }

    /**
     * `getSentPacket(wait)`: the oldest element not yet returned, or nothing.
     * No other thread sends while the model waits, so waiting changes nothing
     * and `wait` has no effect.
     */
    method GetSentPacketWithin(wait: int) returns (packet: Option<TopLevelStreamElement>)
      requires Valid()
      modifies this`queue
      ensures Valid()
      ensures queue == PollSent(old(queue)).rest && packet == PollSent(old(queue)).packet
      ensures State() == old(State())
    {
      if |queue| == 0 {
        packet := None;
      } else {
        packet := Some(queue[0]);
        queue := queue[1..];
      }
    }

    /** Hands a received stanza to the collectors and listeners; nothing is queued. */
    method ProcessStanza(packet: Stanza)
      modifies this`events
      ensures events == old(events) + [StanzaProcessed(packet)]
      ensures State() == old(State()) && queue == old(queue)
    {
      events := events + [StanzaProcessed(packet)];
    }

    method EnableStreamFeature(feature: ExtensionElement)
      modifies this`events
      ensures events == old(events) + [StreamFeatureAdded(feature)]
      ensures State() == old(State()) && queue == old(queue)
    {
      events := events + [StreamFeatureAdded(feature)];
    }
  }

  /**
   * Makes one call on a connection through its method. The object then moves
   * exactly as `LifecycleStep` and `QueueStep` say, so the lemmas of
   * `ConnectionTraces` about `RunLifecycle` and `RunQueue` describe any
   * sequence of method calls on one object.
   */
  method Apply(c: DummyConnection, call: Call)
    returns (packet: Option<TopLevelStreamElement>, failure: Option<Error>)
    requires c.Valid()
    modifies c
    ensures c.Valid()
    ensures c.State() == LifecycleStep(c.config, old(c.State()), call).after
    ensures c.events == old(c.events) + LifecycleStep(c.config, old(c.State()), call).emitted
    ensures failure == LifecycleStep(c.config, old(c.State()), call).failure
    ensures c.queue == QueueStep(old(c.queue), call).rest
    ensures packet == QueueStep(old(c.queue), call).packet
  {
    packet, failure := None, None;
    match call
    case ConnectCall(nonce) =>
      c.ConnectInternal(nonce);
    case LoginCall(username, password, resource) =>
      var outcome := c.LoginInternal(username, password, resource);
      if outcome.Fail? {
        failure := Some(outcome.error);
      }
    case ShutdownCall =>
      c.Shutdown();
    case SendNonzaCall(nonza) =>
      c.SendNonza(nonza);
    case SendStanzaCall(stanza) =>
      c.SendStanzaInternal(stanza);
    case GetSentPacketCall =>
      packet := c.GetSentPacket();
    case ProcessStanzaCall(stanza) =>
      c.ProcessStanza(stanza);
    case EnableStreamFeatureCall(feature) =>
      c.EnableStreamFeature(feature);
  }
}
