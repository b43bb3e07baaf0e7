/**
 * What sequences of calls on the dummy connection do: the outbound queue is
 * one first-in first-out queue shared by both kinds of element, the
 * reconnection notification is armed by shutdown alone, and the user identity
 * is always the configured one or absent.
 */
module ConnectionTraces {
  import opened Options
  import opened Packets
  import opened Jids
  import opened Decimal
  import opened ConnectionSpec

  /** `k` consecutive `getSentPacket` calls. */
  function Drains(k: nat): (calls: seq<Call>)
    ensures |calls| == k && forall i :: 0 <= i < k ==> calls[i] == GetSentPacketCall
  {
    seq(k, _ => GetSentPacketCall)
  }

  predicate NoDrains(calls: seq<Call>) {
    forall i :: 0 <= i < |calls| ==> !calls[i].GetSentPacketCall?
  }

  lemma Associative<T>(x: seq<T>, y: seq<T>, z: seq<T>)
    ensures (x + y) + z == x + (y + z)
  {
  }

  /** One call: what it drains followed by what is left is what was queued plus what it sends. */
  lemma StepKeepsQueueOrder(queue: seq<TopLevelStreamElement>, call: Call)
    ensures var p := QueueStep(queue, call);
            (if p.packet.Some? then [p.packet.value] else []) + p.rest == queue + SentBy(call)
  {
  }

  /**
   * Every element ever queued is either already drained or still queued, and
   * in the order it was sent: drained elements followed by the remaining queue
   * are exactly the initial queue followed by everything sent.
   */
  lemma {:induction false} DrainedThenQueuedIsSent(queue: seq<TopLevelStreamElement>, calls: seq<Call>)
    ensures RunQueue(queue, calls).drained + RunQueue(queue, calls).queue == queue + Sent(calls)
    decreases |calls|
  {
    if calls != [] {
      var p := QueueStep(queue, calls[0]);
      var head := if p.packet.Some? then [p.packet.value] else [];
      var rest := RunQueue(p.rest, calls[1..]);
      var tail := Sent(calls[1..]);
      DrainedThenQueuedIsSent(p.rest, calls[1..]);
      StepKeepsQueueOrder(queue, calls[0]);
      Associative(head, rest.drained, rest.queue);
      Associative(head, p.rest, tail);
      Associative(queue, SentBy(calls[0]), tail);
    }
  }

  /**
   * First in, first out: the drained elements are a prefix of the initial
   * queue followed by the sent elements, and the queue holds the rest.
   */
  lemma DrainOrderIsSendOrder(queue: seq<TopLevelStreamElement>, calls: seq<Call>)
    ensures var r := RunQueue(queue, calls);
            |r.drained| <= |queue| + |Sent(calls)|
            && r.drained == (queue + Sent(calls))[..|r.drained|]
            && r.queue == (queue + Sent(calls))[|r.drained|..]
  {
    DrainedThenQueuedIsSent(queue, calls);
  }

  /** From an empty queue, the drains return exactly the first elements sent, in order. */
  lemma DrainsReturnFirstSent(calls: seq<Call>)
    ensures var r := RunQueue([], calls);
            |r.drained| <= |Sent(calls)| && r.drained == Sent(calls)[..|r.drained|]
  {
    DrainOrderIsSendOrder([], calls);
    assert [] + Sent(calls) == Sent(calls);
  }

  /** Queue depth is what was queued, plus what was sent, minus what was drained. */
  lemma QueueDepth(queue: seq<TopLevelStreamElement>, calls: seq<Call>)
    ensures var r := RunQueue(queue, calls);
            |r.queue| == |queue| + |Sent(calls)| - |r.drained|
  {
    DrainedThenQueuedIsSent(queue, calls);
  }

  /** Without drains nothing is returned and every sent element stays queued. */
  lemma {:induction false} NoDrainsKeepEverything(queue: seq<TopLevelStreamElement>, calls: seq<Call>)
    requires NoDrains(calls)
    ensures RunQueue(queue, calls).drained == []
    ensures RunQueue(queue, calls).queue == queue + Sent(calls)
    decreases |calls|
  {
    if calls != [] {
      var p := QueueStep(queue, calls[0]);
      assert !calls[0].GetSentPacketCall?;
      assert NoDrains(calls[1..]) by {
        forall i | 0 <= i < |calls[1..]| ensures !calls[1..][i].GetSentPacketCall? {
          assert calls[1..][i] == calls[i + 1];
        }
      }
      NoDrainsKeepEverything(p.rest, calls[1..]);
    }
    DrainedThenQueuedIsSent(queue, calls);
  }

  /** Calls other than sends and drains leave the queue as it was and return nothing. */
  lemma {:induction false} OtherCallsKeepQueue(queue: seq<TopLevelStreamElement>, calls: seq<Call>)
    requires forall i :: 0 <= i < |calls| ==> !calls[i].IsQueueCall()
    ensures RunQueue(queue, calls) == QueueTrace(queue, [])
    decreases |calls|
  {
    if calls != [] {
      assert !calls[0].IsQueueCall();
      OtherCallsKeepQueue(queue, calls[1..]);
    }
  }

  /** Running two call sequences one after the other is running their concatenation. */
  lemma {:induction false} RunQueueAppend(queue: seq<TopLevelStreamElement>, a: seq<Call>, b: seq<Call>)
    ensures RunQueue(queue, a + b).queue == RunQueue(RunQueue(queue, a).queue, b).queue
    ensures RunQueue(queue, a + b).drained == RunQueue(queue, a).drained + RunQueue(RunQueue(queue, a).queue, b).drained
    decreases |a|
  {
    if a != [] {
      assert (a + b)[0] == a[0];
      assert (a + b)[1..] == a[1..] + b;
      var p := QueueStep(queue, a[0]);
      RunQueueAppend(p.rest, a[1..], b);
    } else {
      assert a + b == b;
    }
  }

  /** `k` drains on a queue of at least `k` elements return its first `k`, in order. */
  lemma {:induction false} DrainsTakeHead(queue: seq<TopLevelStreamElement>, k: nat)
    requires k <= |queue|
    ensures RunQueue(queue, Drains(k)).drained == queue[..k]
    ensures RunQueue(queue, Drains(k)).queue == queue[k..]
    decreases k
  {
    if k > 0 {
      assert Drains(k)[0] == GetSentPacketCall;
      assert Drains(k)[1..] == Drains(k - 1);
      DrainsTakeHead(queue[1..], k - 1);
      assert queue[..k] == [queue[0]] + queue[1..][..k - 1];
    }
  }

  /** Draining as many elements as are queued after some calls returns all of them and empties the queue. */
  lemma RunThenDrainAll(queue: seq<TopLevelStreamElement>, calls: seq<Call>)
    ensures var first := RunQueue(queue, calls);
            var whole := RunQueue(queue, calls + Drains(|first.queue|));
            whole.drained == first.drained + first.queue && whole.queue == []
  {
    var first := RunQueue(queue, calls);
    var k := |first.queue|;
    RunQueueAppend(queue, calls, Drains(k));
    DrainsTakeHead(first.queue, k);
    assert first.queue[..k] == first.queue;
  }

  /**
   * After any sends (and other calls, but no drains), as many drains as there
   * are queued elements return all of them in send order and empty the queue.
   */
  lemma SendsThenDrainAll(queue: seq<TopLevelStreamElement>, calls: seq<Call>)
    requires NoDrains(calls)
    ensures var whole := RunQueue(queue, calls + Drains(|queue| + |Sent(calls)|));
            whole.drained == queue + Sent(calls) && whole.queue == []
  {
    var first := RunQueue(queue, calls);
    NoDrainsKeepEverything(queue, calls);
    assert first.drained == [] && first.queue == queue + Sent(calls);
    assert |first.queue| == |queue| + |Sent(calls)|;
    RunThenDrainAll(queue, calls);
    assert [] + (queue + Sent(calls)) == queue + Sent(calls);
  }

  /** The reconnect flag is set exactly when it was already set or a shutdown happened. */
  lemma {:induction false} ReconnectFlag(config: Config, l: Lifecycle, calls: seq<Call>)
    ensures RunLifecycle(config, l, calls).after.reconnect <==> l.reconnect || ShutdownCall in calls
    decreases |calls|
  {
    if calls != [] {
      var e := LifecycleStep(config, l, calls[0]);
      assert e.after.reconnect <==> l.reconnect || calls[0] == ShutdownCall;
      ReconnectFlag(config, e.after, calls[1..]);
      assert calls == [calls[0]] + calls[1..];
    }
  }

  /**
   * On a connection as constructed, a connect fires the reconnection
   * notification (exactly once) if and only if some earlier call was a
   * shutdown; in particular the first connect never fires it.
   */
  lemma ConnectNotifiesIffShutdownBefore(config: Config, calls: seq<Call>, nonce: int32)
    requires Created(config).Success?
    ensures var l := RunLifecycle(config, Created(config).value, calls).after;
            var t := ConnectInternal(l, nonce);
            && (ReconnectionNotified in t.emitted <==> ShutdownCall in calls)
            && multiset(t.emitted)[ReconnectionNotified] == if ShutdownCall in calls then 1 else 0
  {
    var l := RunLifecycle(config, Created(config).value, calls).after;
    ReconnectFlag(config, Created(config).value, calls);
    var t := ConnectInternal(l, nonce);
    if l.reconnect {
      assert t.emitted == [SaslFeatureReceivedSuccess, TlsHandledSuccess, ReconnectionNotified];
    } else {
      assert t.emitted == [SaslFeatureReceivedSuccess, TlsHandledSuccess];
    }
  }

  /**
   * The identity invariant: an authenticated connection has a user, and the
   * user, when present, is the address built from the configuration.
   */
  predicate IdentityInvariant(config: Config, l: Lifecycle) {
    && (l.authenticated ==> l.user.Some?)
    && (l.user.Some? ==> GetUserJid(config) == Success(l.user.value))
  }

  lemma CreatedSatisfiesIdentityInvariant(config: Config)
    requires Created(config).Success?
    ensures IdentityInvariant(config, Created(config).value)
  {
  }

  lemma StepKeepsIdentityInvariant(config: Config, l: Lifecycle, call: Call)
    requires IdentityInvariant(config, l)
    ensures IdentityInvariant(config, LifecycleStep(config, l, call).after)
  {
  }

  /** Every sequence of calls keeps the identity invariant. */
  lemma {:induction false} RunKeepsIdentityInvariant(config: Config, l: Lifecycle, calls: seq<Call>)
    requires IdentityInvariant(config, l)
    ensures IdentityInvariant(config, RunLifecycle(config, l, calls).after)
    decreases |calls|
  {
    if calls != [] {
      var e := LifecycleStep(config, l, calls[0]);
      StepKeepsIdentityInvariant(config, l, calls[0]);
      RunKeepsIdentityInvariant(config, e.after, calls[1..]);
    }
  }

  /** The arguments of `loginInternal` have no effect. */
  lemma LoginIgnoresArguments(config: Config, l: Lifecycle,
                              u1: string, p1: string, r1: Option<string>,
                              u2: string, p2: string, r2: Option<string>)
    ensures LifecycleStep(config, l, LoginCall(u1, p1, r1)) == LifecycleStep(config, l, LoginCall(u2, p2, r2))
  {
  }

  /**
   * Shutting down, reconnecting and logging in again restores the identity
   * the constructor built and fires connection-closed, then the two signals,
   * then one reconnection notification. (The queue is untouched by these calls,
   * see `OtherCallsKeepQueue`.)
   */
  lemma ShutdownReconnectLogin(config: Config, l: Lifecycle, nonce: int32,
                               username: string, password: string, resource: Option<string>)
    requires Created(config).Success?
    ensures var closed := Shutdown(l);
            var reconnected := ConnectInternal(closed.after, nonce);
            var login := LoginInternal(config, reconnected.after, username, password, resource);
            && login.Success?
            && login.value.connected && login.value.authenticated && login.value.reconnect
            && login.value.user == Created(config).value.user
            && closed.emitted + reconnected.emitted
               == [ConnectionClosedNotified, SaslFeatureReceivedSuccess, TlsHandledSuccess, ReconnectionNotified]
  {
    var closed := Shutdown(l);
    var reconnected := ConnectInternal(closed.after, nonce);
    assert reconnected.emitted == [SaslFeatureReceivedSuccess, TlsHandledSuccess, ReconnectionNotified];
  }

  /**
   * Without a configured resource, a well-formed user name and domain yield
   * the address `username@domain/Test` (for instance alice@example.org/Test).
   */
  lemma IdentityWithoutResource(config: Config)
    requires config.resource.None?
    requires ValidLocalOrDomainpart(config.username) && ValidLocalOrDomainpart(config.xmppServiceDomain)
    ensures GetUserJid(config).Success?
    ensures GetUserJid(config).value.ToString() == config.username + "@" + config.xmppServiceDomain + "/Test"
  {
    assert ValidIdentity(config);
  }
}
