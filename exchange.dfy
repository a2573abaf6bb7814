/**
 * The exchange: the process-local pub/sub handle. It owns a registry of
 * channels by name, each with a three-state subscription lifecycle, and asks
 * the cluster client for the broker-level subscription behind each channel.
 *
 * A call to the cluster client is a request recorded in `calls`; a subscribe
 * request also leaves its callback in `awaiting`, and `CompleteSubscribe` runs
 * that callback when the cluster client answers. Emitted events are recorded
 * in `events`.
 */
module ExchangeModel {
  import opened Common

  datatype ChannelState = Unsubscribed | Pending | Subscribed

  /** A channel handle; its state is updated in place by the exchange. */
  class ScChannel {
    const name: string
    var state: ChannelState

    constructor (name: string)
      ensures this.name == name && state == Unsubscribed
    {
      this.name := name;
      state := Unsubscribed;
    }
  }

  /** A call the exchange makes on the cluster client. */
  datatype ClusterCall = SubscribeCall(channel: string) | UnsubscribeCall(channel: string)

  /** An event the exchange emits (on the channel and on itself). */
  datatype ExchangeEvent =
    | SubscribeEvent(channel: string)
    | SubscribeFailEvent(channel: string)
    | UnsubscribeEvent(channel: string)
    | Delivery(channel: string, data: Payload)

  class Exchange {
    /** The channel registry, `_channels`. */
    var channels: map<string, ScChannel>
    /** Calls made on the cluster client, oldest first. */
    var calls: seq<ClusterCall>
    /** Channels whose subscribe callback has not run yet, in the order issued. */
    var awaiting: seq<ScChannel>
    /** Events emitted, oldest first. */
    var events: seq<ExchangeEvent>

    /** Every channel is registered under its own name. */
    ghost predicate Valid()
      reads this, channels.Values
    {
      forall n | n in channels :: channels[n].name == n
    }

    constructor ()
      ensures Valid()
      ensures channels == map[] && calls == [] && awaiting == [] && events == []
    {
      channels := map[];
      calls := [];
      awaiting := [];
      events := [];
    }

    /** The state of the channel called `name`; a channel not yet created counts as unsubscribed. */
    function StateOf(name: string): ChannelState
      reads this, channels.Values
    {
      if name in channels then channels[name].state else Unsubscribed
    }

    /** `isSubscribed(name, includePending)`. */
    function IsSubscribed(name: string, includePending: bool): (r: bool)
      reads this, channels.Values
      ensures r <==> StateOf(name) == Subscribed || (includePending && StateOf(name) == Pending)
    {
      if includePending then
        name in channels && (channels[name].state == Subscribed || channels[name].state == Pending)
      else
        name in channels && channels[name].state == Subscribed
    }

    /**
     * `subscriptions(includePending)`: exactly the channel names for which
     * `isSubscribed(name, includePending)` holds, each once. It changes nothing.
     */
    method Subscriptions(includePending: bool) returns (subs: seq<string>)
      ensures Distinct(subs)
      ensures forall n :: n in subs <==> IsSubscribed(n, includePending)
    {
      subs := [];
      var names := channels.Keys;
      while names != {}
        invariant names <= channels.Keys
        invariant Distinct(subs)
        invariant forall n :: n in subs ==> n in channels.Keys - names && IsSubscribed(n, includePending)
        invariant forall n :: n in channels.Keys - names && IsSubscribed(n, includePending) ==> n in subs
        decreases names
      {
        var n :| n in names;
        names := names - {n};
        var channel := channels[n];
        var includeChannel := if includePending then channel.state == Subscribed || channel.state == Pending
                       else channel.state == Subscribed;
        if includeChannel {
          assert n !in subs;
          subs := subs + [n];
        }
      }
    }

    /** `channel(name)`: the registered channel, created unsubscribed on first use. */
    method Channel(name: string) returns (ch: ScChannel)
      requires Valid()
      modifies this
      ensures Valid()
      ensures name in channels && ch == channels[name]
      ensures name in old(channels) ==> channels == old(channels)
      ensures name !in old(channels) ==> fresh(ch) && ch.state == Unsubscribed && channels == old(channels)[name := ch]
      ensures calls == old(calls) && awaiting == old(awaiting) && events == old(events)
    {
      if name in channels {
        ch := channels[name];
      } else {
        ch := new ScChannel(name);
        channels := channels[name := ch];
      }
    }

    /**
     * `subscribe(name)`: creates the channel if needed; only from UNSUBSCRIBED
     * does it move to PENDING and make one subscribe call. It returns the
     * registered channel.
     */
    method Subscribe(name: string) returns (ch: ScChannel)
      requires Valid()
      modifies this, if name in channels then {channels[name]} else {}
      ensures Valid()
      ensures name in channels && ch == channels[name]
      ensures channels == old(channels)[name := ch]
      ensures name in old(channels) ==> ch == old(channels[name])
      ensures name !in old(channels) ==> fresh(ch)
      ensures ch.state == if old(StateOf(name)) == Unsubscribed then Pending else old(StateOf(name))
      ensures old(StateOf(name)) == Unsubscribed ==>
        calls == old(calls) + [SubscribeCall(name)] && awaiting == old(awaiting) + [ch]
      ensures old(StateOf(name)) != Unsubscribed ==> calls == old(calls) && awaiting == old(awaiting)
      ensures events == old(events)
    {
      ch := Channel(name);
      if ch.state == Unsubscribed {
        ch.state := Pending;
        calls := calls + [SubscribeCall(name)];
        awaiting := awaiting + [ch];
      }
    }

    /** `_triggerChannelSubscribe`. */
    method TriggerSubscribe(ch: ScChannel)
      modifies this, ch
      ensures ch.state == Subscribed
      ensures events == old(events) + [SubscribeEvent(ch.name)]
      ensures channels == old(channels) && calls == old(calls) && awaiting == old(awaiting)
    {
      ch.state := Subscribed;
      events := events + [SubscribeEvent(ch.name)];
    }

    /** `_triggerChannelSubscribeFail`. */
    method TriggerSubscribeFail(ch: ScChannel)
      modifies this, ch
      ensures ch.state == Unsubscribed
      ensures events == old(events) + [SubscribeFailEvent(ch.name)]
      ensures channels == old(channels) && calls == old(calls) && awaiting == old(awaiting)
    {
      ch.state := Unsubscribed;
      events := events + [SubscribeFailEvent(ch.name)];
    }

    /**
     * `_triggerChannelUnsubscribe`: moves to `newState` (UNSUBSCRIBED when not
     * given) and emits an unsubscribe event only when the channel was SUBSCRIBED.
     */
    method TriggerUnsubscribe(ch: ScChannel, newState: Option<ChannelState>)
      modifies this, ch
      ensures ch.state == if newState.Some? then newState.value else Unsubscribed
      ensures events == old(events) + if old(ch.state) == Subscribed then [UnsubscribeEvent(ch.name)] else []
      ensures channels == old(channels) && calls == old(calls) && awaiting == old(awaiting)
    {
      var oldState := ch.state;
      ch.state := if newState.Some? then newState.value else Unsubscribed;
      if oldState == Subscribed {
        events := events + [UnsubscribeEvent(ch.name)];
      }
    }

    /**
     * The callback of the subscribe call for `awaiting[i]`: SUBSCRIBED on
     * success, UNSUBSCRIBED on failure, whatever the channel's state was in
     * the meantime and even if it has left the registry.
     */
    method CompleteSubscribe(i: nat, failed: bool)
      requires Valid()
      requires i < |awaiting|
      modifies this, awaiting[i]
      ensures Valid()
      ensures old(awaiting[i]).state == if failed then Unsubscribed else Subscribed
      ensures awaiting == old(RemoveAt(awaiting, i))
      ensures events == old(events) + [if failed then SubscribeFailEvent(old(awaiting[i]).name)
                                       else SubscribeEvent(old(awaiting[i]).name)]
      ensures channels == old(channels) && calls == old(calls)
    {
      var ch := awaiting[i];
      awaiting := RemoveAt(awaiting, i);
      if failed {
        TriggerSubscribeFail(ch);
      } else {
        TriggerSubscribe(ch);
      }
    }

    /**
     * `unsubscribe(name)`: a channel that is PENDING or SUBSCRIBED becomes
     * UNSUBSCRIBED and one unsubscribe call is made; otherwise nothing changes.
     * No callback is passed: the call is taken never to fail.
     */
    method Unsubscribe(name: string)
      requires Valid()
      modifies this, if name in channels then {channels[name]} else {}
      ensures Valid()
      ensures channels == old(channels) && awaiting == old(awaiting)
      ensures StateOf(name) == Unsubscribed
      ensures old(StateOf(name)) == Unsubscribed ==> calls == old(calls) && events == old(events)
      ensures old(StateOf(name)) != Unsubscribed ==>
        && calls == old(calls) + [UnsubscribeCall(name)]
        && events == old(events) + if old(StateOf(name)) == Subscribed then [UnsubscribeEvent(name)] else []
    {
      if name in channels {
        var ch := channels[name];
        if ch.state != Unsubscribed {
          TriggerUnsubscribe(ch, None);
          calls := calls + [UnsubscribeCall(name)];
        }
      }
    }

    /**
     * `destroyChannel(name)`: the channel leaves the registry. The source
     * dereferences the channel first, so it must exist.
     */
    method DestroyChannel(name: string)
      requires Valid()
      requires name in channels
      modifies this
      ensures Valid()
      ensures channels == old(channels) - {name}
      ensures calls == old(calls) && awaiting == old(awaiting) && events == old(events)
    {
      channels := channels - {name};
    }

    /**
     * `_handleChannelMessage`: a message reaches the channel's watchers only
     * when the channel is SUBSCRIBED (a PENDING channel does not count).
     */
    method HandleChannelMessage(name: string, data: Payload)
      modifies this
      ensures events == old(events) + if IsSubscribed(name, false) then [Delivery(name, data)] else []
      ensures channels == old(channels) && calls == old(calls) && awaiting == old(awaiting)
    {
      if IsSubscribed(name, false) {
        events := events + [Delivery(name, data)];
      }
    }
  }
}
