/**
 * The subscription manager of the cluster client. It reconciles the
 * exchange-level subscription table with the per-socket subscriptions,
 * enforces the per-socket channel limit, and fans inbound messages out to the
 * subscribed sockets.
 *
 * Every broker round-trip is a request recorded in `brokerLog` and left in
 * `outstanding` with the continuation its callback runs; the `Ack*` methods
 * run that continuation when the broker answers, in any order.
 */
module SubscriptionManager {
  import opened Common

  type SocketId = string

  /** The two values an `_exchangeSubscriptions` entry takes: `'pending'` and `true`. */
  datatype Entry = Pending | Subscribed

  /** A client socket, with the subscription bookkeeping `_decorateSocket` attaches to it. */
  class Socket {
    const id: SocketId
    /** `channelSubscriptions`: the channels this socket has marked. */
    var channelSubscriptions: set<string>
    /** `channelSubscriptionCount`; it can drift from the number of marks. */
    var channelSubscriptionCount: int

    /** `_decorateSocket`: no channel marked, count 0. */
    constructor Decorate(id: SocketId)
      ensures this.id == id
      ensures channelSubscriptions == {} && channelSubscriptionCount == 0
    {
      this.id := id;
      channelSubscriptions := {};
      channelSubscriptionCount := 0;
    }

    /** `socket.isSubscribed(channel)`: the socket holds a mark for the channel. */
    function IsSubscribed(channel: string): (r: bool)
      reads this
      ensures r <==> channel in channelSubscriptions
    {
      channel in channelSubscriptions
    }

    /** `socket.subscriptions()`: every marked channel, once each. */
    method Subscriptions() returns (subs: seq<string>)
      ensures Distinct(subs)
      ensures Elems(subs) == channelSubscriptions
      ensures forall c :: c in subs <==> IsSubscribed(c)
    {
      subs := [];
      var left := channelSubscriptions;
      while left != {}
        invariant left <= channelSubscriptions
        invariant Distinct(subs)
        invariant Elems(subs) == channelSubscriptions - left
        decreases left
      {
        var c :| c in left;
        left := left - {c};
        assert c !in subs;
        assert Elems(subs + [c]) == Elems(subs) + {c};
        subs := subs + [c];
      }
    }
  }

  /** A request made to the broker through the private client cluster. */
  datatype BrokerOp = BrokerSubscribe(channel: string) | BrokerUnsubscribe(channel: string)

  /** What runs when a broker request answers. */
  datatype Continuation =
      /** The callback of the exchange-level `subscribe`. */
    | ExchangeSubscribeDone(channel: string)
      /** `addSubscription` of a socket subscribe; `rest` are the waterfall's remaining channels. */
    | SocketSubscribeDone(socket: Socket, channel: string, rest: seq<string>)
      /** The end of a socket unsubscribe that waited for the broker; `rest` as above. */
    | SocketUnsubscribeDone(socket: Socket, channel: string, rest: seq<string>)
      /** Only a caller's callback, if any: no state of the client changes. */
    | CallerDone

  datatype Outstanding = Outstanding(op: BrokerOp, onDone: Continuation)

  /**
   * A request and its callback belong together: a subscribe callback waits on
   * a broker subscribe of its own channel, an unsubscribe callback on a broker
   * unsubscribe.
   */
  predicate Matches(o: Outstanding)
  {
    match o.onDone
    case ExchangeSubscribeDone(c) => o.op == BrokerSubscribe(c)
    case SocketSubscribeDone(_, c, _) => o.op == BrokerSubscribe(c)
    case SocketUnsubscribeDone(_, c, _) => o.op == BrokerUnsubscribe(c)
    case CallerDone => o.op.BrokerUnsubscribe?
  }

  predicate AllMatch(os: seq<Outstanding>)
  {
    forall o | o in os :: Matches(o)
  }

  /** The sockets subscribed to `c`; a missing entry is an empty set. */
  function SubscribersOf(subs: map<string, set<SocketId>>, c: string): set<SocketId>
  {
    if c in subs then subs[c] else {}
  }

  /** No channel keeps an empty subscriber set. */
  predicate NoEmptySets(subs: map<string, set<SocketId>>)
  {
    forall c | c in subs :: subs[c] != {}
  }

  /** The drop rule's condition: no subscribed socket and no exchange-level entry. */
  predicate NoInterest(exchange: map<string, Entry>, subs: map<string, set<SocketId>>, c: string)
  {
    c !in exchange && SubscribersOf(subs, c) == {}
  }

  /** The subscriber table after socket `id` joins channel `c`. */
  function With(subs: map<string, set<SocketId>>, c: string, id: SocketId): (r: map<string, set<SocketId>>)
    ensures SubscribersOf(r, c) == SubscribersOf(subs, c) + {id}
    ensures forall d | d != c :: SubscribersOf(r, d) == SubscribersOf(subs, d)
    ensures NoEmptySets(subs) ==> NoEmptySets(r)
  {
    subs[c := SubscribersOf(subs, c) + {id}]
  }

  /** The subscriber table after socket `id` leaves channel `c`; an emptied set is dropped. */
  function Without(subs: map<string, set<SocketId>>, c: string, id: SocketId): (r: map<string, set<SocketId>>)
    ensures SubscribersOf(r, c) == SubscribersOf(subs, c) - {id}
    ensures forall d | d != c :: SubscribersOf(r, d) == SubscribersOf(subs, d)
    ensures NoEmptySets(subs) ==> NoEmptySets(r)
    ensures r.Keys <= subs.Keys
  {
    if c in subs then
      if subs[c] - {id} == {} then subs - {c} else subs[c := subs[c] - {id}]
    else subs
  }

  /** `Without` for each channel of `cs` in turn. */
  function WithoutAll(subs: map<string, set<SocketId>>, cs: seq<string>, id: SocketId): map<string, set<SocketId>>
  {
    if cs == [] then subs else Without(WithoutAll(subs, cs[..|cs| - 1], id), cs[|cs| - 1], id)
  }

  /** In one step: socket `id` taken out of the sets of the channels in `cs`, emptied sets dropped. */
  function RemovedFrom(subs: map<string, set<SocketId>>, cs: set<string>, id: SocketId): map<string, set<SocketId>>
  {
    map c | c in subs && (c !in cs || subs[c] - {id} != {}) :: if c in cs then subs[c] - {id} else subs[c]
  }

  /**
   * Leaving channels one at a time is leaving them all at once: the order of
   * the channels and repetitions among them do not matter.
   */
  lemma {:induction false} WithoutAllIsRemovedFrom(subs: map<string, set<SocketId>>, cs: seq<string>, id: SocketId)
    ensures WithoutAll(subs, cs, id) == RemovedFrom(subs, Elems(cs), id)
  {
    if cs == [] {
      assert RemovedFrom(subs, {}, id) == subs;
    } else {
      var front := cs[..|cs| - 1];
      var x := cs[|cs| - 1];
      WithoutAllIsRemovedFrom(subs, front, id);
      assert Elems(cs) == Elems(front) + {x} by {
        assert cs == front + [x];
      }
      var before := RemovedFrom(subs, Elems(front), id);
      var after := RemovedFrom(subs, Elems(cs), id);
      var stepped := Without(before, x, id);
      assert stepped.Keys == after.Keys;
      forall c | c in after
        ensures stepped[c] == after[c]
      {
        assert SubscribersOf(stepped, c) == SubscribersOf(after, c);
      }
    }
  }

  /** After socket `id` leaves channels `cs`, it is in none of their sets and every other set is as it was. */
  lemma LeavingChannels(subs: map<string, set<SocketId>>, cs: seq<string>, id: SocketId)
    ensures forall c | c in cs :: id !in SubscribersOf(WithoutAll(subs, cs, id), c)
    ensures forall c | c !in cs :: SubscribersOf(WithoutAll(subs, cs, id), c) == SubscribersOf(subs, c)
  {
    WithoutAllIsRemovedFrom(subs, cs, id);
  }

  class ClusterClient {
    /** `socketChannelLimit`; 0 stands for an absent (falsy) limit. */
    const socketChannelLimit: int
    /** `_exchangeSubscriptions`. */
    var exchangeSubscriptions: map<string, Entry>
    /** `_clientSubscribers`: channel to the ids of the sockets subscribed to it. */
    var clientSubscribers: map<string, set<SocketId>>
    /** Every broker request made, oldest first. */
    var brokerLog: seq<BrokerOp>
    /** Broker requests whose callback has not run yet. */
    var outstanding: seq<Outstanding>

    /**
     * No channel keeps an empty subscriber set, every request in flight waits
     * with its own callback, and every `'pending'` entry of the exchange table
     * has its broker subscribe in flight.
     */
    ghost predicate Valid()
      reads this
    {
      && NoEmptySets(clientSubscribers)
      && AllMatch(outstanding)
      && forall c | c in exchangeSubscriptions && exchangeSubscriptions[c] == Pending ::
           Outstanding(BrokerSubscribe(c), ExchangeSubscribeDone(c)) in outstanding
    }

    constructor (socketChannelLimit: int)
      ensures Valid()
      ensures this.socketChannelLimit == socketChannelLimit
      ensures exchangeSubscriptions == map[] && clientSubscribers == map[]
      ensures brokerLog == [] && outstanding == []
    {
      this.socketChannelLimit := socketChannelLimit;
      exchangeSubscriptions := map[];
      clientSubscribers := map[];
      brokerLog := [];
      outstanding := [];
    }

    /** `isSubscribed(channel, includePending)`: an entry exists, or the entry is `true`. */
    function IsSubscribed(channel: string, includePending: bool): (r: bool)
      reads this
      ensures includePending ==> (r <==> channel in exchangeSubscriptions)
      ensures !includePending ==> (r <==> channel in exchangeSubscriptions && exchangeSubscriptions[channel] == Subscribed)
    {
      if includePending then channel in exchangeSubscriptions
      else channel in exchangeSubscriptions && exchangeSubscriptions[channel] == Subscribed
    }

    /** Taking out `outstanding[i]` keeps tracked every `'pending'` entry whose request it is not. */
    lemma RemoveKeepsTracked(i: nat)
      requires Valid() && i < |outstanding|
      ensures forall d | d in exchangeSubscriptions && exchangeSubscriptions[d] == Pending ::
        outstanding[i] != Outstanding(BrokerSubscribe(d), ExchangeSubscribeDone(d)) ==>
        Outstanding(BrokerSubscribe(d), ExchangeSubscribeDone(d)) in RemoveAt(outstanding, i)
    {
      forall d | d in exchangeSubscriptions && exchangeSubscriptions[d] == Pending &&
                 outstanding[i] != Outstanding(BrokerSubscribe(d), ExchangeSubscribeDone(d))
        ensures Outstanding(BrokerSubscribe(d), ExchangeSubscribeDone(d)) in RemoveAt(outstanding, i)
      {
        var o := Outstanding(BrokerSubscribe(d), ExchangeSubscribeDone(d));
        var j :| 0 <= j < |outstanding| && outstanding[j] == o;
        if j < i {
          assert RemoveAt(outstanding, i)[j] == o;
        } else {
          assert RemoveAt(outstanding, i)[j - 1] == o;
        }
      }
    }

    /**
     * `_dropUnusedSubscriptions(channel)`: an empty or missing subscriber set
     * is deleted; when it was and the exchange table has no entry, one broker
     * unsubscribe is issued, whose callback is `onDone`. Otherwise nothing changes.
     */
    method DropUnused(channel: string, onDone: Continuation) returns (issued: bool)
      requires Valid()
      requires Matches(Outstanding(BrokerUnsubscribe(channel), onDone))
      modifies this
      ensures Valid()
      ensures issued == NoInterest(old(exchangeSubscriptions), old(clientSubscribers), channel)
      ensures clientSubscribers ==
        if SubscribersOf(old(clientSubscribers), channel) == {} then old(clientSubscribers) - {channel}
        else old(clientSubscribers)
      ensures issued ==>
        && brokerLog == old(brokerLog) + [BrokerUnsubscribe(channel)]
        && outstanding == old(outstanding) + [Outstanding(BrokerUnsubscribe(channel), onDone)]
      ensures !issued ==> brokerLog == old(brokerLog) && outstanding == old(outstanding)
      ensures exchangeSubscriptions == old(exchangeSubscriptions)
    {
      issued := false;
      if SubscribersOf(clientSubscribers, channel) == {} {
        clientSubscribers := clientSubscribers - {channel};
        if channel !in exchangeSubscriptions {
          brokerLog := brokerLog + [BrokerUnsubscribe(channel)];
          outstanding := outstanding + [Outstanding(BrokerUnsubscribe(channel), onDone)];
          issued := true;
        }
      }
    }

    /**
     * The exchange-level `subscribe(channel)`: with no entry, record `'pending'`
     * and issue one broker subscribe; with any entry, answer success at once
     * and change nothing.
     */
    method Subscribe(channel: string) returns (issued: bool)
      requires Valid()
      modifies this
      ensures Valid()
      ensures issued == (channel !in old(exchangeSubscriptions))
      ensures issued ==>
        && exchangeSubscriptions == old(exchangeSubscriptions)[channel := Pending]
        && brokerLog == old(brokerLog) + [BrokerSubscribe(channel)]
        && outstanding == old(outstanding) + [Outstanding(BrokerSubscribe(channel), ExchangeSubscribeDone(channel))]
      ensures !issued ==>
        exchangeSubscriptions == old(exchangeSubscriptions) && brokerLog == old(brokerLog) && outstanding == old(outstanding)
      ensures clientSubscribers == old(clientSubscribers)
    {
      issued := channel !in exchangeSubscriptions;
      if issued {
        exchangeSubscriptions := exchangeSubscriptions[channel := Pending];
        var o := Outstanding(BrokerSubscribe(channel), ExchangeSubscribeDone(channel));
        brokerLog := brokerLog + [BrokerSubscribe(channel)];
        outstanding := outstanding + [o];
        assert o in outstanding;
      }
    }

    /**
     * The broker answers the exchange-level subscribe `outstanding[i]`: on
     * success the entry becomes `true` (even if it was deleted meanwhile); on
     * failure it is deleted and the drop rule runs.
     */
    method AckExchangeSubscribe(i: nat, failed: bool) returns (dropIssued: bool)
      requires Valid()
      requires i < |outstanding| && outstanding[i].onDone.ExchangeSubscribeDone?
      modifies this
      ensures Valid()
      ensures var c := old(outstanding[i].onDone.channel);
        && (!failed ==>
              && exchangeSubscriptions == old(exchangeSubscriptions)[c := Subscribed]
              && clientSubscribers == old(clientSubscribers)
              && brokerLog == old(brokerLog) && outstanding == old(RemoveAt(outstanding, i))
              && !dropIssued)
        && (failed ==>
              && exchangeSubscriptions == old(exchangeSubscriptions) - {c}
              && dropIssued == (SubscribersOf(old(clientSubscribers), c) == {})
              && clientSubscribers == (if dropIssued then old(clientSubscribers) - {c} else old(clientSubscribers))
              && brokerLog == old(brokerLog) + (if dropIssued then [BrokerUnsubscribe(c)] else [])
              && outstanding == old(RemoveAt(outstanding, i)) +
                   (if dropIssued then [Outstanding(BrokerUnsubscribe(c), CallerDone)] else []))
    {
      var c := outstanding[i].onDone.channel;
      RemoveKeepsTracked(i);
      outstanding := RemoveAt(outstanding, i);
      dropIssued := false;
      if failed {
        exchangeSubscriptions := exchangeSubscriptions - {c};
        dropIssued := DropUnused(c, CallerDone);
      } else {
        exchangeSubscriptions := exchangeSubscriptions[c := Subscribed];
      }
    }

    /** The exchange-level `unsubscribe(channel)`: delete the entry, then the drop rule. */
    method Unsubscribe(channel: string) returns (issued: bool)
      requires Valid()
      modifies this
      ensures Valid()
      ensures exchangeSubscriptions == old(exchangeSubscriptions) - {channel}
      ensures !IsSubscribed(channel, true)
      ensures issued == (SubscribersOf(old(clientSubscribers), channel) == {})
      ensures clientSubscribers == if issued then old(clientSubscribers) - {channel} else old(clientSubscribers)
      ensures brokerLog == old(brokerLog) + if issued then [BrokerUnsubscribe(channel)] else []
      ensures outstanding == old(outstanding) + if issued then [Outstanding(BrokerUnsubscribe(channel), CallerDone)] else []
    {
      exchangeSubscriptions := exchangeSubscriptions - {channel};
      issued := DropUnused(channel, CallerDone);
    }

    /**
     * `unsubscribeAll()`: every entry of the exchange table is deleted, then
     * the drop rule runs for each of those channels as independent tasks.
     * `dropped` lists, once each, the channels that got a broker unsubscribe:
     * those no socket is subscribed to.
     */
    method UnsubscribeAll() returns (dropped: seq<string>)
      requires Valid()
      modifies this
      ensures Valid()
      ensures exchangeSubscriptions == map[]
      ensures clientSubscribers == old(clientSubscribers)
      ensures Distinct(dropped)
      ensures forall c :: c in dropped <==> c in old(exchangeSubscriptions) && c !in clientSubscribers
      ensures |brokerLog| == |old(brokerLog)| + |dropped| && brokerLog[..|old(brokerLog)|] == old(brokerLog)
      ensures forall j | 0 <= j < |dropped| :: brokerLog[|old(brokerLog)| + j] == BrokerUnsubscribe(dropped[j])
      ensures |outstanding| == |old(outstanding)| + |dropped| && outstanding[..|old(outstanding)|] == old(outstanding)
      ensures forall j | 0 <= j < |dropped| ::
        outstanding[|old(outstanding)| + j] == Outstanding(BrokerUnsubscribe(dropped[j]), CallerDone)
    {
      // The for-in loop: delete every entry, queueing one drop-rule task per channel.
      var tasks := [];
      var left := exchangeSubscriptions.Keys;
      while left != {}
        invariant left <= old(exchangeSubscriptions).Keys
        invariant Distinct(tasks)
        invariant Elems(tasks) == old(exchangeSubscriptions).Keys - left
        invariant exchangeSubscriptions == old(exchangeSubscriptions) - Elems(tasks)
        invariant clientSubscribers == old(clientSubscribers)
        invariant brokerLog == old(brokerLog) && outstanding == old(outstanding)
        invariant Valid()
        decreases left
      {
        var c :| c in left;
        left := left - {c};
        exchangeSubscriptions := exchangeSubscriptions - {c};
        assert c !in tasks;
        assert Elems(tasks + [c]) == Elems(tasks) + {c};
        tasks := tasks + [c];
      }
      assert exchangeSubscriptions == map[];
      assert forall c :: c in tasks <==> c in Elems(tasks);
      // async.parallel: each task runs the drop rule.
      dropped := [];
      var k := 0;
      while k < |tasks|
        invariant 0 <= k <= |tasks|
        invariant Valid()
        invariant exchangeSubscriptions == map[]
        invariant clientSubscribers == old(clientSubscribers)
        invariant Distinct(dropped)
        invariant forall c :: c in dropped <==> c in tasks[..k] && c !in clientSubscribers
        invariant |brokerLog| == |old(brokerLog)| + |dropped| && brokerLog[..|old(brokerLog)|] == old(brokerLog)
        invariant forall j | 0 <= j < |dropped| :: brokerLog[|old(brokerLog)| + j] == BrokerUnsubscribe(dropped[j])
        invariant |outstanding| == |old(outstanding)| + |dropped| && outstanding[..|old(outstanding)|] == old(outstanding)
        invariant forall j | 0 <= j < |dropped| ::
          outstanding[|old(outstanding)| + j] == Outstanding(BrokerUnsubscribe(dropped[j]), CallerDone)
      {
        var c := tasks[k];
        assert c !in tasks[..k];
        assert c !in dropped;
        var issued := DropUnused(c, CallerDone);
        assert clientSubscribers - {c} == clientSubscribers || c in clientSubscribers;
        if issued {
          dropped := dropped + [c];
        }
        assert tasks[..k + 1] == tasks[..k] + [c];
        k := k + 1;
      }
      assert tasks[..k] == tasks;
    }

    /**
     * `_subscribeSingleClientSocket(socket, channel)`: at the limit, report an
     * error and change nothing. Otherwise mark the channel on the socket
     * (counting it only if it was unmarked) and issue a broker subscribe every
     * time; `rest` are the channels the waterfall goes on with after success.
     */
    method SubscribeSingle(socket: Socket, channel: string, rest: seq<string>) returns (rejected: bool)
      requires Valid()
      modifies this, socket
      ensures Valid()
      ensures rejected == (socketChannelLimit != 0 && old(socket.channelSubscriptionCount) >= socketChannelLimit)
      ensures rejected ==>
        && socket.channelSubscriptions == old(socket.channelSubscriptions)
        && socket.channelSubscriptionCount == old(socket.channelSubscriptionCount)
        && brokerLog == old(brokerLog) && outstanding == old(outstanding)
      ensures !rejected ==>
        && socket.channelSubscriptions == old(socket.channelSubscriptions) + {channel}
        && socket.channelSubscriptionCount ==
             old(socket.channelSubscriptionCount) + (if channel in old(socket.channelSubscriptions) then 0 else 1)
        && brokerLog == old(brokerLog) + [BrokerSubscribe(channel)]
        && outstanding == old(outstanding) + [Outstanding(BrokerSubscribe(channel), SocketSubscribeDone(socket, channel, rest))]
      ensures exchangeSubscriptions == old(exchangeSubscriptions) && clientSubscribers == old(clientSubscribers)
    {
      rejected := socketChannelLimit != 0 && socket.channelSubscriptionCount >= socketChannelLimit;
      if !rejected {
        if channel !in socket.channelSubscriptions {
          socket.channelSubscriptions := socket.channelSubscriptions + {channel};
          socket.channelSubscriptionCount := socket.channelSubscriptionCount + 1;
        }
        brokerLog := brokerLog + [BrokerSubscribe(channel)];
        outstanding := outstanding + [Outstanding(BrokerSubscribe(channel), SocketSubscribeDone(socket, channel, rest))];
      }
    }

    /**
     * `subscribeClientSocket(socket, channels)` for a list of channels (a
     * single channel is the list of one): the waterfall starts with the first
     * channel; an empty list answers at once.
     */
    method SubscribeClientSocket(socket: Socket, channels: seq<string>) returns (rejected: bool)
      requires Valid()
      modifies this, socket
      ensures Valid()
      ensures channels == [] ==>
        && !rejected && brokerLog == old(brokerLog) && outstanding == old(outstanding)
        && socket.channelSubscriptions == old(socket.channelSubscriptions)
        && socket.channelSubscriptionCount == old(socket.channelSubscriptionCount)
      ensures channels != [] ==>
        rejected == (socketChannelLimit != 0 && old(socket.channelSubscriptionCount) >= socketChannelLimit)
      ensures channels != [] && rejected ==>
        && socket.channelSubscriptions == old(socket.channelSubscriptions)
        && socket.channelSubscriptionCount == old(socket.channelSubscriptionCount)
        && brokerLog == old(brokerLog) && outstanding == old(outstanding)
      ensures channels != [] && !rejected ==>
        && socket.channelSubscriptions == old(socket.channelSubscriptions) + {channels[0]}
        && socket.channelSubscriptionCount ==
             old(socket.channelSubscriptionCount) + (if channels[0] in old(socket.channelSubscriptions) then 0 else 1)
        && brokerLog == old(brokerLog) + [BrokerSubscribe(channels[0])]
        && outstanding == old(outstanding) +
             [Outstanding(BrokerSubscribe(channels[0]), SocketSubscribeDone(socket, channels[0], channels[1..]))]
      ensures exchangeSubscriptions == old(exchangeSubscriptions) && clientSubscribers == old(clientSubscribers)
    {
      rejected := false;
      if channels != [] {
        rejected := SubscribeSingle(socket, channels[0], channels[1..]);
      }
    }

    /**
     * The broker answers the socket subscribe `outstanding[i]` (`addSubscription`).
     * On failure the mark is deleted and the count decremented, even if the
     * mark was there before this subscribe; the waterfall stops. On success the
     * socket joins the channel's subscriber set and the waterfall goes on with
     * the next channel, which may be rejected at the limit.
     */
    method AckSocketSubscribe(i: nat, failed: bool) returns (continued: bool, rejected: bool)
      requires Valid()
      requires i < |outstanding| && outstanding[i].onDone.SocketSubscribeDone?
      modifies this, outstanding[i].onDone.socket
      ensures Valid()
      ensures exchangeSubscriptions == old(exchangeSubscriptions)
      ensures var k := old(outstanding[i].onDone); var s := k.socket; var c := k.channel;
        && continued == (!failed && k.rest != [])
        && (failed ==>
              && s.channelSubscriptions == old(s.channelSubscriptions) - {c}
              && s.channelSubscriptionCount == old(s.channelSubscriptionCount) - 1
              && clientSubscribers == old(clientSubscribers)
              && brokerLog == old(brokerLog) && outstanding == old(RemoveAt(outstanding, i)))
        && (!failed ==> clientSubscribers == With(old(clientSubscribers), c, s.id))
        && (!failed && k.rest == [] ==>
              && s.channelSubscriptions == old(s.channelSubscriptions)
              && s.channelSubscriptionCount == old(s.channelSubscriptionCount)
              && brokerLog == old(brokerLog) && outstanding == old(RemoveAt(outstanding, i)))
        && (continued ==>
              && rejected == (socketChannelLimit != 0 && old(s.channelSubscriptionCount) >= socketChannelLimit)
              && (rejected ==>
                    && s.channelSubscriptions == old(s.channelSubscriptions)
                    && s.channelSubscriptionCount == old(s.channelSubscriptionCount)
                    && brokerLog == old(brokerLog) && outstanding == old(RemoveAt(outstanding, i)))
              && (!rejected ==>
                    && s.channelSubscriptions == old(s.channelSubscriptions) + {k.rest[0]}
                    && s.channelSubscriptionCount ==
                         old(s.channelSubscriptionCount) + (if k.rest[0] in old(s.channelSubscriptions) then 0 else 1)
                    && brokerLog == old(brokerLog) + [BrokerSubscribe(k.rest[0])]
                    && outstanding == old(RemoveAt(outstanding, i)) +
                         [Outstanding(BrokerSubscribe(k.rest[0]), SocketSubscribeDone(s, k.rest[0], k.rest[1..]))]))
    {
      var k := outstanding[i].onDone;
      var s, c := k.socket, k.channel;
      RemoveKeepsTracked(i);
      outstanding := RemoveAt(outstanding, i);
      continued, rejected := false, false;
      if failed {
        s.channelSubscriptions := s.channelSubscriptions - {c};
        s.channelSubscriptionCount := s.channelSubscriptionCount - 1;
      } else {
        clientSubscribers := With(clientSubscribers, c, s.id);
        if k.rest != [] {
          continued := true;
          rejected := SubscribeSingle(s, k.rest[0], k.rest[1..]);
        }
      }
    }

    /**
     * `_unsubscribeSingleClientSocket(socket, channel)`: the socket leaves the
     * channel's subscriber set (an emptied set is deleted), its mark is deleted
     * and its count decremented whether or not it was marked; then the drop
     * rule runs. `parked` says the drop rule issued a broker unsubscribe, whose
     * answer resumes the waterfall with `rest`.
     */
    method UnsubscribeSingle(socket: Socket, channel: string, rest: seq<string>) returns (parked: bool)
      requires Valid()
      modifies this, socket
      ensures Valid()
      ensures clientSubscribers == Without(old(clientSubscribers), channel, socket.id)
      ensures socket.channelSubscriptions == old(socket.channelSubscriptions) - {channel}
      ensures socket.channelSubscriptionCount == old(socket.channelSubscriptionCount) - 1
      ensures exchangeSubscriptions == old(exchangeSubscriptions)
      ensures parked == NoInterest(exchangeSubscriptions, clientSubscribers, channel)
      ensures parked ==>
        && brokerLog == old(brokerLog) + [BrokerUnsubscribe(channel)]
        && outstanding == old(outstanding) + [Outstanding(BrokerUnsubscribe(channel), SocketUnsubscribeDone(socket, channel, rest))]
      ensures !parked ==> brokerLog == old(brokerLog) && outstanding == old(outstanding)
    {
      clientSubscribers := Without(clientSubscribers, channel, socket.id);
      socket.channelSubscriptions := socket.channelSubscriptions - {channel};
      socket.channelSubscriptionCount := socket.channelSubscriptionCount - 1;
      parked := DropUnused(channel, SocketUnsubscribeDone(socket, channel, rest));
      assert SubscribersOf(clientSubscribers, channel) == {} ==> channel !in clientSubscribers;
    }

    /**
     * The unsubscribe waterfall over `channels`: tasks run one after another
     * until one parks on a broker unsubscribe or none is left. `k` tasks ran.
     */
    method ContinueUnsubscribe(socket: Socket, channels: seq<string>) returns (k: nat, parked: bool)
      requires Valid()
      modifies this, socket
      ensures Valid()
      ensures k <= |channels| && (parked ==> 0 < k) && (!parked ==> k == |channels|)
      ensures socket.channelSubscriptions == old(socket.channelSubscriptions) - Elems(channels[..k])
      ensures socket.channelSubscriptionCount == old(socket.channelSubscriptionCount) - k
      ensures clientSubscribers == WithoutAll(old(clientSubscribers), channels[..k], socket.id)
      ensures exchangeSubscriptions == old(exchangeSubscriptions)
      ensures forall j | 0 <= j < k && (j < k - 1 || !parked) ::
        !NoInterest(exchangeSubscriptions, WithoutAll(old(clientSubscribers), channels[..j + 1], socket.id), channels[j])
      ensures parked ==>
        && NoInterest(exchangeSubscriptions, clientSubscribers, channels[k - 1])
        && brokerLog == old(brokerLog) + [BrokerUnsubscribe(channels[k - 1])]
        && outstanding == old(outstanding) +
             [Outstanding(BrokerUnsubscribe(channels[k - 1]), SocketUnsubscribeDone(socket, channels[k - 1], channels[k..]))]
      ensures !parked ==> brokerLog == old(brokerLog) && outstanding == old(outstanding)
    {
      k, parked := 0, false;
      while k < |channels| && !parked
        invariant 0 <= k <= |channels|
        invariant parked ==> 0 < k
        invariant Valid()
        invariant socket.channelSubscriptions == old(socket.channelSubscriptions) - Elems(channels[..k])
        invariant socket.channelSubscriptionCount == old(socket.channelSubscriptionCount) - k
        invariant clientSubscribers == WithoutAll(old(clientSubscribers), channels[..k], socket.id)
        invariant exchangeSubscriptions == old(exchangeSubscriptions)
        invariant forall j | 0 <= j < k && (j < k - 1 || !parked) ::
          !NoInterest(exchangeSubscriptions, WithoutAll(old(clientSubscribers), channels[..j + 1], socket.id), channels[j])
        invariant parked ==>
          && NoInterest(exchangeSubscriptions, clientSubscribers, channels[k - 1])
          && brokerLog == old(brokerLog) + [BrokerUnsubscribe(channels[k - 1])]
          && outstanding == old(outstanding) +
               [Outstanding(BrokerUnsubscribe(channels[k - 1]), SocketUnsubscribeDone(socket, channels[k - 1], channels[k..]))]
        invariant !parked ==> brokerLog == old(brokerLog) && outstanding == old(outstanding)
      {
        assert channels[..k + 1] == channels[..k] + [channels[k]];
        assert channels[..k + 1][..k] == channels[..k];
        parked := UnsubscribeSingle(socket, channels[k], channels[k + 1..]);
        k := k + 1;
      }
    }

    /**
     * `unsubscribeClientSocket(socket, channels)`: `None` (null) stands for
     * every channel the socket has marked, `Some(cs)` for a list (a single
     * channel is the list of one). The waterfall runs over `processed`.
     */
    method UnsubscribeClientSocket(socket: Socket, channels: Option<seq<string>>)
      returns (processed: seq<string>, k: nat, parked: bool)
      requires Valid()
      modifies this, socket
      ensures Valid()
      ensures channels.Some? ==> processed == channels.value
      ensures channels.None? ==> Distinct(processed) && Elems(processed) == old(socket.channelSubscriptions)
      ensures k <= |processed| && (parked ==> 0 < k) && (!parked ==> k == |processed|)
      ensures socket.channelSubscriptions == old(socket.channelSubscriptions) - Elems(processed[..k])
      ensures channels.None? && !parked ==> socket.channelSubscriptions == {}
      ensures socket.channelSubscriptionCount == old(socket.channelSubscriptionCount) - k
      ensures clientSubscribers == WithoutAll(old(clientSubscribers), processed[..k], socket.id)
      ensures exchangeSubscriptions == old(exchangeSubscriptions)
      ensures forall j | 0 <= j < k && (j < k - 1 || !parked) ::
        !NoInterest(exchangeSubscriptions, WithoutAll(old(clientSubscribers), processed[..j + 1], socket.id), processed[j])
      ensures parked ==>
        && NoInterest(exchangeSubscriptions, clientSubscribers, processed[k - 1])
        && brokerLog == old(brokerLog) + [BrokerUnsubscribe(processed[k - 1])]
        && outstanding == old(outstanding) +
             [Outstanding(BrokerUnsubscribe(processed[k - 1]), SocketUnsubscribeDone(socket, processed[k - 1], processed[k..]))]
      ensures !parked ==> brokerLog == old(brokerLog) && outstanding == old(outstanding)
    {
      if channels.None? {
        processed := socket.Subscriptions();
      } else {
        processed := channels.value;
      }
      k, parked := ContinueUnsubscribe(socket, processed);
      assert !parked ==> processed[..k] == processed;
    }

    /**
     * The broker answers the unsubscribe a socket's waterfall was waiting on:
     * on success the waterfall goes on with the remaining channels, on failure
     * it stops.
     */
    method AckSocketUnsubscribe(i: nat, failed: bool) returns (k: nat, parked: bool)
      requires Valid()
      requires i < |outstanding| && outstanding[i].onDone.SocketUnsubscribeDone?
      modifies this, outstanding[i].onDone.socket
      ensures Valid()
      ensures exchangeSubscriptions == old(exchangeSubscriptions)
      ensures var s := old(outstanding[i].onDone.socket); var rest := old(outstanding[i].onDone.rest);
        var cs := if failed then [] else rest;
        && k <= |cs| && (parked ==> 0 < k) && (!parked ==> k == |cs|)
        && s.channelSubscriptions == old(s.channelSubscriptions) - Elems(cs[..k])
        && s.channelSubscriptionCount == old(s.channelSubscriptionCount) - k
        && clientSubscribers == WithoutAll(old(clientSubscribers), cs[..k], s.id)
        && (forall j | 0 <= j < k && (j < k - 1 || !parked) ::
              !NoInterest(exchangeSubscriptions, WithoutAll(old(clientSubscribers), cs[..j + 1], s.id), cs[j]))
        && (parked ==>
              && NoInterest(exchangeSubscriptions, clientSubscribers, cs[k - 1])
              && brokerLog == old(brokerLog) + [BrokerUnsubscribe(cs[k - 1])]
              && outstanding == old(RemoveAt(outstanding, i)) +
                   [Outstanding(BrokerUnsubscribe(cs[k - 1]), SocketUnsubscribeDone(s, cs[k - 1], cs[k..]))])
        && (!parked ==> brokerLog == old(brokerLog) && outstanding == old(RemoveAt(outstanding, i)))
    {
      var s, rest := outstanding[i].onDone.socket, outstanding[i].onDone.rest;
      RemoveKeepsTracked(i);
      outstanding := RemoveAt(outstanding, i);
      var cs := if failed then [] else rest;
      k, parked := ContinueUnsubscribe(s, cs);
    }

    /** The broker answers a request whose callback only reaches a caller. */
    method AckCaller(i: nat)
      requires Valid()
      requires i < |outstanding| && outstanding[i].onDone.CallerDone?
      modifies this
      ensures Valid()
      ensures outstanding == old(RemoveAt(outstanding, i))
      ensures exchangeSubscriptions == old(exchangeSubscriptions) && clientSubscribers == old(clientSubscribers)
      ensures brokerLog == old(brokerLog)
    {
      RemoveKeepsTracked(i);
      outstanding := RemoveAt(outstanding, i);
    }

    /**
     * `socket.kickOut(channel, message)`: a `#kickOut` notice for the given
     * channel, or for every marked channel when none is given, and then the
     * socket is unsubscribed from the same channel(s), in the same order.
     */
    method KickOut(socket: Socket, channel: Option<string>)
      returns (notices: seq<string>, processed: seq<string>, k: nat, parked: bool)
      requires Valid()
      modifies this, socket
      ensures Valid()
      ensures processed == notices
      ensures channel.Some? ==> notices == [channel.value]
      ensures channel.None? ==> Distinct(notices) && Elems(notices) == old(socket.channelSubscriptions)
      ensures k <= |processed| && (parked ==> 0 < k) && (!parked ==> k == |processed|)
      ensures socket.channelSubscriptions == old(socket.channelSubscriptions) - Elems(processed[..k])
      ensures channel.None? && !parked ==> socket.channelSubscriptions == {}
      ensures socket.channelSubscriptionCount == old(socket.channelSubscriptionCount) - k
      ensures clientSubscribers == WithoutAll(old(clientSubscribers), processed[..k], socket.id)
      ensures exchangeSubscriptions == old(exchangeSubscriptions)
      ensures forall j | 0 <= j < k && (j < k - 1 || !parked) ::
        !NoInterest(exchangeSubscriptions, WithoutAll(old(clientSubscribers), processed[..j + 1], socket.id), processed[j])
      ensures parked ==>
        && NoInterest(exchangeSubscriptions, clientSubscribers, processed[k - 1])
        && brokerLog == old(brokerLog) + [BrokerUnsubscribe(processed[k - 1])]
        && outstanding == old(outstanding) +
             [Outstanding(BrokerUnsubscribe(processed[k - 1]), SocketUnsubscribeDone(socket, processed[k - 1], processed[k..]))]
      ensures !parked ==> brokerLog == old(brokerLog) && outstanding == old(outstanding)
    {
      // The notices and the unsubscribe walk the same marks in the same order.
      if channel.None? {
        notices := socket.Subscriptions();
      } else {
        notices := [channel.value];
      }
      processed, k, parked := UnsubscribeClientSocket(socket, Some(notices));
      assert !parked ==> processed[..k] == processed;
    }

    /**
     * `_handleExchangeMessage(channel, data)`: the `#publish` packet goes to
     * exactly the sockets currently subscribed to the channel, once each (then
     * the client emits the process-level `message` event).
     */
    method HandleExchangeMessage(channel: string, data: Payload) returns (recipients: seq<SocketId>)
      ensures Distinct(recipients)
      ensures Elems(recipients) == SubscribersOf(clientSubscribers, channel)
    {
      recipients := [];
      var left := SubscribersOf(clientSubscribers, channel);
      while left != {}
        invariant left <= SubscribersOf(clientSubscribers, channel)
        invariant Distinct(recipients)
        invariant Elems(recipients) == SubscribersOf(clientSubscribers, channel) - left
        decreases left
      {
        var id :| id in left;
        left := left - {id};
        assert id !in recipients;
        assert Elems(recipients + [id]) == Elems(recipients) + {id};
        recipients := recipients + [id];
      }
    }
  }
}
