/**
 * Concrete runs of the model: small sequences of calls on fresh objects, with
 * what they are proved to produce. They pin down behaviour of the code that a
 * reader of its documentation might not expect.
 */
module Scenarios {
  import opened Common
  import opened Hashing
  import opened ExchangeModel
  import SM = SubscriptionManager
  import opened Supervisor

  /** "room1" as UTF-16 code units. */
  const ROOM1: JsString := [114, 111, 111, 109, 49]
  /** "null", what `JSON.stringify(null)` gives. */
  const NULL_TEXT: JsString := [110, 117, 108, 108]

  /** The key "room1" goes to broker 2 of 3: Java's hash of it is 108698294. */
  lemma Room1Hash(ser: Serializer)
    ensures Hash(ser, Str(ROOM1), 3) == 2
  {
    StringKeyHash(ser, ROOM1, 3);
    PolyOfRoom1();
    ToInt32OfInt32(108698294);
  }

  lemma PolyOfRoom1()
    ensures Poly(ROOM1) == 108698294
  {
    assert ROOM1[..1] == [114] && ROOM1[..1][..0] == [];
    assert Poly(ROOM1[..1]) == 114;
    assert ROOM1[..2][..1] == ROOM1[..1];
    assert Poly(ROOM1[..2]) == 3645;
    assert ROOM1[..3][..2] == ROOM1[..2];
    assert Poly(ROOM1[..3]) == 113106;
    assert ROOM1[..4][..3] == ROOM1[..3];
    assert Poly(ROOM1[..4]) == 3506395;
    assert ROOM1[..4] == ROOM1[..|ROOM1| - 1];
  }

  /**
   * A null key is serialised and hashed like the string "null" (to broker 2
   * of 3); it does not go to broker 0.
   */
  lemma NullKeyHash(ser: Serializer)
    requires ser(Null) == Some(NULL_TEXT)
    ensures Hash(ser, Null, 3) == 2
  {
    assert KeyString(ser, Null) == Some(NULL_TEXT);
    StringHashIsWrappedPoly(NULL_TEXT);
    PolyOfNull();
    ToInt32OfInt32(3392903);
    assert StringHash(NULL_TEXT) == 3392903;
    assert Hash(ser, Null, 3) == Abs(3392903) % 3;
  }

  lemma PolyOfNull()
    ensures Poly(NULL_TEXT) == 3392903
  {
    assert NULL_TEXT[..1] == [110] && NULL_TEXT[..1][..0] == [];
    assert Poly(NULL_TEXT[..1]) == 110;
    assert NULL_TEXT[..2][..1] == NULL_TEXT[..1];
    assert Poly(NULL_TEXT[..2]) == 3527;
    assert NULL_TEXT[..3][..2] == NULL_TEXT[..2];
    assert Poly(NULL_TEXT[..3]) == 109445;
    assert NULL_TEXT[..3] == NULL_TEXT[..|NULL_TEXT| - 1];
  }

  /**
   * A one-element array hint holding "*" is loosely equal to "*": a query with
   * it goes to every broker, not to the hash of "*".
   */
  lemma ArrayStarBroadcasts(ser: Serializer, clientIds: seq<nat>)
    ensures DefaultMapper(ser, Obj(Arr([Str(STAR)])), Query, clientIds, 3) == Indices(clientIds)
  {
    assert LooselyStar(Arr([Str(STAR)]));
  }

  /**
   * An operation named after a property every object inherits, such as
   * `toString`, is routed like a channel operation: a null key goes to every broker.
   */
  lemma InheritedNameBroadcasts(ser: Serializer, clientIds: seq<nat>)
    ensures DefaultMapper(ser, Null, OtherMethod("toString"), clientIds, 3) == Indices(clientIds)
  {
    assert "toString" in OBJECT_PROTOTYPE_NAMES;
  }

  /**
   * Subscribing to a channel twice makes one cluster call; after the broker
   * acknowledges, the channel is SUBSCRIBED.
   */
  method ExchangeSubscribeTwice() returns (calls: seq<ClusterCall>, state: ChannelState)
    ensures calls == [SubscribeCall("room1")]
    ensures state == Subscribed
  {
    var e := new Exchange();
    var ch := e.Subscribe("room1");
    var again := e.Subscribe("room1");
    assert again == ch;
    e.CompleteSubscribe(0, false);
    calls, state := e.calls, ch.state;
  }

  /**
   * An acknowledgement that arrives after the channel was unsubscribed still
   * leaves the channel SUBSCRIBED, although the cluster client was asked to
   * unsubscribe.
   */
  method ExchangeLateAck() returns (calls: seq<ClusterCall>, state: ChannelState)
    ensures calls == [SubscribeCall("room1"), UnsubscribeCall("room1")]
    ensures state == Subscribed
  {
    var e := new Exchange();
    var ch := e.Subscribe("room1");
    e.Unsubscribe("room1");
    e.CompleteSubscribe(0, false);
    calls, state := e.calls, ch.state;
  }

  /** Sockets A and B each subscribe to room1 on a fresh client and the broker accepts both. */
  method JoinRoom1(cc: SM.ClusterClient, a: SM.Socket, b: SM.Socket)
    requires cc.Valid() && cc.exchangeSubscriptions == map[] && cc.clientSubscribers == map[]
    requires cc.socketChannelLimit == 0 && cc.brokerLog == [] && cc.outstanding == []
    requires a.id == "A" && b.id == "B"
    modifies cc, a, b
    ensures cc.Valid() && cc.exchangeSubscriptions == map[] && cc.outstanding == []
    ensures SM.SubscribersOf(cc.clientSubscribers, "room1") == {"A", "B"}
    ensures cc.brokerLog == [SM.BrokerSubscribe("room1"), SM.BrokerSubscribe("room1")]
  {
    var ra := cc.SubscribeClientSocket(a, ["room1"]);
    var rb := cc.SubscribeClientSocket(b, ["room1"]);
    assert ["room1"][1..] == [];
    assert cc.outstanding == [SM.Outstanding(SM.BrokerSubscribe("room1"), SM.SocketSubscribeDone(a, "room1", [])),
                              SM.Outstanding(SM.BrokerSubscribe("room1"), SM.SocketSubscribeDone(b, "room1", []))];
    var ca, xa := cc.AckSocketSubscribe(0, false);
    assert SM.SubscribersOf(cc.clientSubscribers, "room1") == {"A"};
    var cb, xb := cc.AckSocketSubscribe(0, false);
  }

  /**
   * Two sockets subscribe to room1: each causes a broker subscribe. The first
   * to leave causes no broker call; the last one does.
   */
  method TwoSocketsOneChannel() returns (log: seq<SM.BrokerOp>, firstParked: bool, lastParked: bool)
    ensures log == [SM.BrokerSubscribe("room1"), SM.BrokerSubscribe("room1"), SM.BrokerUnsubscribe("room1")]
    ensures !firstParked && lastParked
  {
    var cc := new SM.ClusterClient(0);
    var a := new SM.Socket.Decorate("A");
    var b := new SM.Socket.Decorate("B");
    JoinRoom1(cc, a, b);
    var pa, ka;
    pa, ka, firstParked := cc.UnsubscribeClientSocket(a, Some(["room1"]));
    assert pa[..1] == ["room1"];
    assert SM.SubscribersOf(cc.clientSubscribers, "room1") == {"B"};
    var pb, kb;
    pb, kb, lastParked := cc.UnsubscribeClientSocket(b, Some(["room1"]));
    assert pb[..1] == ["room1"];
    log := cc.brokerLog;
  }

  /**
   * With a limit of one channel per socket, a second subscribe is rejected:
   * the count stays 1 and the broker is not asked.
   */
  method LimitRejects() returns (first: bool, second: bool, count: int, log: seq<SM.BrokerOp>)
    ensures !first && second
    ensures count == 1
    ensures log == [SM.BrokerSubscribe("room1")]
  {
    var cc := new SM.ClusterClient(1);
    var a := new SM.Socket.Decorate("A");
    first := cc.SubscribeClientSocket(a, ["room1"]);
    second := cc.SubscribeClientSocket(a, ["room2"]);
    count, log := a.channelSubscriptionCount, cc.brokerLog;
  }

  /**
   * Unsubscribing a socket from a channel it never subscribed to drives its
   * count to -1 and asks the broker to unsubscribe.
   */
  method UnsubscribeUnknownChannel() returns (count: int, parked: bool, log: seq<SM.BrokerOp>)
    ensures count == -1 && parked
    ensures log == [SM.BrokerUnsubscribe("room9")]
  {
    var cc := new SM.ClusterClient(0);
    var a := new SM.Socket.Decorate("A");
    var processed, k;
    processed, k, parked := cc.UnsubscribeClientSocket(a, Some(["room9"]));
    assert processed[..1] == ["room9"];
    count, log := a.channelSubscriptionCount, cc.brokerLog;
  }

  /**
   * A broker acknowledgement of an exchange-level subscribe that arrives after
   * the exchange unsubscribed marks the channel subscribed, although the
   * broker was last asked to unsubscribe.
   */
  method ClientLateAck() returns (log: seq<SM.BrokerOp>, subscribed: bool)
    ensures log == [SM.BrokerSubscribe("room1"), SM.BrokerUnsubscribe("room1")]
    ensures subscribed
  {
    var cc := new SM.ClusterClient(0);
    var issued := cc.Subscribe("room1");
    var dropped := cc.Unsubscribe("room1");
    var dropAgain := cc.AckExchangeSubscribe(0, false);
    log, subscribed := cc.brokerLog, cc.IsSubscribed("room1", false);
  }

  /**
   * A socket already in room1 subscribes to it again and the broker refuses:
   * the mark goes and the count drops to 0, but the socket stays in room1's
   * subscriber set and still receives its messages.
   */
  method ResubscribeRollback() returns (marked: bool, count: int, recipients: seq<SM.SocketId>)
    ensures !marked && count == 0
    ensures Distinct(recipients) && Elems(recipients) == {"A"}
  {
    var cc := new SM.ClusterClient(0);
    var a := new SM.Socket.Decorate("A");
    var r1 := cc.SubscribeClientSocket(a, ["room1"]);
    var c1, x1 := cc.AckSocketSubscribe(0, false);
    var r2 := cc.SubscribeClientSocket(a, ["room1"]);
    var c2, x2 := cc.AckSocketSubscribe(0, true);
    marked, count := a.IsSubscribed("room1"), a.channelSubscriptionCount;
    recipients := cc.HandleExchangeMessage("room1", "hello");
  }

  /**
   * Two brokers; the first is ready, exits and is relaunched before the second
   * is ready. The relaunched server also counts, so `ready` is emitted once
   * while the relaunched server is not ready yet, and again when it is.
   */
  method ReadyTwice() returns (events: seq<ClusterEvent>)
    ensures events == [ServerExited("/tmp/b0"), Ready, Ready]
  {
    var cluster := new IOCluster(["/tmp/b0", "/tmp/b1"]);
    cluster.OnServerReady(0);
    cluster.OnServerExit(0);
    cluster.OnServerReady(1);
    cluster.OnServerReady(2);
    events := cluster.events;
  }
}
