/**
 * The broker supervisor: launches one broker server per configured socket
 * path, counts readiness, relaunches a server at the same index when it exits,
 * and forwards messages to a broker by id.
 *
 * Every server ever launched is an entry of `servers`; the handlers a server
 * carries are fixed at launch. A server's `ready`, `exit`, `error` and
 * `brokerMessage` signals are the `On*` methods. Emitted events and messages
 * sent to brokers are recorded in `events` and `sent`.
 */
module Supervisor {

  /** A launched server: its broker index, socket path and whether it carries a ready handler. */
  datatype Server = Server(index: nat, socketPath: string, readyHandler: bool)

  datatype ClusterEvent =
    | Ready
    | ServerError(err: string)
    | ServerExited(socketPath: string)
    | UnknownBroker(brokerId: int, pid: int)
    | BrokerMessage(brokerId: int, data: string)

  /** `sendMasterMessage(data)` on the server launched as `servers[server]`. */
  datatype MasterMessage = MasterMessage(server: nat, data: string)

  class IOCluster {
    /** `options.brokers`: the socket path of each broker. */
    const brokers: seq<string>
    /** Every server launched, in launch order. */
    var servers: seq<Server>
    /** `_dataServers`: for each broker index, the position in `servers` of its current server. */
    var dataServers: seq<nat>
    var readyCount: nat
    var firstTime: bool
    var events: seq<ClusterEvent>
    var sent: seq<MasterMessage>

    /**
     * Each broker index has a current server launched for it with its socket
     * path; `firstTime` is cleared exactly when `ready` has been emitted.
     */
    ghost predicate Valid()
      reads this
    {
      && |dataServers| == |brokers|
      && (forall i | 0 <= i < |dataServers| :: dataServers[i] < |servers| && servers[dataServers[i]].index == i)
      && (forall s | 0 <= s < |servers| :: servers[s].index < |brokers| && servers[s].socketPath == brokers[servers[s].index])
      && (firstTime <==> Ready !in events)
    }

    /** Launches a server for broker `i`; it gets a ready handler only while `firstTime` holds. */
    method Launch(i: nat)
      requires Valid() && i < |brokers|
      modifies this
      ensures Valid()
      ensures servers == old(servers) + [Server(i, brokers[i], old(firstTime))]
      ensures dataServers == old(dataServers)[i := |old(servers)|]
      ensures readyCount == old(readyCount) && firstTime == old(firstTime)
      ensures events == old(events) && sent == old(sent)
    {
      servers := servers + [Server(i, brokers[i], firstTime)];
      dataServers := dataServers[i := |servers| - 1];
    }

    /** The constructor: one server per broker, in order, each with a ready handler. */
    constructor (brokers: seq<string>)
      ensures Valid()
      ensures this.brokers == brokers
      ensures |servers| == |brokers|
      ensures forall i | 0 <= i < |brokers| :: servers[i] == Server(i, brokers[i], true) && dataServers[i] == i
      ensures readyCount == 0 && firstTime && events == [] && sent == []
    {
      this.brokers := brokers;
      servers := [];
      dataServers := seq(|brokers|, i => 0);
      readyCount := 0;
      firstTime := true;
      events := [];
      sent := [];
      new;
      var i := 0;
      while i < |brokers|
        invariant 0 <= i <= |brokers|
        invariant |servers| == i && |dataServers| == |brokers|
        invariant forall j | 0 <= j < i :: servers[j] == Server(j, brokers[j], true) && dataServers[j] == j
        invariant firstTime && readyCount == 0 && events == [] && sent == []
        invariant this.brokers == brokers
      {
        servers := servers + [Server(i, brokers[i], firstTime)];
        dataServers := dataServers[i := |servers| - 1];
        i := i + 1;
      }
    }

    /**
     * Server `s` signals `ready`. Only a server with a ready handler counts; the
     * handler emits `ready` whenever the count reaches the broker count, and
     * clears `firstTime`.
     */
    method OnServerReady(s: nat)
      requires Valid() && s < |servers|
      modifies this
      ensures Valid()
      ensures servers == old(servers) && dataServers == old(dataServers) && sent == old(sent)
      ensures !servers[s].readyHandler ==> readyCount == old(readyCount) && events == old(events) && firstTime == old(firstTime)
      ensures servers[s].readyHandler ==> readyCount == old(readyCount) + 1
      ensures servers[s].readyHandler && readyCount >= |brokers| ==> events == old(events) + [Ready] && !firstTime
      ensures servers[s].readyHandler && readyCount < |brokers| ==> events == old(events) && firstTime == old(firstTime)
    {
      if servers[s].readyHandler {
        readyCount := readyCount + 1;
        if readyCount >= |brokers| {
          firstTime := false;
          events := events + [Ready];
        }
      }
    }

    /**
     * Server `s` exits: an error naming its socket path is emitted and a new
     * server is launched at the same index, replacing `_dataServers[index]`.
     */
    method OnServerExit(s: nat)
      requires Valid() && s < |servers|
      modifies this
      ensures Valid()
      ensures events == old(events) + [ServerExited(old(servers[s]).socketPath)]
      ensures servers == old(servers) + [Server(old(servers[s]).index, old(servers[s]).socketPath, old(firstTime))]
      ensures dataServers == old(dataServers)[old(servers[s]).index := |old(servers)|]
      ensures readyCount == old(readyCount) && firstTime == old(firstTime) && sent == old(sent)
    {
      var server := servers[s];
      events := events + [ServerExited(server.socketPath)];
      Launch(server.index);
    }

    /** Server `s` signals an error: it is re-emitted. */
    method OnServerError(s: nat, err: string)
      requires Valid() && s < |servers|
      modifies this
      ensures Valid()
      ensures events == old(events) + [ServerError(err)]
      ensures servers == old(servers) && dataServers == old(dataServers)
      ensures readyCount == old(readyCount) && firstTime == old(firstTime) && sent == old(sent)
    {
      events := events + [ServerError(err)];
    }

    /** Server `s` relays a message from broker `brokerId`: it is re-emitted with that id. */
    method OnBrokerMessage(s: nat, brokerId: int, data: string)
      requires Valid() && s < |servers|
      modifies this
      ensures Valid()
      ensures events == old(events) + [BrokerMessage(brokerId, data)]
      ensures servers == old(servers) && dataServers == old(dataServers)
      ensures readyCount == old(readyCount) && firstTime == old(firstTime) && sent == old(sent)
    {
      events := events + [BrokerMessage(brokerId, data)];
    }

    /**
     * `sendToBroker(brokerId, data)`: to the current server of that broker, or,
     * for an id with no server, an error event carrying the process id `pid`;
     * it never fails otherwise.
     */
    method SendToBroker(brokerId: int, data: string, pid: int)
      requires Valid()
      modifies this
      ensures Valid()
      ensures 0 <= brokerId < |brokers| ==>
        sent == old(sent) + [MasterMessage(dataServers[brokerId], data)] && events == old(events)
      ensures !(0 <= brokerId < |brokers|) ==>
        events == old(events) + [UnknownBroker(brokerId, pid)] && sent == old(sent)
      ensures servers == old(servers) && dataServers == old(dataServers)
      ensures readyCount == old(readyCount) && firstTime == old(firstTime)
    {
      if 0 <= brokerId < |dataServers| {
        sent := sent + [MasterMessage(dataServers[brokerId], data)];
      } else {
        events := events + [UnknownBroker(brokerId, pid)];
      }
    }
  }
}
