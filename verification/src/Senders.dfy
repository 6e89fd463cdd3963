/** The map of senders, shared by the accept loop and the daemon thread. */
module Senders {
  import opened Sequences
  import opened Protocol
  import opened Channels
  import opened Semver

  type Streams = map<ClientId, seq<DaemonResponse>>

  class SenderMap {
    var streams: Streams            // with what was sent through each
    var dead: set<ClientId>         // clients that no longer receive

    constructor ()
      ensures streams == map[] && dead == {}
    {
      streams, dead := map[], {};
    }

    method Insert(id: ClientId, stream: seq<DaemonResponse>)
      modifies this
      ensures streams == old(streams)[id := stream] && dead == old(dead) - {id}
    {
      streams, dead := streams[id := stream], dead - {id};
    }

    method Send(id: ClientId, response: DaemonResponse) returns (ok: bool)
      requires id in streams
      modifies `streams
      ensures ok <==> id !in dead
      ensures streams == if ok then old(streams)[id := old(streams)[id] + [response]] else old(streams)
    {
      ok := id !in dead;
      if ok {
        streams := streams[id := streams[id] + [response]];
      }
    }

    /** Sends to a client; if that fails, its subscriptions are to be removed. */
    method Reply(id: ClientId, response: DaemonResponse, eventManager: Channel<ManagerCmd>)
      requires id in streams
      modifies `streams, eventManager
      ensures streams == if id in dead then old(streams) else old(streams)[id := old(streams)[id] + [response]]
      ensures eventManager.items == old(eventManager.items) + if id in dead then [RemoveAllSubscriptions(id)] else []
    {
      var ok := Send(id, response);
      if !ok {
        eventManager.Send(RemoveAllSubscriptions(id));
      }
    }

    /** Sends to every client, whether or not that succeeds. */
    method Broadcast(response: DaemonResponse)
      modifies `streams
      ensures streams == map id | id in old(streams) :: if id in dead then old(streams)[id] else old(streams)[id] + [response]
    {
      var pending := streams.Keys;
      while pending != {}
        invariant pending <= streams.Keys == old(streams).Keys
        invariant forall id :: id in streams ==>
          streams[id] == if id in pending || id in dead then old(streams)[id] else old(streams)[id] + [response]
      {
        var id :| id in pending;
        var _ := Send(id, response);
        pending := pending - {id};
      }
    }
  }

  // ---------- The accept loop ----------

  /** What arrives at the listener: nothing that can be read, or a client that asks for a
      least version and that may or may not be reachable. */
  datatype Incoming = Broken | Connects(minVersion: Option<Version>, reachable: bool)

  predicate Admitted(own: Version, incoming: Incoming) {
    incoming.Connects? && incoming.reachable && (incoming.minVersion.Some? ==> !Precedence(incoming.minVersion.value, own).Greater?)
  }

  /** How many of the first clients are admitted. */
  function Admissions(own: Version, incoming: seq<Incoming>): nat {
    Total(incoming, (i: Incoming) => if Admitted(own, i) then 1 else 0)
  }

  /** The id of the n-th client admitted: the counter is a `u32` that wraps around. */
  function IdOf(n: nat): ClientId {
    n % CLIENT_IDS
  }

  class AcceptLoop {
    const senders: SenderMap
    const own: Version
    var counter: nat
    ghost var admitted: nat

    constructor (senders: SenderMap, own: Version)
      ensures this.senders == senders && this.own == own && counter == 0 && admitted == 0
    {
      this.senders, this.own, counter, admitted := senders, own, 0, 0;
    }

    /** One connection. The handshake is sent before the version is compared. */
    method Accept(incoming: Incoming)
      requires counter == IdOf(admitted)
      modifies this, senders
      ensures counter == IdOf(admitted)
      ensures admitted == old(admitted) + if Admitted(own, incoming) then 1 else 0
      ensures admitted == old(admitted) + 1
         <==> && incoming.Connects? && incoming.reachable
              && (incoming.minVersion.None? || !VersionBelow(own, incoming.minVersion.value))
      ensures senders.streams == if Admitted(own, incoming) then old(senders.streams)[IdOf(old(admitted)) := [SetSender, DaemonVersion]]
                                 else old(senders.streams)
    {
      if incoming.Connects? && incoming.minVersion.Some? {
        PrecedenceMeans(incoming.minVersion.value, own);
      }
      if incoming.Connects? {
        if incoming.reachable {
          var stream := [SetSender, DaemonVersion];
          if incoming.minVersion.Some? && Precedence(incoming.minVersion.value, own).Greater? {
            return;
          }
          senders.Insert(counter, stream);
          NextId(admitted);
          counter := (counter + 1) % CLIENT_IDS;
          admitted := admitted + 1;
        }
      }
    }

    /** The n-th client admitted gets the n-th id, and the senders are those of the ids in
        use. */
    method Run(incoming: seq<Incoming>)
      requires counter == 0 && admitted == 0 && senders.streams == map[]
      modifies this, senders
      ensures admitted == Admissions(own, incoming) && counter == IdOf(admitted)
      ensures forall id: ClientId :: id in senders.streams <==> exists n: nat :: n < admitted && IdOf(n) == id
    {
      var weight := (i: Incoming) => if Admitted(own, i) then 1 else 0;
      for i := 0 to |incoming|
        invariant admitted == Total(incoming[..i], weight) && counter == IdOf(admitted)
        invariant forall id: ClientId :: id in senders.streams <==> exists n: nat :: n < admitted && IdOf(n) == id
      {
        TotalSnoc(incoming[..i], incoming[i], weight);
        assert incoming[..i + 1] == incoming[..i] + [incoming[i]];
        Accept(incoming[i]);
      }
      assert incoming[..|incoming|] == incoming;
    }
  }

  lemma NextId(n: nat)
    ensures (IdOf(n) + 1) % CLIENT_IDS == IdOf(n + 1)
  {
  }

  /** Clients have ids of their own exactly as long as no more are admitted than there are
      ids. */
  lemma IdsDistinctExactlyWhen(count: nat)
    ensures (forall m: nat, n: nat :: m < n < count ==> IdOf(m) != IdOf(n)) <==> count <= CLIENT_IDS
  {
    if count > CLIENT_IDS {
      assert IdOf(0) == IdOf(CLIENT_IDS);
    }
  }
}
