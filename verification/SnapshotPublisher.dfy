/** The imperative code of the snapshot publisher, of the server's handshake, and of the client's store,
    each proved to be the step of Snapshots that bears its name. */
module SnapshotPublisher {
  import opened Results
  import opened Stages
  import opened Snapshots

  /** ClientState, as far as the server snapshot goes. */
  class ClientState {
    var snapshot: Option<nat>

    constructor ()
      ensures snapshot == None
    {
      snapshot := None;
    }

    method Reset()
      modifies this
      ensures snapshot == None
    {
      snapshot := None;
    }

    method ApplyServerSnapshot(revision: nat)
      modifies this
      ensures snapshot == Newer(old(snapshot), revision)
      ensures NotOlder(old(snapshot), snapshot)
    {
      if snapshot.Some? && revision < snapshot.value {
        return;
      }
      snapshot := Some(revision);
    }
  }

  /** A step on one connection leaves the others alone. */
  lemma OneConn(s: State, e: Step, i: nat)
    requires Enabled(s, e) && i < |s.conns| && !e.Accept? && !e.SendNext?
    requires (e.ReceiveHello? || e.FailProtocol? || e.TransportCloses? || e.Disconnect? || e.HandshakeListed?
              || e.HelloSent? || e.CatchUpListed? || e.Deliver?) ==> e.conn == i
    ensures NextConns(s, e) == s.conns[i := NextConn(s, e, i, s.conns[i])]
  {
  }

  lemma NoConn(s: State, e: Step)
    requires Enabled(s, e)
    requires e.RequestBroadcast? || e.StartBroadcast? || e.BroadcastListed? || e.EndBroadcast? || e.BeginClosing?
    ensures NextConns(s, e) == s.conns
  {
  }

  class Server {
    var connections: seq<Conn>
    var revision: nat
    /** The calls of broadcast() that wait in broadcastQueue, and the one under way. */
    var broadcastQueue: nat
    var broadcasting: Option<Broadcast>
    var closing: bool
    ghost var missed: set<nat>

    ghost function Abs(): State
      reads this
    {
      State(connections, revision, broadcastQueue, broadcasting, closing, missed)
    }

    constructor ()
      ensures Abs() == INITIAL
    {
      connections, revision, broadcastQueue, broadcasting, closing, missed := [], 0, 0, None, false, {};
    }

    method RequestsBroadcast()
      modifies this
      ensures Abs() == Next(old(Abs()), RequestBroadcast)
    {
      NoConn(Abs(), RequestBroadcast);
      broadcastQueue := broadcastQueue + 1;
    }

    /** performBroadcast(), up to its first await. */
    method PerformBroadcast()
      requires Enabled(Abs(), StartBroadcast)
      modifies this
      ensures Abs() == Next(old(Abs()), StartBroadcast)
    {
      NoConn(Abs(), StartBroadcast);
      broadcastQueue := broadcastQueue - 1;
      var ready := ReadyConnections();
      if ready == [] || closing {
        return;
      }
      revision := revision + 1;
      broadcasting := Some(Broadcast(revision, false, ready));
      missed := {};
    }

    method ReadyConnections() returns (ready: seq<nat>)
      ensures ready == ReadyFrom(connections, 0)
    {
      ready := [];
      var i := |connections|;
      while i > 0
        invariant 0 <= i <= |connections|
        invariant ready == ReadyFrom(connections, i)
      {
        i := i - 1;
        if connections[i].stage == Ready && !connections[i].disconnected {
          ready := [i] + ready;
        }
      }
    }

    /** performBroadcast() after its list calls. */
    method BroadcastResumes(ok: bool)
      requires Enabled(Abs(), BroadcastListed(ok))
      modifies this
      ensures Abs() == Next(old(Abs()), BroadcastListed(ok))
    {
      NoConn(Abs(), BroadcastListed(ok));
      if ok {
        broadcasting := Some(broadcasting.value.(listed := true));
      } else {
        missed := set i | i in broadcasting.value.targets;
        broadcasting := None;
      }
    }

    /** One turn of the sending loop. */
    method SendToNext()
      requires Enabled(Abs(), SendNext)
      modifies this
      ensures Abs() == Next(old(Abs()), SendNext)
    {
      var job := broadcasting.value;
      if job.targets[0] < |connections| {
        SendMessage(job.targets[0], ServerSnapshot(job.revision));
      }
      broadcasting := Some(job.(targets := job.targets[1..]));
      assert connections == NextConns(old(Abs()), SendNext);
    }

    method SendMessage(i: nat, message: Message)
      requires i < |connections|
      modifies this`connections
      ensures connections == old(connections)[i := Send(old(connections)[i], message)]
    {
      var c := connections[i];
      if c.disconnected || c.closed {
        return;
      }
      connections := connections[i := c.(sent := c.sent + [message])];
    }

    method FailsProtocol(i: nat)
      requires i < |connections|
      modifies this`connections
      ensures connections == old(connections)[i := Fail(old(connections)[i])]
    {
      var c := connections[i];
      if c.disconnected || c.stage == Closing || c.stage == Closed {
        return;
      }
      connections := connections[i := c.(stage := Closing)];
    }

    /** dispatchMessage() on the first hello, and finishHandshake() up to its first await. */
    method BeginHandshake(i: nat)
      requires Enabled(Abs(), ReceiveHello(i))
      modifies this
      ensures Abs() == Next(old(Abs()), ReceiveHello(i))
    {
      OneConn(Abs(), ReceiveHello(i), i);
      connections := connections[i := connections[i].(stage := Handshaking, handshake := Listing(revision))];
    }

    /** finishHandshake() after its list calls, up to the sending of the hello. */
    method SendHello(i: nat, ok: bool)
      requires Enabled(Abs(), HandshakeListed(i, ok))
      modifies this
      ensures Abs() == Next(old(Abs()), HandshakeListed(i, ok))
    {
      OneConn(Abs(), HandshakeListed(i, ok), i);
      var c := connections[i];
      if !ok {
        FailsProtocol(i);
        connections := connections[i := connections[i].(handshake := Finished)];
        return;
      }
      if closing || c.disconnected || c.stage != Handshaking || c.closed {
        connections := connections[i := c.(handshake := Finished)];
        return;
      }
      SendMessage(i, Hello(c.handshake.revision));
      connections := connections[i := connections[i].(handshake := SendingHello(c.handshake.revision))];
    }

    /** finishHandshake() after the hello was sent, or could not be. */
    method BecomeReady(i: nat, ok: bool)
      requires Enabled(Abs(), HelloSent(i, ok))
      modifies this
      ensures Abs() == Next(old(Abs()), HelloSent(i, ok))
    {
      OneConn(Abs(), HelloSent(i, ok), i);
      var c := connections[i];
      if !ok {
        connections := connections[i := c.(closed := true, handshake := Finished)];
      } else if !c.disconnected && c.stage == Handshaking {
        var after := if c.handshake.revision != revision then CatchingUp(revision) else Finished;
        connections := connections[i := c.(stage := Ready, handshake := after)];
      } else {
        connections := connections[i := c.(handshake := Finished)];
      }
    }

    /** The end of finishHandshake(), when it has to catch up. */
    method SendCatchUp(i: nat, ok: bool)
      requires Enabled(Abs(), CatchUpListed(i, ok))
      modifies this
      ensures Abs() == Next(old(Abs()), CatchUpListed(i, ok))
    {
      OneConn(Abs(), CatchUpListed(i, ok), i);
      var current := connections[i].handshake.revision;
      if ok {
        SendMessage(i, ServerSnapshot(current));
      } else {
        FailsProtocol(i);
      }
      connections := connections[i := connections[i].(handshake := Finished)];
    }
  }
}
