/** The imperative code of the client's connection. Each method is proved to compute the function of
    ConnectionLifecycle that its step is made of. */
module ClientConnection {
  import opened Results
  import opened ConnectionLifecycle

  class Connection {
    var lifecycle: Lifecycle
    var sequence: nat
    ghost var fulfilled: multiset<nat>
    ghost var rejected: multiset<nat>
    ghost var produced: set<nat>
    ghost var closed: set<nat>
    ghost var reported: set<nat>
    ghost var notices: seq<Notice>

    ghost function Abs(): State
      reads this
    {
      State(lifecycle, sequence, fulfilled, rejected, produced, closed, reported, notices)
    }

    constructor ()
      ensures Abs() == INITIAL
    {
      lifecycle, sequence := Disconnected, 0;
      fulfilled, rejected, produced, closed, reported, notices := multiset{}, multiset{}, {}, {}, {}, [];
    }

    /** The number of the attempt, or None when the client is not disconnected. */
    method Connects() returns (attempt: Option<nat>)
      modifies this
      ensures attempt == if old(lifecycle).Disconnected? then Some(old(sequence) + 1) else None
      ensures Abs() == if attempt.Some? then Next(old(Abs()), Connect) else old(Abs())
    {
      if lifecycle != Disconnected {
        return None;
      }
      sequence := sequence + 1;
      lifecycle := Connecting(sequence, false);
      notices := notices + [NowConnecting];
      attempt := Some(sequence);
    }

    method IsCurrentAttempt(id: nat) returns (current: bool)
      ensures current <==> IsCurrent(Abs(), id)
    {
      current := lifecycle != Disconnected && lifecycle.id == id;
    }

    method FailOnly()
      modifies this
      ensures Abs() == Fail(old(Abs()))
    {
      if lifecycle == Disconnected {
        return;
      }
      var before := lifecycle;
      lifecycle := Disconnected;
      if before.Connecting? || before.handshakePending {
        rejected := rejected + multiset{before.id};
      }
      notices := notices + [NowDisconnected];
    }

    method FailAndCloseTransport()
      modifies this
      ensures Abs() == FailAndClose(old(Abs()))
    {
      var before := lifecycle;
      FailOnly();
      if before.Connected? || (before.Connecting? && before.hasTransport) {
        closed := closed + {before.id};
      }
    }

    /** openTransport() once the factory has answered. */
    method TransportOpened(id: nat)
      modifies this
      ensures Abs() == TransportArrives(old(Abs()), id)
    {
      produced := produced + {id};
      if !lifecycle.Connecting? || lifecycle.id != id {
        closed := closed + {id};
        return;
      }
      lifecycle := Connecting(id, true);
    }

    method TransportNotOpened(id: nat)
      requires Enabled(Abs(), FactoryRejects(id))
      modifies this
      ensures Abs() == Next(old(Abs()), FactoryRejects(id))
    {
      var current := IsCurrentAttempt(id);
      if current {
        FailOnly();
      }
    }

    method HandleChunk(id: nat, decoded: Option<seq<Delivery>>)
      modifies this
      ensures Abs() == HandleData(old(Abs()), id, decoded)
    {
      var current := IsCurrentAttempt(id);
      if !current {
        return;
      }
      if lifecycle.Connecting? && !lifecycle.hasTransport {
        FailAndCloseTransport();
        return;
      }
      if decoded == None {
        FailAndCloseTransport();
        return;
      }
      var messages := decoded.value;
      var i := 0;
      while i < |messages|
        invariant 0 <= i <= |messages|
        invariant HandleMessages(old(Abs()), messages) == HandleMessages(Abs(), messages[i..])
      {
        if lifecycle == Disconnected {
          return;
        }
        HandleOne(messages[i]);
        i := i + 1;
      }
    }

    method HandleOne(d: Delivery)
      modifies this
      ensures Abs() == HandleMessage(old(Abs()), d)
    {
      if lifecycle.Connecting? {
        if d.message != Hello || !lifecycle.hasTransport {
          FailAndCloseTransport();
        } else {
          BecomeConnected(d);
        }
        return;
      }
      if !lifecycle.Connected? {
        return;
      }
      if d.message != Other || d.disconnects {
        FailAndCloseTransport();
      }
    }

    method BecomeConnected(d: Delivery)
      requires lifecycle.Connecting?
      modifies this
      ensures Abs() == Shake(old(Abs()), d)
    {
      var connected := Connected(lifecycle.id, true);
      lifecycle := connected;
      if d.onHandshake == Disconnects {
        FailAndCloseTransport();
      } else if d.onHandshake == Throws {
        if lifecycle == connected {
          FailAndCloseTransport();
        }
        return;
      }
      if lifecycle != connected {
        return;
      }
      notices := notices + [NowConnected];
      if d.disconnects {
        FailAndCloseTransport();
      }
      if lifecycle != connected {
        return;
      }
      lifecycle := Connected(connected.id, false);
      fulfilled := fulfilled + multiset{connected.id};
    }

    method TransportClosed(id: nat)
      modifies this
      ensures Abs() == HandleClose(old(Abs()), id)
    {
      reported := reported + {id};
      var current := IsCurrentAttempt(id);
      if current {
        FailOnly();
      }
    }
  }
}
