/** The imperative code behind Requests: the client's pending requests, and the server's handling of one
    connection. Each method is proved to compute the function of Requests that a step is made of. */
module RequestHandling {
  import opened Results
  import opened Commands
  import opened Stages
  import opened Requests

  class PiClient {
    var lifecycle: Lifecycle
    var pendingRequests: map<nat, Command>
    var requestSequence: nat
    var disposed: bool
    ghost var resolved: multiset<nat>
    ghost var rejected: multiset<nat>
    ghost var mismatched: bool

    ghost function Abs(): Client
      reads this
    {
      Client(lifecycle, pendingRequests, requestSequence, resolved, rejected, mismatched, disposed)
    }

    constructor ()
      ensures Abs() == NEW_CLIENT
    {
      lifecycle, pendingRequests, requestSequence, disposed := Disconnected, map[], 0, false;
      resolved, rejected, mismatched := multiset{}, multiset{}, false;
    }

    method TakePendingRequest(id: nat) returns (command: Option<Command>)
      modifies this`pendingRequests
      ensures command == if id in old(pendingRequests) then Some(old(pendingRequests)[id]) else None
      ensures pendingRequests == old(pendingRequests) - {id}
    {
      if id !in pendingRequests {
        return None;
      }
      command := Some(pendingRequests[id]);
      pendingRequests := pendingRequests - {id};
    }

    method RejectRequest(id: nat)
      modifies this`pendingRequests, this`rejected
      ensures Abs() == Reject(old(Abs()), id)
    {
      var _ := TakePendingRequest(id);
      rejected := rejected + multiset{id};
    }

    /** Rejects the pending promises one by one, after the map was emptied. */
    method RejectPendingRequests()
      modifies this`pendingRequests, this`rejected
      ensures Abs() == RejectAll(old(Abs()))
    {
      var requests := pendingRequests.Keys;
      pendingRequests := map[];
      var left := requests;
      while left != {}
        invariant left <= requests
        invariant pendingRequests == map[] && rejected == old(rejected) + multiset(requests - left)
        decreases left
      {
        var id :| id in left;
        assert requests - (left - {id}) == (requests - left) + {id};
        left := left - {id};
        rejected := rejected + multiset{id};
      }
      assert requests - left == requests;
    }

    /** Connection.fail() and the handling of the state change that it reports. */
    method FailConnection()
      modifies this
      ensures Abs() == Fail(old(Abs()))
    {
      if lifecycle == Disconnected {
        return;
      }
      lifecycle := Disconnected;
      RejectPendingRequests();
    }

    /** request(): refused, with a rejected promise, when disposed or not connected. */
    method RequestCommand(command: Command, outcome: Outcome) returns (accepted: bool)
      modifies this
      ensures accepted <==> !old(disposed) && old(lifecycle).Connected?
      ensures Abs() == if accepted then Issue(old(Abs()), command, outcome) else old(Abs())
    {
      hide Fail, Reject;
      if disposed || !lifecycle.Connected? {
        return false;
      }
      accepted := true;
      requestSequence := requestSequence + 1;
      var id := requestSequence;
      pendingRequests := pendingRequests[id := command];
      match outcome
      case Sent =>
      case NotEncoded =>
        RejectRequest(id);
      case SendThrows => FailConnection();
    }

    method HandleServerMessage(attempt: nat, message: ServerMessage)
      modifies this
      ensures Abs() == Handle(old(Abs()), attempt, message)
    {
      if lifecycle == Disconnected || lifecycle.attempt != attempt {
        return;
      }
      if lifecycle.Connecting? {
        if !lifecycle.open || message != ServerHello {
          FailConnection();
        } else {
          lifecycle := Connected(attempt);
        }
        return;
      }
      match message
      case Event =>
      case Response(req, result) => HandleResponseMessage(req, result);
      case _ => FailConnection();
    }

    method HandleResponseMessage(req: Req, result: Option<CommandResult>)
      modifies this
      ensures Abs() == HandleResponse(old(Abs()), Response(req, result))
    {
      hide Fail;
      var pending := TakePendingRequest(req.id);
      if pending == None {
        assert old(pendingRequests) - {req.id} == old(pendingRequests);
        FailConnection();
        mismatched := true;
        return;
      }
      if result.None? {
        rejected := rejected + multiset{req.id};
      } else if result.value.command != NameOf(pending.value) {
        rejected := rejected + multiset{req.id};
        FailConnection();
        mismatched := true;
      } else {
        resolved := resolved + multiset{req.id};
      }
    }

    method DisposeAll()
      modifies this
      ensures Abs() == Fail(RejectAll(old(Abs()))).(disposed := true)
    {
      disposed := true;
      RejectPendingRequests();
      FailConnection();
    }
  }

  class ServerConnection {
    ghost var toServer: seq<ClientMessage>
    ghost var toClient: seq<ServerMessage>
    var stage: Stage
    var disconnected: bool
    var closed: bool
    var handshake: Handshake
    // the suspended calls of handleRequest()
    ghost var deferred: multiset<Req>
    ghost var executing: multiset<Req>
    ghost var helloSent: bool
    ghost var responded: multiset<Req>
    ghost var outOfOrder: bool

    ghost function Abs(): Link
      reads this
    {
      Link(toServer, toClient, stage, disconnected, closed, handshake, deferred, executing, helloSent, responded, outOfOrder)
    }

    constructor ()
      ensures Abs() == NEW_LINK
    {
      stage, disconnected, closed, handshake := AwaitingHello, false, false, NotStarted;
      toServer, toClient, deferred, executing := [], [], multiset{}, multiset{};
      helloSent, responded, outOfOrder := false, multiset{}, false;
    }

    method SendMessage(message: ServerMessage) returns (sent: bool)
      modifies this`toClient
      ensures Abs() == Send(old(Abs()), message) && (sent <==> !disconnected && !closed)
    {
      sent := !disconnected && !closed;
      if sent {
        toClient := toClient + [message];
      }
    }

    method FailTheProtocol()
      modifies this
      ensures Abs() == FailProtocol(old(Abs()))
    {
      if disconnected || stage == Closing || stage == Closed {
        return;
      }
      var _ := SendMessage(HelloError);
      stage := Closing;
    }

    /** closeServerState(), for a connection that the server still has. */
    method CloseConnection()
      modifies this`stage
      ensures Abs() == BeginClosing(old(Abs()))
    {
      if !disconnected {
        stage := Closing;
      }
    }

    /** receive(), for one message. */
    method ReceiveMessage(message: ClientMessage)
      requires toServer != [] && toServer[0] == message
      modifies this
      ensures Abs() == Receive(old(Abs()))
    {
      toServer := toServer[1..];
      if disconnected || stage == Closing || stage == Closed {
        return;
      }
      DispatchMessage(message);
    }

    method DispatchMessage(message: ClientMessage)
      modifies this
      ensures Abs() == Dispatch(old(Abs()), message)
    {
      if stage == AwaitingHello {
        if message != ClientHello {
          FailTheProtocol();
          outOfOrder := true;
          return;
        }
        stage, handshake := Handshaking, Listing;
        return;
      }
      if message == ClientHello {
        FailTheProtocol();
        outOfOrder := true;
        return;
      }
      if stage == Ready {
        executing := executing + multiset{message.req};
      } else if stage == Handshaking {
        deferred := deferred + multiset{message.req};
      }
    }

    /** finishHandshake() after its list calls. */
    method SendHello(ok: bool, serverClosing: bool)
      modifies this
      ensures Abs() == FinishLists(old(Abs()), ok, serverClosing)
    {
      if !ok {
        FailTheProtocol();
        handshake := Finished;
      } else if serverClosing || disconnected || stage != Handshaking || closed {
        handshake := Finished;
      } else {
        var sent := SendMessage(ServerHello);
        handshake, helloSent := SendingHello, sent;
      }
    }

    /** finishHandshake() after the hello was sent, or could not be. */
    method BecomeReady(ok: bool, revisionMoved: bool)
      modifies this
      ensures Abs() == FinishHello(old(Abs()), ok, revisionMoved)
    {
      handshake := Finished;
      if !ok {
        closed := true;
      } else if !disconnected && stage == Handshaking {
        stage := Ready;
        if revisionMoved {
          handshake := CatchingUp;
        }
      }
    }

    method SendCatchUp(ok: bool)
      modifies this
      ensures Abs() == FinishCatchUp(old(Abs()), ok)
    {
      if ok {
        var _ := SendMessage(Event);
      } else {
        FailTheProtocol();
      }
      handshake := Finished;
    }

    /** The handshake's continuation for one request that came early. */
    method HandleDeferred(req: Req)
      requires req in deferred
      modifies this
      ensures Abs() == Release(old(Abs()), req)
    {
      deferred := deferred - multiset{req};
      if stage == Ready && !disconnected {
        executing := executing + multiset{req};
      }
    }

    /** The end of handleRequest(): a result, or an error. */
    method AnswerRequest(req: Req, answer: Option<Answer>)
      requires req in executing
      modifies this
      ensures Abs() == Respond(old(Abs()), req, answer)
    {
      executing := executing - multiset{req};
      var sent := SendMessage(ResponseTo(req, answer));
      if sent {
        responded := responded + multiset{req};
      }
    }
  }
}
