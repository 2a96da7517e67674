/** What the steps of a run say of requests: where a response comes from and what it carries, when a promise is resolved,
    what a message leads to, and what ends a connection. Nothing here depends on how Requests computes a step. */
module RequestHistory {
  import opened Results
  import opened Commands
  import opened Stages
  import opened Requests

  lemma RunsOn(ss: seq<State>, es: seq<Step>, n: nat)
    requires Run(ss, es) && n < |es|
    ensures Enabled(ss[n], es[n]) && ss[n + 1] == Next(ss[n], es[n])
  {
    hide Enabled, Next;
  }

  lemma NextParts(s: State, e: Step)
    requires Enabled(s, e)
    ensures Next(s, e).client == NextClient(s, e) && Next(s, e).links == NextLinks(s, e)
  {
  }

  // ---------------------------------------------------------------------------------------
  // Where a response comes from

  /** The result belongs to the command and carries what the service has answered. */
  predicate Carries(command: Command, answer: Answer, result: CommandResult) {
    match command
    case ListSessions => result == Sessions(ListName, answer.sessions)
    case CreateSession(_) => result == Session(CreateName, answer.session)
    case AttachSession(_) => result == Session(AttachName, answer.session)
    case DetachSession(sessionId) => result == Detached(DetachName, sessionId)
    case PromptSession(_, _) => result == Session(PromptName, answer.session)
    case SteerSession(_, _) => result == Session(SteerName, answer.session)
    case AbortSession(_) => result == Session(AbortName, answer.session)
    case SetModel(_, _) => result == Session(SetModelName, answer.session)
    case SetThinking(_, _) => result == Session(SetThinkingName, answer.session)
  }

  /** In the step the request's execution ended on that link as the response says: with a result that carries the
      answer, or with an error. */
  predicate EndsAs(e: Step, k: nat, r: Req, result: Option<CommandResult>) {
    && e.ExecutionEnds? && e.attempt == k && e.req == r
    && (result.Some? <==> e.answer.Some?)
    && (result.Some? ==> Carries(r.command, e.answer.value, result.value))
  }

  /** The channel is as before, or delivered, or got one message more that is no response. */
  predicate NoResponseMore(a: seq<ServerMessage>, b: seq<ServerMessage>) {
    || b == a
    || (a != [] && b == a[1..])
    || (|b| == |a| + 1 && b[..|a|] == a && !b[|a|].Response?)
  }

  lemma SendingNoResponse(l: Link, message: ServerMessage)
    requires !message.Response?
    ensures NoResponseMore(l.toClient, Send(l, message).toClient)
  {
  }

  lemma FailingNoResponse(l: Link)
    ensures NoResponseMore(l.toClient, FailProtocol(l).toClient)
  {
    SendingNoResponse(l, HelloError);
    hide Send;
  }

  lemma ReceivingNoResponse(l: Link)
    requires l.toServer != []
    ensures NoResponseMore(l.toClient, Receive(l).toClient)
  {
    FailingNoResponse(l.(toServer := l.toServer[1..]));
    hide FailProtocol;
  }

  /** Apart from the end of an execution, what a step sends is no response. */
  lemma OthersRespondNot(l: Link, e: Step)
    requires !OnClient(e) && LinkEnabled(l, e) && !e.ExecutionEnds?
    ensures NoResponseMore(l.toClient, NextLink(l, e).toClient)
  {
    hide Send, FailProtocol, Receive;
    FailingNoResponse(l);
    SendingNoResponse(l, ServerHello);
    SendingNoResponse(l, Event);
    if e.ReceiveNext? {
      ReceivingNoResponse(l);
    }
    if !e.Deliver? {
      hide NoResponseMore;
      NothingMore(l);
    }
  }

  lemma NothingMore(l: Link)
    ensures NoResponseMore(l.toClient, l.toClient)
  {
  }

  lemma ExecutionResponds(l: Link, e: Step)
    requires e.ExecutionEnds? && LinkEnabled(l, e)
    ensures var m := NextLink(l, e).toClient;
            m == l.toClient || exists result :: EndsAs(e, e.attempt, e.req, result) && m == l.toClient + [Response(e.req, result)]
  {
    var result := if e.answer.Some? then Some(ExecuteCommand(e.req.command, e.answer.value)) else None;
    assert EndsAs(e, e.attempt, e.req, result);
    hide EndsAs, ExecuteCommand;
  }

  lemma SentFrom(l: Link, e: Step, message: ServerMessage)
    requires !OnClient(e) && LinkEnabled(l, e) && message in NextLink(l, e).toClient && message.Response?
    ensures message in l.toClient || EndsAs(e, e.attempt, message.req, message.result)
  {
    hide NextLink, LinkEnabled, EndsAs;
    if e.ExecutionEnds? {
      ExecutionResponds(l, e);
    } else {
      OthersRespondNot(l, e);
    }
  }

  lemma ResponseFrom(s: State, e: Step, k: nat, message: ServerMessage)
    requires Enabled(s, e) && k < |Next(s, e).links| && message in Next(s, e).links[k].toClient && message.Response?
    ensures (k < |s.links| && message in s.links[k].toClient) || EndsAs(e, k, message.req, message.result)
  {
    NextParts(s, e);
    hide Next, NextLink;
    if !OnClient(e) && e.attempt == k {
      SentFrom(s.links[k], e, message);
    }
  }

  /** Every response on a channel goes back to the end of that request's execution on that link, and says how it ended. */
  lemma {:induction false} ResponsesSayHowItEnded(ss: seq<State>, es: seq<Step>, n: nat, k: nat, r: Req, result: Option<CommandResult>)
    returns (j: nat)
    requires Run(ss, es) && n < |ss| && k < |ss[n].links| && Response(r, result) in ss[n].links[k].toClient
    ensures j < n && EndsAs(es[j], k, r, result)
  {
    hide Enabled, Next, EndsAs;
    RunsOn(ss, es, n - 1);
    ResponseFrom(ss[n - 1], es[n - 1], k, Response(r, result));
    j := n - 1;
    if !EndsAs(es[n - 1], k, r, result) {
      j := ResponsesSayHowItEnded(ss, es, n - 1, k, r, result);
    }
  }

  /** And the end of an execution is answered, with the request and that result, while the link is there. */
  lemma ExecutionsAreAnswered(ss: seq<State>, es: seq<Step>, n: nat) returns (result: Option<CommandResult>)
    requires Run(ss, es) && n < |es| && es[n].ExecutionEnds?
    ensures es[n].attempt < |ss[n].links| == |ss[n + 1].links| && EndsAs(es[n], es[n].attempt, es[n].req, result)
    ensures var l := ss[n].links[es[n].attempt];
            ss[n + 1].links[es[n].attempt].toClient ==
            l.toClient + if l.disconnected || l.closed then [] else [Response(es[n].req, result)]
  {
    RunsOn(ss, es, n);
    NextParts(ss[n], es[n]);
    result := if es[n].answer.Some? then Some(ExecuteCommand(es[n].req.command, es[n].answer.value)) else None;
    hide Next, Run;
  }

  // ---------------------------------------------------------------------------------------
  // When a promise is resolved

  /** In the step a successful response to the request reaches the client, on the attempt by which it is connected. */
  predicate Succeeds(s: State, e: Step, id: nat) {
    && e.Deliver? && s.client.lifecycle == Connected(e.attempt)
    && e.attempt < |s.links| && s.links[e.attempt].toClient != []
    && s.links[e.attempt].toClient[0].Response? && s.links[e.attempt].toClient[0].req.id == id
    && s.links[e.attempt].toClient[0].result.Some?
  }

  lemma ResolveStep(s: State, e: Step, id: nat)
    requires Inv(s) && Enabled(s, e)
    ensures Next(s, e).client.resolved[id] == s.client.resolved[id] + if Succeeds(s, e, id) then 1 else 0
  {
    NextParts(s, e);
    hide Next;
    if e.Deliver? && s.client.lifecycle == Connected(e.attempt) && s.links[e.attempt].toClient[0].Response? {
      ResponseIsExpected(s, e.attempt);
    }
    hide Inv;
  }

  /** A promise is resolved if and only if a successful response to its request was delivered; and otherwise it is, once
      it is not pending any more, rejected. */
  lemma {:induction false} ResolvedIff(ss: seq<State>, es: seq<Step>, n: nat, id: nat)
    requires Run(ss, es) && n < |ss|
    ensures ss[n].client.resolved[id] <= 1
    ensures ss[n].client.resolved[id] == 1 <==> exists k :: 0 <= k < n && Succeeds(ss[k], es[k], id)
    ensures 1 <= id <= ss[n].client.sequence && id !in ss[n].client.pending ==>
              ss[n].client.rejected[id] == 1 - ss[n].client.resolved[id]
  {
    hide Enabled, Next, Inv, Succeeds;
    EveryRunKeepsInv(ss, es, n);
    OnceEach(ss[n], id);
    if n > 0 {
      ResolvedIff(ss, es, n - 1, id);
      EveryRunKeepsInv(ss, es, n - 1);
      RunsOn(ss, es, n - 1);
      ResolveStep(ss[n - 1], es[n - 1], id);
    }
  }

  lemma OnceEach(s: State, id: nat)
    requires Inv(s)
    ensures s.client.resolved[id] + s.client.rejected[id] == if 1 <= id <= s.client.sequence && id !in s.client.pending then 1 else 0
  {
    hide LinkOk, IssuedOk;
  }

  // ---------------------------------------------------------------------------------------
  // What a message leads to

  /** A request that reaches a connection which is not closing is executed when it is ready, and deferred while it
      handshakes; a hello begins the handshake. No other message comes first, and no second hello. */
  lemma MessageLeadsTo(ss: seq<State>, es: seq<Step>, n: nat, k: nat)
    requires Run(ss, es) && n < |es| && es[n] == ReceiveNext(k)
    ensures k < |ss[n].links| == |ss[n + 1].links| && ss[n].links[k].toServer != []
    ensures var l, m := ss[n].links[k], ss[n + 1].links[k];
            var message := l.toServer[0];
            && m.toServer == l.toServer[1..] && m.toClient == l.toClient
            && if l.disconnected || l.stage == Closing || l.stage == Closed then
                 m == l.(toServer := m.toServer)
               else if message.Request? then
                 && m.stage == l.stage && m.handshake == l.handshake
                 && (l.stage == Ready || l.stage == Handshaking)
                 && m.executing == l.executing + (if l.stage == Ready then multiset{message.req} else multiset{})
                 && m.deferred == l.deferred + (if l.stage == Handshaking then multiset{message.req} else multiset{})
               else
                 && l.stage == AwaitingHello && m.stage == Handshaking && m.handshake == Listing
                 && m.executing == l.executing && m.deferred == l.deferred
  {
    RunsOn(ss, es, n);
    NextParts(ss[n], es[n]);
    EveryRunKeepsInv(ss, es, n);
    assert LinkOk(ss[n], k, ss[n].links[k]);
    assert InOrder(ss[n].client, k, ss[n].links[k]);
    hide Run, Inv, Next, LinkOk, ReqOk, PendingOk;
  }

  /** When the lists of the handshake are there, the hello is sent to a connection that still handshakes, unless the
      server closes; when it was sent, the connection is ready. A deferred request is then executed. */
  lemma HandshakeLeadsTo(ss: seq<State>, es: seq<Step>, n: nat, k: nat)
    requires Run(ss, es) && n < |es| && k < |ss[n].links|
    ensures k < |ss[n + 1].links|
    ensures var l, m := ss[n].links[k], ss[n + 1].links[k];
            && (forall closing :: es[n] == ListsReturn(k, true, closing) ==>
                  if closing || l.disconnected || l.closed || l.stage != Handshaking then
                    m == l.(handshake := Finished)
                  else m.toClient == l.toClient + [ServerHello] && m.helloSent && m.stage == Handshaking && m.handshake == SendingHello)
            && (forall closing :: es[n] == ListsReturn(k, false, closing) ==> m.handshake == Finished && Dead(m))
            && (forall catchUp :: es[n] == HelloReturns(k, true, catchUp) ==>
                  && m.toClient == l.toClient
                  && m.stage == (if l.disconnected || l.stage != Handshaking then l.stage else Ready)
                  && m.handshake == if catchUp && m.stage == Ready && l.stage == Handshaking then CatchingUp else Finished)
            && (forall r :: es[n] == ReleaseDeferred(k, r) ==>
                  && m.deferred == l.deferred - multiset{r}
                  && m.executing == l.executing + (if l.stage == Ready && !l.disconnected then multiset{r} else multiset{}))
  {
    RunsOn(ss, es, n);
    NextParts(ss[n], es[n]);
    hide Run, Next;
  }

  /** A request that is issued is pending under a new number, and goes out on the link of the attempt. The promise of one
      that cannot be encoded is rejected, and nothing else happens. */
  lemma RequestLeadsTo(ss: seq<State>, es: seq<Step>, n: nat, command: Command, outcome: Outcome)
    requires Run(ss, es) && n < |es| && es[n] == IssueRequest(command, outcome)
    ensures ss[n].client.lifecycle.Connected? && ss[n].client.lifecycle.attempt < |ss[n].links| == |ss[n + 1].links|
    ensures var c, d, id, k := ss[n].client, ss[n + 1].client, ss[n].client.sequence + 1, ss[n].client.lifecycle.attempt;
            && d.sequence == id
            && (outcome == Sent ==>
                  && d.pending == c.pending[id := command] && d.lifecycle == c.lifecycle && d.rejected == c.rejected
                  && ss[n + 1].links[k].toServer == ss[n].links[k].toServer + [Request(Req(id, command))])
            && (outcome == NotEncoded ==>
                  && d.lifecycle == c.lifecycle && d.rejected == c.rejected + multiset{id} && id !in d.pending
                  && (forall i :: i in c.pending && i != id ==> i in d.pending && d.pending[i] == c.pending[i])
                  && ss[n + 1].links == ss[n].links)
            && (outcome == SendThrows ==> d.lifecycle.Disconnected? && d.pending == map[])
  {
    RunsOn(ss, es, n);
    NextParts(ss[n], es[n]);
    hide Run, Next;
  }

  // ---------------------------------------------------------------------------------------
  // What ends a connection

  /** The server gives a connection up only when its protocol fails, when it closes, when a message cannot be sent or
      encoded, or when the transport is gone: never for a message that it receives. */
  lemma LinksDieOnlyBy(ss: seq<State>, es: seq<Step>, n: nat, k: nat)
    requires Run(ss, es) && n < |es| && k < |ss[n].links| && !Dead(ss[n].links[k])
    ensures k < |ss[n + 1].links|
    ensures Dead(ss[n + 1].links[k]) ==>
              || es[n] == ProtocolFails(k) || es[n] == ServerCloses(k) || es[n] == ServerDisconnects(k) || es[n] == TransportCloses(k)
              || (exists r :: es[n] == ResponseNotEncoded(k, r))
              || (exists closing :: es[n] == ListsReturn(k, false, closing))
              || (exists catchUp :: es[n] == HelloReturns(k, false, catchUp))
              || es[n] == CatchUpReturns(k, false)
  {
    RunsOn(ss, es, n);
    NextParts(ss[n], es[n]);
    if es[n] == ReceiveNext(k) {
      EveryRunKeepsInv(ss, es, n);
      assert LinkOk(ss[n], k, ss[n].links[k]);
      assert InOrder(ss[n].client, k, ss[n].links[k]);
    }
    hide Run, Inv, Next, LinkOk, ReqOk, PendingOk;
  }

  /** The client becomes connected by the server's hello on the attempt that it has opened, and stays so until it fails,
      is disposed, cannot send, or is told something that does not belong there: never for a response. */
  lemma ClientIsConnectedIff(ss: seq<State>, es: seq<Step>, n: nat, k: nat)
    requires Run(ss, es) && n < |es|
    ensures ss[n + 1].client.lifecycle == Connected(k) && ss[n].client.lifecycle != Connected(k) <==>
            && es[n] == Deliver(k) && k < |ss[n].links| && ss[n].links[k].toClient != []
            && ss[n].links[k].toClient[0] == ServerHello && ss[n].client.lifecycle == Connecting(k, true)
    ensures ss[n].client.lifecycle == Connected(k) && ss[n + 1].client.lifecycle != Connected(k) ==>
              || es[n] == ClientFails || es[n] == DisposeClient
              || (exists command :: es[n] == IssueRequest(command, SendThrows))
              || (es[n] == Deliver(k) && k < |ss[n].links| && ss[n].links[k].toClient != []
                  && (ss[n].links[k].toClient[0] == ServerHello || ss[n].links[k].toClient[0] == HelloError))
  {
    RunsOn(ss, es, n);
    NextParts(ss[n], es[n]);
    EveryRunKeepsInv(ss, es, n);
    var s := ss[n];
    if es[n] == Deliver(k) && s.client.lifecycle == Connected(k) && s.links[k].toClient[0].Response? {
      ResponseIsExpected(s, k);
    }
    hide Run, Inv, Next;
  }

  /** A connect() begins a new attempt on a link of its own; once its transport is open the hello is sent on it. A client
      that fails or is disposed is disconnected with nothing pending. */
  lemma ConnectLeadsTo(ss: seq<State>, es: seq<Step>, n: nat)
    requires Run(ss, es) && n < |es|
    ensures es[n] == Connect ==>
              && ss[n].client.lifecycle.Disconnected? && !ss[n].client.disposed
              && ss[n + 1].client.lifecycle == Connecting(|ss[n].links|, false)
              && |ss[n + 1].links| == |ss[n].links| + 1 && ss[n + 1].links[..|ss[n].links|] == ss[n].links
              && Fresh(ss[n + 1].links[|ss[n].links|])
    ensures es[n] == OpenTransport ==>
              && ss[n].client.lifecycle.Connecting? && !ss[n].client.lifecycle.open
              && ss[n + 1].client.lifecycle == ss[n].client.lifecycle.(open := true)
              && ss[n].client.lifecycle.attempt < |ss[n].links| == |ss[n + 1].links|
              && ss[n + 1].links[ss[n].client.lifecycle.attempt].toServer ==
                 ss[n].links[ss[n].client.lifecycle.attempt].toServer + [ClientHello]
    ensures es[n] == ClientFails || es[n] == DisposeClient ==>
              && ss[n + 1].client.lifecycle.Disconnected? && ss[n + 1].client.pending == map[]
              && ss[n + 1].links == ss[n].links
    ensures ss[n + 1].client.disposed <==> ss[n].client.disposed || es[n] == DisposeClient
  {
    RunsOn(ss, es, n);
    NextParts(ss[n], es[n]);
    EveryRunKeepsInv(ss, es, n);
    hide Run, Next, LinkOk;
  }

  predicate Fresh(l: Link) {
    && l.toServer == [] && l.toClient == [] && l.stage == AwaitingHello && !l.disconnected && !l.closed
    && l.deferred == multiset{} && l.executing == multiset{}
  }

  /** Data of an attempt that is not the current one changes nothing in the client. Of the current one, the hello connects
      it once the transport is open, a response leaves only its own request behind, an event leaves the requests alone,
      and everything else disconnects. */
  lemma DeliveryLeadsTo(ss: seq<State>, es: seq<Step>, n: nat, k: nat)
    requires Run(ss, es) && n < |es| && es[n] == Deliver(k)
    ensures k < |ss[n].links| == |ss[n + 1].links| && ss[n].links[k].toClient != []
    ensures ss[n + 1].links[k] == ss[n].links[k].(toClient := ss[n].links[k].toClient[1..])
    ensures var c, d, message := ss[n].client, ss[n + 1].client, ss[n].links[k].toClient[0];
            if c.lifecycle.Disconnected? || c.lifecycle.attempt != k || (c.lifecycle.Connected? && message == Event) then d == c
            else if message.Response? && c.lifecycle.Connected? then
              d.lifecycle == c.lifecycle && d.pending == c.pending - {message.req.id}
            else if message == ServerHello && c.lifecycle == Connecting(k, true) then
              d == c.(lifecycle := Connected(k))
            else d.lifecycle.Disconnected? && d.pending == map[]
  {
    RunsOn(ss, es, n);
    NextParts(ss[n], es[n]);
    EveryRunKeepsInv(ss, es, n);
    if ss[n].client.lifecycle == Connected(k) && ss[n].links[k].toClient[0].Response? {
      ResponseIsExpected(ss[n], k);
    }
    hide Run, Next, Inv;
  }

  /** When the protocol fails, or a list of the handshake cannot be had, the connection closes with a hello_error, unless
      it was given up before. */
  lemma FailureLeadsTo(ss: seq<State>, es: seq<Step>, n: nat, k: nat)
    requires Run(ss, es) && n < |es| && k < |ss[n].links|
    requires es[n] == ProtocolFails(k) || es[n] == CatchUpReturns(k, false)
             || (exists closing :: es[n] == ListsReturn(k, false, closing))
    ensures k < |ss[n + 1].links|
    ensures var l, m := ss[n].links[k], ss[n + 1].links[k];
            && m.disconnected == l.disconnected && m.closed == l.closed
            && if l.disconnected || l.stage == Closing || l.stage == Closed then m.stage == l.stage && m.toClient == l.toClient
               else m.stage == Closing && m.toClient == l.toClient + if l.closed then [] else [HelloError]
  {
    RunsOn(ss, es, n);
    NextParts(ss[n], es[n]);
    hide Run, Next, NextClient, Receive, Release, Respond;
  }

  /** The server closes without a hello_error, and a connection is gone at once when a message cannot go out or its
      transport is gone. Events are sent for as long as neither holds. */
  lemma DepartureLeadsTo(ss: seq<State>, es: seq<Step>, n: nat, k: nat)
    requires Run(ss, es) && n < |es| && k < |ss[n].links|
    ensures k < |ss[n + 1].links|
    ensures var l, m := ss[n].links[k], ss[n + 1].links[k];
            && (es[n] == ServerCloses(k) ==> m == if l.disconnected then l else l.(stage := Closing))
            && (es[n] == ServerDisconnects(k) ==> m == l.(disconnected := true, stage := Closed))
            && (es[n] == TransportCloses(k) ==> m == l.(closed := true))
            && (forall catchUp :: es[n] == HelloReturns(k, false, catchUp) ==> m == l.(closed := true, handshake := Finished))
            && (forall r :: es[n] == ResponseNotEncoded(k, r) ==> m == l.(closed := true, executing := l.executing - multiset{r}))
            && (es[n] == SendEvent(k) || es[n] == CatchUpReturns(k, true) ==>
                  && m.toClient == l.toClient + (if l.disconnected || l.closed then [] else [Event])
                  && m.stage == l.stage)
  {
    RunsOn(ss, es, n);
    NextParts(ss[n], es[n]);
    hide Run, Next, NextClient, Receive, Release, Respond;
  }
}
