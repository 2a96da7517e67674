/** Requests and responses between one client and the server, over any number of connection attempts.

    A link is one attempt: its two FIFO channels and the server's state for it. Each step is one stretch of
    code between two awaits, on the client or on the server. */
module Requests {
  import opened Results
  import opened Commands
  import opened Stages

  datatype Req = Req(id: nat, command: Command)

  datatype ClientMessage = ClientHello | Request(req: Req)

  /** A response carries the request's id, and a result, or an error when there is none. Its req.command is only a
      memory of what was requested. */
  datatype ServerMessage = ServerHello | HelloError | Response(req: Req, result: Option<CommandResult>) | Event

  // ---------------------------------------------------------------------------------------
  // The client

  datatype Lifecycle =
    | Disconnected
    | Connecting(attempt: nat, open: bool)
    | Connected(attempt: nat)

  datatype Client = Client(
    lifecycle: Lifecycle,
    pending: map<nat, Command>,
    sequence: nat,
    // how often each promise was resolved, and how often rejected
    resolved: multiset<nat>,
    rejected: multiset<nat>,
    // a response had no matching request, or its command did not match
    mismatched: bool,
    disposed: bool)

  const NEW_CLIENT := Client(Disconnected, map[], 0, multiset{}, multiset{}, false, false)

  function RejectAll(c: Client): Client {
    c.(pending := map[], rejected := c.rejected + multiset(c.pending.Keys))
  }

  /** fail(): every way of disconnecting ends here, and rejects what is pending. */
  function Fail(c: Client): Client {
    if c.lifecycle.Disconnected? then c else RejectAll(c).(lifecycle := Disconnected)
  }

  function Resolve(c: Client, id: nat): Client {
    c.(pending := c.pending - {id}, resolved := c.resolved + multiset{id})
  }

  function Reject(c: Client, id: nat): Client {
    c.(pending := c.pending - {id}, rejected := c.rejected + multiset{id})
  }

  function HandleResponse(c: Client, response: ServerMessage): Client
    requires response.Response?
  {
    var id := response.req.id;
    if id !in c.pending then Fail(c).(mismatched := true)
    else if response.result.None? then Reject(c, id)
    else if response.result.value.command != NameOf(c.pending[id]) then Fail(Reject(c, id)).(mismatched := true)
    else Resolve(c, id)
  }

  /** Data of one attempt arrives at the client. */
  function Handle(c: Client, attempt: nat, message: ServerMessage): Client {
    match c.lifecycle
    case Disconnected => c
    case Connecting(current, open) =>
      if current != attempt then c
      else if !open || message != ServerHello then Fail(c)
      else c.(lifecycle := Connected(attempt))
    case Connected(current) =>
      if current != attempt || message.Event? then c
      else if message.Response? then HandleResponse(c, message)
      else Fail(c)
  }

  datatype Outcome = Sent | NotEncoded | SendThrows

  function Issue(c: Client, command: Command, outcome: Outcome): Client {
    var id := c.sequence + 1;
    var issued := c.(sequence := id, pending := c.pending[id := command]);
    match outcome
    case Sent => issued
    case NotEncoded => Reject(issued, id)
    case SendThrows => Fail(issued)
  }

  // ---------------------------------------------------------------------------------------
  // The server, for one link

  datatype Handshake = NotStarted | Listing | SendingHello | CatchingUp | Finished

  datatype Link = Link(
    toServer: seq<ClientMessage>,
    toClient: seq<ServerMessage>,
    stage: Stage,
    disconnected: bool,
    closed: bool,
    handshake: Handshake,
    // requests that wait for the handshake, and requests being executed
    deferred: multiset<Req>,
    executing: multiset<Req>,
    // history
    helloSent: bool,
    responded: multiset<Req>,
    outOfOrder: bool)

  const NEW_LINK :=
    Link([], [], AwaitingHello, false, false, NotStarted, multiset{}, multiset{}, false, multiset{}, false)

  predicate Terminal(l: Link) {
    l.disconnected || l.stage == Closing || l.stage == Closed
  }

  /** sendMessage(), up to its await. */
  function Send(l: Link, message: ServerMessage): Link {
    if l.disconnected || l.closed then l else l.(toClient := l.toClient + [message])
  }

  function FailProtocol(l: Link): Link {
    if Terminal(l) then l else Send(l, HelloError).(stage := Closing)
  }

  /** close() of the server, up to its first await: no hello_error is sent, and the transport is still open. */
  function BeginClosing(l: Link): Link {
    if l.disconnected then l else l.(stage := Closing)
  }

  function Dispatch(l: Link, message: ClientMessage): Link {
    if l.stage == AwaitingHello then
      if message.ClientHello? then l.(stage := Handshaking, handshake := Listing)
      else FailProtocol(l).(outOfOrder := true)
    else if message.ClientHello? then FailProtocol(l).(outOfOrder := true)
    else if l.stage == Ready then l.(executing := l.executing + multiset{message.req})
    else if l.stage == Handshaking then l.(deferred := l.deferred + multiset{message.req})
    else l
  }

  function Receive(l: Link): Link
    requires l.toServer != []
  {
    var rest := l.(toServer := l.toServer[1..]);
    if Terminal(l) then rest else Dispatch(rest, l.toServer[0])
  }

  function FinishLists(l: Link, ok: bool, closing: bool): Link {
    if !ok then FailProtocol(l).(handshake := Finished)
    else if closing || l.disconnected || l.stage != Handshaking || l.closed then l.(handshake := Finished)
    else Send(l, ServerHello).(handshake := SendingHello, helloSent := true)
  }

  function FinishHello(l: Link, ok: bool, catchUp: bool): Link {
    if !ok then l.(closed := true, handshake := Finished)
    else if l.disconnected || l.stage != Handshaking then l.(handshake := Finished)
    else l.(stage := Ready, handshake := if catchUp then CatchingUp else Finished)
  }

  function FinishCatchUp(l: Link, ok: bool): Link {
    (if ok then Send(l, Event) else FailProtocol(l)).(handshake := Finished)
  }

  /** The handshake is over; one request that waited for it is handled, or dropped. */
  function Release(l: Link, req: Req): Link {
    var rest := l.(deferred := l.deferred - multiset{req});
    if l.stage == Ready && !l.disconnected then rest.(executing := l.executing + multiset{req}) else rest
  }

  /** executeCommand() has come to its end, with an answer or an error. */
  function Respond(l: Link, req: Req, answer: Option<Answer>): Link {
    var rest := l.(executing := l.executing - multiset{req});
    if l.disconnected || l.closed then rest
    else Send(rest, ResponseTo(req, answer)).(responded := l.responded + multiset{req})
  }

  function ResponseTo(req: Req, answer: Option<Answer>): ServerMessage {
    Response(req, if answer.Some? then Some(ExecuteCommand(req.command, answer.value)) else None)
  }

  // ---------------------------------------------------------------------------------------
  // Both together

  datatype Origin = Origin(attempt: nat, command: Command)

  datatype State = State(client: Client, links: seq<Link>, issued: map<nat, Origin>)

  const INITIAL := State(NEW_CLIENT, [], map[])

  datatype Step =
    // the client
    | Connect
    | OpenTransport
    | IssueRequest(command: Command, outcome: Outcome)
    | ClientFails
    | DisposeClient
    | Deliver(attempt: nat)
    // the server
    | ReceiveNext(attempt: nat)
    | ProtocolFails(attempt: nat)
    | ListsReturn(attempt: nat, ok: bool, closing: bool)
    | HelloReturns(attempt: nat, ok: bool, catchUp: bool)
    | CatchUpReturns(attempt: nat, ok: bool)
    | ReleaseDeferred(attempt: nat, req: Req)
    | ExecutionEnds(attempt: nat, req: Req, answer: Option<Answer>)
    | ResponseNotEncoded(attempt: nat, req: Req)
    | SendEvent(attempt: nat)
    | TransportCloses(attempt: nat)
    | ServerDisconnects(attempt: nat)
    | ServerCloses(attempt: nat)

  predicate OnClient(e: Step) {
    e.Connect? || e.OpenTransport? || e.IssueRequest? || e.ClientFails? || e.DisposeClient?
  }

  predicate LinkEnabled(l: Link, e: Step) {
    match e
    case Deliver(_) => l.toClient != []
    case ReceiveNext(_) => l.toServer != []
    case ListsReturn(_, _, _) => l.handshake == Listing
    case HelloReturns(_, _, _) => l.handshake == SendingHello
    case CatchUpReturns(_, _) => l.handshake == CatchingUp
    case ReleaseDeferred(_, req) => l.handshake == Finished && req in l.deferred
    case ExecutionEnds(_, req, _) => req in l.executing
    case ResponseNotEncoded(_, req) => req in l.executing
    case SendEvent(_) => l.stage == Ready
    case _ => true
  }

  predicate Enabled(s: State, e: Step) {
    match e
    case Connect => s.client.lifecycle.Disconnected? && !s.client.disposed
    case OpenTransport =>
      s.client.lifecycle.Connecting? && !s.client.lifecycle.open && s.client.lifecycle.attempt < |s.links|
    case IssueRequest(_, _) => s.client.lifecycle.Connected? && s.client.lifecycle.attempt < |s.links|
    case ClientFails => true
    case DisposeClient => true
    case _ => e.attempt < |s.links| && LinkEnabled(s.links[e.attempt], e)
  }

  function NextClient(s: State, e: Step): Client
    requires Enabled(s, e)
  {
    match e
    case Connect => s.client.(lifecycle := Connecting(|s.links|, false))
    case OpenTransport => s.client.(lifecycle := Connecting(s.client.lifecycle.attempt, true))
    case IssueRequest(command, outcome) => Issue(s.client, command, outcome)
    case ClientFails => Fail(s.client)
    case DisposeClient => Fail(RejectAll(s.client)).(disposed := true)
    case Deliver(k) => Handle(s.client, k, s.links[k].toClient[0])
    case _ => s.client
  }

  /** What a step makes of the link it is about. */
  function NextLink(l: Link, e: Step): Link
    requires !OnClient(e) && LinkEnabled(l, e)
  {
    match e
    case Deliver(_) => l.(toClient := l.toClient[1..])
    case ReceiveNext(_) => Receive(l)
    case ProtocolFails(_) => FailProtocol(l)
    case ListsReturn(_, ok, closing) => FinishLists(l, ok, closing)
    case HelloReturns(_, ok, catchUp) => FinishHello(l, ok, catchUp)
    case CatchUpReturns(_, ok) => FinishCatchUp(l, ok)
    case ReleaseDeferred(_, req) => Release(l, req)
    case ExecutionEnds(_, req, answer) => Respond(l, req, answer)
    case ResponseNotEncoded(_, req) => l.(executing := l.executing - multiset{req}, closed := true)
    case SendEvent(_) => Send(l, Event)
    case TransportCloses(_) => l.(closed := true)
    case ServerDisconnects(_) => l.(disconnected := true, stage := Closed)
    case ServerCloses(_) => BeginClosing(l)
  }

  function Push(l: Link, message: ClientMessage): Link {
    l.(toServer := l.toServer + [message])
  }

  function NextLinks(s: State, e: Step): seq<Link>
    requires Enabled(s, e)
  {
    match e
    case Connect => s.links + [NEW_LINK]
    case OpenTransport =>
      var k := s.client.lifecycle.attempt;
      s.links[k := Push(s.links[k], ClientHello)]
    case IssueRequest(command, outcome) =>
      var k := s.client.lifecycle.attempt;
      if outcome == Sent then s.links[k := Push(s.links[k], Request(Req(s.client.sequence + 1, command)))] else s.links
    case ClientFails => s.links
    case DisposeClient => s.links
    case _ => s.links[e.attempt := NextLink(s.links[e.attempt], e)]
  }

  function NextIssued(s: State, e: Step): map<nat, Origin>
    requires Enabled(s, e)
  {
    if e.IssueRequest? && e.outcome == Sent
    then s.issued[s.client.sequence + 1 := Origin(s.client.lifecycle.attempt, e.command)]
    else s.issued
  }

  function Next(s: State, e: Step): State
    requires Enabled(s, e)
  {
    State(NextClient(s, e), NextLinks(s, e), NextIssued(s, e))
  }

  ghost predicate Run(ss: seq<State>, es: seq<Step>) {
    && |ss| == |es| + 1
    && ss[0] == INITIAL
    && forall k :: 0 <= k < |es| ==> Enabled(ss[k], es[k]) && ss[k + 1] == Next(ss[k], es[k])
  }

  // ---------------------------------------------------------------------------------------
  // What is in flight on a link

  /** How often the request is among the messages. */
  function Asked(messages: seq<ClientMessage>, r: Req): nat {
    if messages == [] then 0 else (if messages[0] == Request(r) then 1 else 0) + Asked(messages[1..], r)
  }

  /** How often a response to it is among the messages. */
  function Answers(messages: seq<ServerMessage>, r: Req): nat {
    if messages == [] then 0
    else (if messages[0].Response? && messages[0].req == r then 1 else 0) + Answers(messages[1..], r)
  }

  lemma {:induction false} AskedPushed(messages: seq<ClientMessage>, message: ClientMessage, r: Req)
    ensures Asked(messages + [message], r) == Asked(messages, r) + if message == Request(r) then 1 else 0
  {
    if messages == [] {
      assert messages + [message] == [message];
    } else {
      AskedPushed(messages[1..], message, r);
      assert (messages + [message])[1..] == messages[1..] + [message];
    }
  }

  lemma {:induction false} AnswersPushed(messages: seq<ServerMessage>, message: ServerMessage, r: Req)
    ensures Answers(messages + [message], r) == Answers(messages, r) + if message.Response? && message.req == r then 1 else 0
  {
    if messages == [] {
      assert messages + [message] == [message];
    } else {
      AnswersPushed(messages[1..], message, r);
      assert (messages + [message])[1..] == messages[1..] + [message];
    }
  }

  /** How often the request is on the link without a response so far. */
  function Unanswered(l: Link, r: Req): nat {
    Asked(l.toServer, r) + l.deferred[r] + l.executing[r]
  }

  /** How often it, or a response to it, is on its way. */
  function InFlight(l: Link, r: Req): nat {
    Unanswered(l, r) + Answers(l.toClient, r)
  }

  predicate Dead(l: Link) {
    Terminal(l) || l.closed
  }

  // ---------------------------------------------------------------------------------------
  // The invariant

  /** Each promise made so far is pending or was settled, once. */
  ghost predicate ClientOk(c: Client) {
    && (forall id :: id in c.pending ==> 1 <= id <= c.sequence)
    && (forall id: nat :: c.resolved[id] + c.rejected[id] == if 1 <= id <= c.sequence && id !in c.pending then 1 else 0)
    && (c.pending != map[] ==> c.lifecycle.Connected?)
    && (c.disposed ==> c.lifecycle.Disconnected?)
  }

  ghost predicate IssuedOk(s: State) {
    && (forall id :: id in s.issued ==> 1 <= id <= s.client.sequence && s.issued[id].attempt < |s.links|)
    && (!s.client.lifecycle.Disconnected? ==> s.client.lifecycle.attempt < |s.links|)
  }

  predicate IssuedOn(issued: map<nat, Origin>, k: nat, r: Req) {
    r.id in issued && issued[r.id] == Origin(k, r.command)
  }

  /** One request on one link: it was issued there, is not answered twice, and not still to be answered
      after it was. */
  predicate ReqOk(issued: map<nat, Origin>, k: nat, l: Link, r: Req) {
    && (Unanswered(l, r) > 0 || l.responded[r] > 0 ==> IssuedOn(issued, k, r) && l.helloSent)
    && l.responded[r] + Unanswered(l, r) <= 1
    && Answers(l.toClient, r) <= l.responded[r]
  }

  /** On the link of the current attempt, what is in flight is pending, and what is pending is in flight. */
  predicate PendingOk(c: Client, k: nat, l: Link, r: Req) {
    && (c.lifecycle.Connecting? && c.lifecycle.attempt == k ==> InFlight(l, r) == 0)
    && (c.lifecycle == Connected(k) ==>
          && (InFlight(l, r) > 0 ==> Pends(c.pending, r))
          && (Pends(c.pending, r) ==> Dead(l) || InFlight(l, r) > 0))
  }

  predicate Pends(pending: map<nat, Command>, r: Req) {
    r.id in pending && pending[r.id] == r.command
  }

  /** Every result names the command that was requested. */
  predicate NamesCommand(message: ServerMessage) {
    message.Response? && message.result.Some? ==> message.result.value.command == NameOf(message.req.command)
  }

  /** The order of the handshake. */
  predicate InOrder(c: Client, k: nat, l: Link) {
    && !l.outOfOrder
    && (forall i :: 0 <= i < |l.toClient| ==> NamesCommand(l.toClient[i]))
    && (!l.helloSent ==> forall i :: 0 <= i < |l.toClient| ==> l.toClient[i].HelloError?)
    && (l.stage == AwaitingHello ==> l.handshake == NotStarted && (l.toServer == [] || l.toServer == [ClientHello]))
    && (l.stage != AwaitingHello && !Terminal(l) ==> forall i :: 0 <= i < |l.toServer| ==> l.toServer[i].Request?)
    && (l.helloSent ==> l.stage != AwaitingHello && l.handshake != NotStarted && l.handshake != Listing)
    && (l.stage == Ready || l.handshake == SendingHello || l.handshake == CatchingUp ==> l.helloSent)
    && (l.helloSent && !Dead(l) ==> l.stage == if l.handshake == SendingHello then Handshaking else Ready)
    && (c.lifecycle == Connecting(k, false) ==> l.toServer == [] && (l.stage == AwaitingHello || Terminal(l)))
    && (c.lifecycle == Connected(k) ==> l.helloSent)
  }

  ghost predicate LinkOk(s: State, k: nat, l: Link) {
    && InOrder(s.client, k, l)
    && forall r :: ReqOk(s.issued, k, l, r) && PendingOk(s.client, k, l, r)
  }

  ghost predicate Inv(s: State) {
    && ClientOk(s.client) && IssuedOk(s) && !s.client.mismatched
    && forall k :: 0 <= k < |s.links| ==> LinkOk(s, k, s.links[k])
  }

  // ---------------------------------------------------------------------------------------
  // The server's steps

  /** No server step adds to what is in flight, and what it takes away it answers, unless the link is dead. */
  predicate Flow(l: Link, m: Link, r: Req) {
    && Unanswered(m, r) <= Unanswered(l, r)
    && l.responded[r] + Unanswered(m, r) <= m.responded[r] + Unanswered(m, r) <= l.responded[r] + Unanswered(l, r)
    && Answers(m.toClient, r) + l.responded[r] == Answers(l.toClient, r) + m.responded[r]
    && (Dead(l) ==> Dead(m))
    && (l.helloSent ==> m.helloSent)
    && (Dead(m) || InFlight(m, r) == InFlight(l, r))
  }

  lemma SendFlows(l: Link, message: ServerMessage, r: Req)
    requires !message.Response?
    ensures Flow(l, Send(l, message), r)
  {
    AnswersPushed(l.toClient, message, r);
  }

  lemma ReceiveFlows(l: Link, r: Req)
    requires l.toServer != [] && (l.stage == AwaitingHello ==> l.toServer[0] == ClientHello)
    requires l.stage != AwaitingHello && !Terminal(l) ==> l.toServer[0].Request?
    ensures Flow(l, Receive(l), r)
  {
    var message, rest := l.toServer[0], l.(toServer := l.toServer[1..]);
    assert Asked(l.toServer, r) == (if message == Request(r) then 1 else 0) + Asked(rest.toServer, r);
  }

  lemma RespondFlows(l: Link, req: Req, answer: Option<Answer>, r: Req)
    requires req in l.executing
    ensures Flow(l, Respond(l, req, answer), r)
  {
    AnswersPushed(l.toClient, ResponseTo(req, answer), r);
  }

  lemma FailProtocolFlows(l: Link, r: Req)
    ensures Flow(l, FailProtocol(l), r)
  {
    SendFlows(l, HelloError, r);
  }

  lemma NothingFlows(l: Link, r: Req)
    ensures Flow(l, l, r)
  {
  }

  lemma FlowIgnoresHandshake(l: Link, m: Link, n: Link, r: Req)
    requires Flow(l, m, r) && n == m.(handshake := n.handshake, helloSent := n.helloSent) && (m.helloSent ==> n.helloSent)
    ensures Flow(l, n, r)
  {
  }

  lemma ListsFlow(l: Link, ok: bool, closing: bool, r: Req)
    ensures Flow(l, FinishLists(l, ok, closing), r)
  {
    hide FailProtocol, Send, Flow, Asked, Answers, Terminal;
    var m := FinishLists(l, ok, closing);
    if !ok {
      FailProtocolFlows(l, r);
      FlowIgnoresHandshake(l, FailProtocol(l), m, r);
    } else if m == l.(handshake := Finished) {
      NothingFlows(l, r);
      FlowIgnoresHandshake(l, l, m, r);
    } else {
      SendFlows(l, ServerHello, r);
      FlowIgnoresHandshake(l, Send(l, ServerHello), m, r);
    }
  }

  lemma CatchUpFlows(l: Link, ok: bool, r: Req)
    ensures Flow(l, FinishCatchUp(l, ok), r)
  {
    FailProtocolFlows(l, r);
    SendFlows(l, Event, r);
    hide FailProtocol, Send;
  }

  lemma ServerFlows(c: Client, k: nat, l: Link, e: Step, r: Req)
    requires !OnClient(e) && !e.Deliver? && LinkEnabled(l, e) && InOrder(c, k, l)
    requires l.deferred[r] > 0 ==> l.helloSent
    ensures Flow(l, NextLink(l, e), r)
  {
    hide Asked, Answers, Receive, Respond, FinishLists, FinishCatchUp, FailProtocol;
    match e {
      case ReceiveNext(_) => ReceiveFlows(l, r);
      case ExecutionEnds(_, req, answer) => RespondFlows(l, req, answer, r);
      case ListsReturn(_, ok, closing) => ListsFlow(l, ok, closing, r);
      case CatchUpReturns(_, ok) => CatchUpFlows(l, ok, r);
      case ProtocolFails(_) => FailProtocolFlows(l, r);
      case SendEvent(_) => SendFlows(l, Event, r);
      case _ => QuietFlows(c, k, l, e, r);
    }
    hide Send, Flow, InOrder;
  }

  lemma HelloFlows(l: Link, ok: bool, catchUp: bool, r: Req)
    ensures Flow(l, FinishHello(l, ok, catchUp), r)
  {
    hide Asked, Answers;
  }

  lemma ReleaseFlows(c: Client, k: nat, l: Link, req: Req, r: Req)
    requires l.handshake == Finished && req in l.deferred && InOrder(c, k, l)
    requires l.deferred[r] > 0 ==> l.helloSent
    ensures Flow(l, Release(l, req), r)
  {
    hide Asked, Answers;
  }

  lemma QuietFlows(c: Client, k: nat, l: Link, e: Step, r: Req)
    requires e.HelloReturns? || e.ReleaseDeferred? || e.ResponseNotEncoded? || e.TransportCloses? || e.ServerDisconnects? || e.ServerCloses?
    requires LinkEnabled(l, e) && InOrder(c, k, l)
    requires l.deferred[r] > 0 ==> l.helloSent
    ensures Flow(l, NextLink(l, e), r)
  {
    hide Asked, Answers, FinishHello, Release, InOrder;
    if e.HelloReturns? {
      HelloFlows(l, e.ok, e.catchUp, r);
    } else if e.ReleaseDeferred? {
      ReleaseFlows(c, k, l, e.req, r);
    }
  }

  lemma ReceiveStaysInOrder(c: Client, k: nat, l: Link)
    requires l.toServer != [] && InOrder(c, k, l)
    ensures InOrder(c, k, Receive(l))
  {
  }

  lemma ServerStaysInOrder(c: Client, k: nat, l: Link, e: Step)
    requires !OnClient(e) && !e.Deliver? && LinkEnabled(l, e) && InOrder(c, k, l)
    requires l.executing != multiset{} ==> l.helloSent
    ensures InOrder(c, k, NextLink(l, e))
  {
    hide Receive, FinishLists, FailProtocol, FinishCatchUp, FinishHello, Respond, Release;
    match e {
      case ReceiveNext(_) => ReceiveStaysInOrder(c, k, l);
      case ListsReturn(_, ok, closing) => ListsStayInOrder(c, k, l, ok, closing);
      case CatchUpReturns(_, ok) => FailStaysInOrder(c, k, l, e);
      case ProtocolFails(_) => FailStaysInOrder(c, k, l, e);
      case HelloReturns(_, ok, catchUp) => HelloStaysInOrder(c, k, l, ok, catchUp);
      case ReleaseDeferred(_, req) => ExecutionStaysInOrder(c, k, l, req, None);
      case ExecutionEnds(_, req, answer) => ExecutionStaysInOrder(c, k, l, req, answer);
      case _ =>
    }
  }

  lemma HelloStaysInOrder(c: Client, k: nat, l: Link, ok: bool, catchUp: bool)
    requires l.handshake == SendingHello && InOrder(c, k, l)
    ensures InOrder(c, k, FinishHello(l, ok, catchUp))
  {
  }

  lemma ExecutionStaysInOrder(c: Client, k: nat, l: Link, req: Req, answer: Option<Answer>)
    requires InOrder(c, k, l)
    ensures InOrder(c, k, Release(l, req)) && (l.helloSent ==> InOrder(c, k, Respond(l, req, answer)))
  {
  }

  lemma FailStaysInOrder(c: Client, k: nat, l: Link, e: Step)
    requires (e.CatchUpReturns? || e.ProtocolFails?) && LinkEnabled(l, e) && InOrder(c, k, l)
    ensures InOrder(c, k, NextLink(l, e))
  {
  }

  lemma ListsStayInOrder(c: Client, k: nat, l: Link, ok: bool, closing: bool)
    requires l.handshake == Listing && InOrder(c, k, l)
    ensures InOrder(c, k, FinishLists(l, ok, closing))
  {
  }

  lemma ServerKeepsLink(s: State, e: Step)
    requires Inv(s) && Enabled(s, e) && !OnClient(e) && !e.Deliver?
    ensures LinkOk(s, e.attempt, NextLink(s.links[e.attempt], e))
  {
    var k := e.attempt;
    var l, m := s.links[k], NextLink(s.links[k], e);
    assert LinkOk(s, k, l);
    forall r ensures ReqOk(s.issued, k, m, r) && PendingOk(s.client, k, m, r) {
      assert ReqOk(s.issued, k, l, r) && PendingOk(s.client, k, l, r);
      ServerFlows(s.client, k, l, e, r);
    }
    if l.executing != multiset{} {
      var r :| r in l.executing;
      assert ReqOk(s.issued, k, l, r);
    }
    ServerStaysInOrder(s.client, k, l, e);
  }

  // ---------------------------------------------------------------------------------------
  // The client's steps

  lemma RejectAllSettles(c: Client)
    requires ClientOk(c)
    ensures forall id: nat :: RejectAll(c).resolved[id] + RejectAll(c).rejected[id] == if 1 <= id <= c.sequence then 1 else 0
  {
  }

  lemma FailKeepsClient(c: Client)
    requires ClientOk(c)
    ensures ClientOk(Fail(c))
  {
    RejectAllSettles(c);
  }

  lemma SettleKeepsClient(c: Client, id: nat)
    requires ClientOk(c) && id in c.pending
    ensures ClientOk(Resolve(c, id)) && ClientOk(Reject(c, id))
  {
  }

  lemma MarksKeepClient(c: Client)
    requires ClientOk(c)
    ensures ClientOk(c.(mismatched := true))
  {
  }

  lemma ConnectingKeepsClient(c: Client, k: nat)
    requires ClientOk(c) && c.lifecycle.Connecting?
    ensures ClientOk(c.(lifecycle := Connected(k)))
  {
  }

  lemma HandleKeepsClient(c: Client, k: nat, message: ServerMessage)
    requires ClientOk(c)
    ensures ClientOk(Handle(c, k, message))
  {
    hide Fail, Resolve, Reject, ClientOk;
    FailKeepsClient(c);
    if message.Response? && message.req.id in c.pending {
      SettleKeepsClient(c, message.req.id);
      FailKeepsClient(Reject(c, message.req.id));
      MarksKeepClient(Fail(Reject(c, message.req.id)));
    }
    MarksKeepClient(Fail(c));
    if c.lifecycle.Connecting? {
      ConnectingKeepsClient(c, k);
    }
  }

  lemma OneMorePends(c: Client, command: Command)
    requires ClientOk(c) && c.lifecycle.Connected?
    ensures ClientOk(c.(sequence := c.sequence + 1, pending := c.pending[c.sequence + 1 := command]))
  {
  }

  lemma IssueKeepsClient(c: Client, command: Command, outcome: Outcome)
    requires ClientOk(c) && c.lifecycle.Connected?
    ensures ClientOk(Issue(c, command, outcome))
  {
    hide ClientOk, Fail, Resolve, Reject;
    var id := c.sequence + 1;
    var issued := c.(sequence := id, pending := c.pending[id := command]);
    OneMorePends(c, command);
    SettleKeepsClient(issued, id);
    FailKeepsClient(issued);
  }

  lemma StepKeepsClient(s: State, e: Step)
    requires ClientOk(s.client) && Enabled(s, e)
    ensures ClientOk(NextClient(s, e))
  {
    match e
    case IssueRequest(command, outcome) => IssueKeepsClient(s.client, command, outcome);
    case Deliver(k) => HandleKeepsClient(s.client, k, s.links[k].toClient[0]);
    case ClientFails => FailKeepsClient(s.client);
    case DisposeClient => RejectAllSettles(s.client);
    case _ =>
    hide Handle, Issue;
  }

  /** What arrives for the current attempt is expected. */
  lemma ResponseIsExpected(s: State, k: nat)
    requires Inv(s) && k < |s.links| && s.links[k].toClient != [] && s.client.lifecycle == Connected(k)
    requires s.links[k].toClient[0].Response?
    ensures Pends(s.client.pending, s.links[k].toClient[0].req) && NamesCommand(s.links[k].toClient[0])
  {
    var r := s.links[k].toClient[0].req;
    assert LinkOk(s, k, s.links[k]);
    assert PendingOk(s.client, k, s.links[k], r);
  }

  lemma StepKeepsMatched(s: State, e: Step)
    requires Inv(s) && Enabled(s, e)
    ensures !NextClient(s, e).mismatched
  {
    if e.Deliver? && s.client.lifecycle == Connected(e.attempt) && s.links[e.attempt].toClient[0].Response? {
      ResponseIsExpected(s, e.attempt);
    }
    hide Inv;
  }

  /** A request leaves the client: it is new, so nothing of it can be on any link. */
  lemma IssueKeepsReq(s: State, command: Command, r: Req)
    requires Inv(s) && Enabled(s, IssueRequest(command, Sent))
    ensures var e, k := IssueRequest(command, Sent), s.client.lifecycle.attempt;
            && ReqOk(NextIssued(s, e), k, NextLinks(s, e)[k], r)
            && PendingOk(NextClient(s, e), k, NextLinks(s, e)[k], r)
  {
    var k := s.client.lifecycle.attempt;
    var l := s.links[k];
    var id := s.client.sequence + 1;
    assert LinkOk(s, k, l);
    assert ReqOk(s.issued, k, l, r) && PendingOk(s.client, k, l, r);
    AskedPushed(l.toServer, Request(Req(id, command)), r);
    assert r.id == id ==> r.id !in s.issued;
  }

  /** A message reaches the client. */
  lemma DeliverKeepsReq(s: State, k: nat, r: Req)
    requires Inv(s) && Enabled(s, Deliver(k))
    ensures var e := Deliver(k);
            && ReqOk(s.issued, k, NextLink(s.links[k], e), r)
            && PendingOk(NextClient(s, e), k, NextLink(s.links[k], e), r)
  {
    var l := s.links[k];
    var message := l.toClient[0];
    assert LinkOk(s, k, l);
    assert ReqOk(s.issued, k, l, r) && PendingOk(s.client, k, l, r);
    assert Answers(l.toClient, r) == (if message.Response? && message.req == r then 1 else 0) + Answers(l.toClient[1..], r);
    if message.Response? {
      assert ReqOk(s.issued, k, l, message.req);
      if s.client.lifecycle == Connected(k) {
        ResponseIsExpected(s, k);
      }
    }
  }

  lemma OpenKeepsReq(s: State, r: Req)
    requires Inv(s) && Enabled(s, OpenTransport)
    ensures var k := s.client.lifecycle.attempt;
            && ReqOk(s.issued, k, Push(s.links[k], ClientHello), r)
            && PendingOk(NextClient(s, OpenTransport), k, Push(s.links[k], ClientHello), r)
  {
    var k := s.client.lifecycle.attempt;
    assert LinkOk(s, k, s.links[k]);
    assert ReqOk(s.issued, k, s.links[k], r) && PendingOk(s.client, k, s.links[k], r);
    AskedPushed(s.links[k].toServer, ClientHello, r);
  }

  lemma NotEncodedKeepsPending(c: Client, command: Command)
    requires ClientOk(c)
    ensures Issue(c, command, NotEncoded).pending == c.pending
    ensures Issue(c, command, NotEncoded).lifecycle == c.lifecycle
  {
  }

  /** A step of the client keeps the link of its attempt. */
  lemma ClientKeepsReq(s: State, e: Step, k: nat, r: Req)
    requires Inv(s) && Enabled(s, e) && k < |NextLinks(s, e)| && (OnClient(e) || (e.Deliver? && e.attempt == k))
    requires OnClient(e) ==> !NextClient(s, e).lifecycle.Disconnected? && NextClient(s, e).lifecycle.attempt == k
    ensures ReqOk(NextIssued(s, e), k, NextLinks(s, e)[k], r) && PendingOk(NextClient(s, e), k, NextLinks(s, e)[k], r)
  {
    if e.Deliver? {
      DeliverKeepsReq(s, k, r);
    } else if e.OpenTransport? {
      OpenKeepsReq(s, r);
    } else if e.IssueRequest? && e.outcome == Sent {
      IssueKeepsReq(s, e.command, r);
    } else if e.IssueRequest? {
      NotEncodedKeepsPending(s.client, e.command);
      assert LinkOk(s, k, s.links[k]);
      assert PendingOk(s.client, k, s.links[k], r);
    }
    hide InOrder, ReqOk, Issue;
  }

  /** For the order of a link it only matters of the client whether it waits on that link, or is connected by it. */
  lemma OrderOfClient(c: Client, d: Client, k: nat, l: Link)
    requires InOrder(c, k, l)
    requires d.lifecycle == Connecting(k, false) ==> c.lifecycle == Connecting(k, false)
    requires d.lifecycle == Connected(k) ==> l.helloSent
    ensures InOrder(d, k, l)
  {
  }

  lemma DeliverKeepsOrder(s: State, k: nat)
    requires Enabled(s, Deliver(k)) && InOrder(s.client, k, s.links[k])
    ensures InOrder(NextClient(s, Deliver(k)), k, NextLink(s.links[k], Deliver(k)))
  {
    var l, m := s.links[k], NextLink(s.links[k], Deliver(k));
    assert forall i :: 0 <= i < |m.toClient| ==> m.toClient[i] == l.toClient[i + 1];
    assert InOrder(s.client, k, m);
    HandledInOrder(s.client, k, l.toClient[0]);
    assert NextClient(s, Deliver(k)).lifecycle == Connected(k) ==> l.helloSent;
    hide Enabled, NextClient, InOrder;
    assert m.helloSent == l.helloSent;
    OrderOfClient(s.client, NextClient(s, Deliver(k)), k, m);
  }

  lemma HandledInOrder(c: Client, k: nat, message: ServerMessage)
    ensures var d := Handle(c, k, message);
            && (d.lifecycle == Connecting(k, false) ==> c.lifecycle == Connecting(k, false))
            && (d.lifecycle == Connected(k) ==> c.lifecycle == Connected(k) || message == ServerHello)
  {
  }

  lemma ConnectInOrder(s: State)
    requires Enabled(s, Connect)
    ensures InOrder(NextClient(s, Connect), |s.links|, NEW_LINK)
  {
  }

  lemma OpenKeepsOrder(s: State, k: nat)
    requires Enabled(s, OpenTransport) && k == s.client.lifecycle.attempt && InOrder(s.client, k, s.links[k])
    ensures InOrder(NextClient(s, OpenTransport), k, Push(s.links[k], ClientHello))
  {
  }

  lemma IssueKeepsOrder(s: State, e: Step, k: nat)
    requires Enabled(s, e) && e.IssueRequest? && k == s.client.lifecycle.attempt && InOrder(s.client, k, s.links[k])
    ensures InOrder(NextClient(s, e), k, NextLinks(s, e)[k])
  {
    var m := NextLinks(s, e)[k];
    assert InOrder(s.client, k, m);
    assert NextClient(s, e).lifecycle == s.client.lifecycle || NextClient(s, e).lifecycle.Disconnected?;
    hide Enabled, NextClient, NextLinks;
    OrderOfClient(s.client, NextClient(s, e), k, m);
  }

  lemma StepKeepsOrder(s: State, e: Step, k: nat)
    requires Inv(s) && Enabled(s, e) && k < |NextLinks(s, e)| && (OnClient(e) || (e.Deliver? && e.attempt == k))
    requires OnClient(e) ==> !NextClient(s, e).lifecycle.Disconnected? && NextClient(s, e).lifecycle.attempt == k
    ensures InOrder(NextClient(s, e), k, NextLinks(s, e)[k])
  {
    if k < |s.links| {
      assert LinkOk(s, k, s.links[k]);
    }
    hide Inv, InOrder, Push, Issue, Handle, NextLink;
    match e {
      case Deliver(_) => DeliverKeepsOrder(s, k);
      case Connect => ConnectInOrder(s);
      case OpenTransport => OpenKeepsOrder(s, k);
      case IssueRequest(_, _) =>
        IssuesOnItsLink(s, e);
        IssueKeepsOrder(s, e, k);
      case _ =>
    }
  }

  lemma IssuesOnItsLink(s: State, e: Step)
    requires Enabled(s, e) && e.IssueRequest?
    ensures NextClient(s, e).lifecycle == s.client.lifecycle || NextClient(s, e).lifecycle.Disconnected?
  {
  }

  predicate Touches(s: State, e: Step, k: nat)
    requires Enabled(s, e)
  {
    if OnClient(e) then !NextClient(s, e).lifecycle.Disconnected? && NextClient(s, e).lifecycle.attempt == k
    else e.attempt == k
  }

  lemma TouchedStays(s: State, e: Step, k: nat)
    requires Inv(s) && Enabled(s, e) && k < |NextLinks(s, e)| && Touches(s, e, k)
    ensures LinkOk(Next(s, e), k, NextLinks(s, e)[k])
  {
    if !OnClient(e) && !e.Deliver? {
      ServerKeepsLink(s, e);
    } else {
      StepKeepsOrder(s, e, k);
      forall r ensures ReqOk(NextIssued(s, e), k, NextLinks(s, e)[k], r) && PendingOk(NextClient(s, e), k, NextLinks(s, e)[k], r) {
        ClientKeepsReq(s, e, k, r);
      }
      hide NextIssued, NextClient, NextLinks, Inv, Enabled, InOrder, ReqOk, PendingOk;
    }
  }

  lemma UntouchedStays(s: State, e: Step, k: nat)
    requires Inv(s) && Enabled(s, e) && k < |NextLinks(s, e)| && !Touches(s, e, k)
    ensures LinkOk(Next(s, e), k, NextLinks(s, e)[k])
  {
    assert k < |s.links| && NextLinks(s, e)[k] == s.links[k];
    var l, t := s.links[k], Next(s, e);
    assert LinkOk(s, k, l);
    ClientElsewhere(s, e, k);
    forall r ensures ReqOk(t.issued, k, l, r) && PendingOk(t.client, k, l, r) {
      assert ReqOk(s.issued, k, l, r) && PendingOk(s.client, k, l, r);
    }
    hide NextClient;
  }

  lemma ClientElsewhere(s: State, e: Step, k: nat)
    requires Enabled(s, e) && !Touches(s, e, k)
    ensures var c := NextClient(s, e);
            c == s.client || c.lifecycle.Disconnected? || c.lifecycle.attempt != k
  {
  }

  lemma StepKeepsIssued(s: State, e: Step)
    requires Inv(s) && Enabled(s, e)
    ensures IssuedOk(Next(s, e))
  {
  }

  lemma StepKeepsInv(s: State, e: Step)
    requires Inv(s) && Enabled(s, e)
    ensures Inv(Next(s, e))
  {
    StepKeepsClient(s, e);
    StepKeepsMatched(s, e);
    StepKeepsIssued(s, e);
    var t := Next(s, e);
    assert t.links == NextLinks(s, e) && t.client == NextClient(s, e);
    forall k | 0 <= k < |t.links| ensures LinkOk(t, k, t.links[k]) {
      if Touches(s, e, k) {
        TouchedStays(s, e, k);
      } else {
        UntouchedStays(s, e, k);
      }
    }
    hide Next, NextLinks, NextClient, LinkOk, Touches, Enabled;
  }

  lemma {:induction false} EveryRunKeepsInv(ss: seq<State>, es: seq<Step>, n: nat)
    requires Run(ss, es) && n < |ss|
    ensures Inv(ss[n])
  {
    if n > 0 {
      EveryRunKeepsInv(ss, es, n - 1);
      StepKeepsInv(ss[n - 1], es[n - 1]);
    }
    hide Next, Enabled;
  }

  // ---------------------------------------------------------------------------------------
  // What every run promises

  /** No command is executed, and nothing but the end of the handshake is sent, before the server's hello;
      and no message arrives out of order at the server. */
  lemma NothingRunsBeforeTheHello(ss: seq<State>, es: seq<Step>, n: nat, k: nat)
    requires Run(ss, es) && n < |ss| && k < |ss[n].links|
    ensures var l := ss[n].links[k];
            && (l.executing != multiset{} || l.deferred != multiset{} || l.responded != multiset{} ==> l.helloSent)
            && (!l.helloSent ==> forall i :: 0 <= i < |l.toClient| ==> l.toClient[i].HelloError?)
            && !l.outOfOrder
  {
    EveryRunKeepsInv(ss, es, n);
    var s, l := ss[n], ss[n].links[k];
    assert LinkOk(s, k, l);
    if r :| r in l.executing + l.deferred + l.responded {
      assert ReqOk(s.issued, k, l, r);
    } else {
      assert l.executing + l.deferred + l.responded == multiset{};
    }
  }

  /** Each request is answered at most once, with the id and the command it was issued with, and only on the
      attempt it was issued on. */
  lemma AnsweredAtMostOnce(ss: seq<State>, es: seq<Step>, n: nat, k: nat, r: Req)
    requires Run(ss, es) && n < |ss| && k < |ss[n].links| && r in ss[n].links[k].responded
    ensures ss[n].links[k].responded[r] == 1
    ensures r.id in ss[n].issued && ss[n].issued[r.id] == Origin(k, r.command)
    ensures forall j, q :: 0 <= j < |ss[n].links| && q in ss[n].links[j].responded && q.id == r.id ==> j == k && q == r
  {
    EveryRunKeepsInv(ss, es, n);
    var s := ss[n];
    assert LinkOk(s, k, s.links[k]);
    assert ReqOk(s.issued, k, s.links[k], r);
    forall j, q | 0 <= j < |s.links| && q in s.links[j].responded && q.id == r.id ensures j == k && q == r {
      assert LinkOk(s, j, s.links[j]);
      assert ReqOk(s.issued, j, s.links[j], q);
    }
  }

  /** The client never fails because a response has no matching request or the wrong command. */
  lemma ResponsesAlwaysMatch(ss: seq<State>, es: seq<Step>, n: nat)
    requires Run(ss, es) && n < |ss|
    ensures !ss[n].client.mismatched
  {
    EveryRunKeepsInv(ss, es, n);
  }

  /** Each promise is settled exactly once unless it is still pending, and none is pending once the client
      is disconnected. */
  lemma SettledExactlyOnce(ss: seq<State>, es: seq<Step>, n: nat, id: nat)
    requires Run(ss, es) && n < |ss| && 1 <= id <= ss[n].client.sequence
    ensures ss[n].client.resolved[id] + ss[n].client.rejected[id] == if id in ss[n].client.pending then 0 else 1
    ensures !ss[n].client.lifecycle.Connected? ==> ss[n].client.resolved[id] + ss[n].client.rejected[id] == 1
  {
    EveryRunKeepsInv(ss, es, n);
  }

  /** No pending request is forgotten: it or its response is on its way, unless the server has given up the
      connection. */
  lemma PendingIsOnItsWay(ss: seq<State>, es: seq<Step>, n: nat, id: nat)
    requires Run(ss, es) && n < |ss| && id in ss[n].client.pending
    ensures ss[n].client.lifecycle.Connected? && ss[n].client.lifecycle.attempt < |ss[n].links|
    ensures var l := ss[n].links[ss[n].client.lifecycle.attempt];
            Dead(l) || InFlight(l, Req(id, ss[n].client.pending[id])) == 1
  {
    EveryRunKeepsInv(ss, es, n);
    var s, r := ss[n], Req(id, ss[n].client.pending[id]);
    var k := s.client.lifecycle.attempt;
    assert LinkOk(s, k, s.links[k]);
    assert ReqOk(s.issued, k, s.links[k], r) && PendingOk(s.client, k, s.links[k], r);
  }
}
