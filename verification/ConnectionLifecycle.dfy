/** The client's connection: attempts with their handshake promises and transports, and callbacks that may
    come late. Listeners may disconnect from within a notification; they do not connect. */
module ConnectionLifecycle {
  import opened Results

  datatype Lifecycle =
    | Disconnected
    | Connecting(id: nat, hasTransport: bool)
    | Connected(id: nat, handshakePending: bool)

  datatype Message = Hello | HelloError | Other

  datatype Reaction = Returns | Disconnects | Throws

  /** A decoded message, and how those it reaches will react: onHandshake() to a hello, and then the
      listeners of the state change, or of the message. */
  datatype Delivery = Delivery(message: Message, onHandshake: Reaction, disconnects: bool)

  datatype Notice = NowConnecting | NowConnected | NowDisconnected

  datatype State = State(
    lifecycle: Lifecycle,
    sequence: nat,
    // history: by attempt
    fulfilled: multiset<nat>,
    rejected: multiset<nat>,
    produced: set<nat>,
    closed: set<nat>,
    reported: set<nat>,
    notices: seq<Notice>)

  const INITIAL := State(Disconnected, 0, multiset{}, multiset{}, {}, {}, {}, [])

  predicate IsCurrent(s: State, id: nat) {
    !s.lifecycle.Disconnected? && s.lifecycle.id == id
  }

  predicate HasTransport(l: Lifecycle) {
    l.Connected? || (l.Connecting? && l.hasTransport)
  }

  predicate HandshakePending(l: Lifecycle) {
    l.Connecting? || (l.Connected? && l.handshakePending)
  }

  function Notify(s: State, notice: Notice): State {
    s.(notices := s.notices + [notice])
  }

  function Fail(s: State): State {
    if s.lifecycle.Disconnected? then s
    else
      Notify(s.(lifecycle := Disconnected,
                rejected := if HandshakePending(s.lifecycle) then s.rejected + multiset{s.lifecycle.id} else s.rejected),
             NowDisconnected)
  }

  function FailAndClose(s: State): State {
    var failed := Fail(s);
    if HasTransport(s.lifecycle) then failed.(closed := failed.closed + {s.lifecycle.id}) else failed
  }

  function React(s: State, disconnects: bool): State {
    if disconnects then FailAndClose(s) else s
  }

  /** The hello arrives while the attempt has its transport. */
  function Shake(s: State, d: Delivery): State
    requires s.lifecycle.Connecting?
  {
    var id := s.lifecycle.id;
    var connected := s.(lifecycle := Connected(id, true));
    if d.onHandshake != Returns then FailAndClose(connected)
    else
      var notified := React(Notify(connected, NowConnected), d.disconnects);
      if notified.lifecycle != Connected(id, true) then notified
      else notified.(lifecycle := Connected(id, false), fulfilled := notified.fulfilled + multiset{id})
  }

  function HandleMessage(s: State, d: Delivery): State {
    match s.lifecycle
    case Disconnected => s
    case Connecting(_, hasTransport) =>
      if d.message != Hello || !hasTransport then FailAndClose(s) else Shake(s, d)
    case Connected(_, _) =>
      if d.message != Other then FailAndClose(s) else React(s, d.disconnects)
  }

  function HandleMessages(s: State, ds: seq<Delivery>): State
    decreases |ds|
  {
    if ds == [] || s.lifecycle.Disconnected? then s else HandleMessages(HandleMessage(s, ds[0]), ds[1..])
  }

  /** A chunk arrives; None when the decoder rejects it. */
  function HandleData(s: State, id: nat, decoded: Option<seq<Delivery>>): State {
    if !IsCurrent(s, id) then s
    else if s.lifecycle.Connecting? && !s.lifecycle.hasTransport then FailAndClose(s)
    else if decoded.None? then FailAndClose(s)
    else HandleMessages(s, decoded.value)
  }

  function HandleClose(s: State, id: nat): State {
    var known := s.(reported := s.reported + {id});
    if IsCurrent(s, id) then Fail(known) else known
  }

  function TransportArrives(s: State, id: nat): State {
    var known := s.(produced := s.produced + {id});
    if s.lifecycle.Connecting? && s.lifecycle.id == id then known.(lifecycle := Connecting(id, true))
    else known.(closed := known.closed + {id})
  }

  datatype Step =
    | Connect
    | Disconnect
    | FactoryResolves(id: nat)
    | FactoryRejects(id: nat)
    | Data(id: nat, decoded: Option<seq<Delivery>>)
    | TransportCloses(id: nat)
    | TransportFails(id: nat)
    | SendFails(id: nat)

  /** The factory answers once for each attempt, and a message can only fail to be sent on its own transport. */
  predicate Enabled(s: State, e: Step) {
    match e
    case Connect => s.lifecycle.Disconnected?
    case Disconnect => true
    case FactoryResolves(id) => 1 <= id <= s.sequence && id !in s.produced
    case FactoryRejects(id) => 1 <= id <= s.sequence && id !in s.produced
    case SendFails(id) => id in s.produced
    case _ => 1 <= e.id <= s.sequence
  }

  function Next(s: State, e: Step): State
    requires Enabled(s, e)
  {
    match e
    case Connect => Notify(s.(sequence := s.sequence + 1, lifecycle := Connecting(s.sequence + 1, false)), NowConnecting)
    case Disconnect => FailAndClose(s)
    case FactoryResolves(id) => TransportArrives(s, id)
    case FactoryRejects(id) => if IsCurrent(s, id) then Fail(s) else s
    case Data(id, decoded) => HandleData(s, id, decoded)
    case TransportCloses(id) => HandleClose(s, id)
    case TransportFails(id) => if IsCurrent(s, id) then FailAndClose(s) else s
    case SendFails(id) => if IsCurrent(s, id) then FailAndClose(s) else s
  }

  ghost predicate Run(ss: seq<State>, es: seq<Step>) {
    && |ss| == |es| + 1
    && ss[0] == INITIAL
    && forall k :: 0 <= k < |es| ==> Enabled(ss[k], es[k]) && ss[k + 1] == Next(ss[k], es[k])
  }

  // ---------------------------------------------------------------------------------------
  // The invariant

  /** The notices come attempt by attempt: connecting, then perhaps connected, then disconnected. */
  function Told(notices: seq<Notice>): Option<Notice> {
    if notices == [] then Some(NowDisconnected)
    else
      var before, last := Told(notices[..|notices| - 1]), notices[|notices| - 1];
      match last
      case NowConnecting => if before == Some(NowDisconnected) then Some(last) else None
      case NowConnected => if before == Some(NowConnecting) then Some(last) else None
      case NowDisconnected => if before.Some? && before != Some(NowDisconnected) then Some(last) else None
  }

  function NoticeOf(l: Lifecycle): Notice {
    match l
    case Disconnected => NowDisconnected
    case Connecting(_, _) => NowConnecting
    case Connected(_, _) => NowConnected
  }

  ghost predicate Core(s: State) {
    && (!s.lifecycle.Disconnected? ==> s.lifecycle.id == s.sequence && 1 <= s.sequence)
    && (forall id: nat :: s.fulfilled[id] + s.rejected[id] == Settlements(s, id))
    && (!s.lifecycle.Disconnected? ==> (s.sequence in s.produced <==> HasTransport(s.lifecycle)))
    && (forall id :: id in s.produced ==> 1 <= id <= s.sequence && (IsCurrent(s, id) || id in s.closed || id in s.reported))
    && Told(s.notices).Some? && (Told(s.notices) == Some(NowDisconnected) <==> s.lifecycle.Disconnected?)
  }

  function Settlements(s: State, id: nat): nat {
    if 1 <= id <= s.sequence && !(IsCurrent(s, id) && HandshakePending(s.lifecycle)) then 1 else 0
  }

  ghost predicate Inv(s: State) {
    && Core(s)
    && Told(s.notices) == Some(NoticeOf(s.lifecycle))
    && !(s.lifecycle.Connected? && s.lifecycle.handshakePending)
  }

  lemma NotifyTells(s: State, notice: Notice)
    ensures Notify(s, notice).notices[..|s.notices|] == s.notices
  {
  }

  lemma FailKeepsCore(s: State)
    requires Core(s) && (s.lifecycle.Disconnected? ==> Inv(s))
    ensures Inv(FailAndClose(s))
    ensures !s.lifecycle.Disconnected? && s.lifecycle.id in s.reported ==> Inv(Fail(s))
    ensures !s.lifecycle.Disconnected? && !HasTransport(s.lifecycle) ==> Inv(Fail(s))
  {
    NotifyTells(s, NowDisconnected);
  }

  lemma ShakeKeepsInv(s: State, d: Delivery)
    requires Inv(s) && s.lifecycle.Connecting? && s.lifecycle.hasTransport
    ensures Inv(Shake(s, d))
  {
    var id := s.lifecycle.id;
    var connected := s.(lifecycle := Connected(id, true));
    var notified := Notify(connected, NowConnected);
    HelloKeepsCore(s);
    FailKeepsCore(connected);
    FailKeepsCore(notified);
    hide Core, Inv, FailAndClose;
    FulfilKeepsInv(notified);
  }

  lemma HelloKeepsCore(s: State)
    requires Inv(s) && s.lifecycle.Connecting? && s.lifecycle.hasTransport
    ensures var connected := s.(lifecycle := Connected(s.lifecycle.id, true));
            && Core(connected) && Core(Notify(connected, NowConnected))
            && Told(Notify(connected, NowConnected).notices) == Some(NowConnected)
  {
    var connected := s.(lifecycle := Connected(s.lifecycle.id, true));
    var notified := Notify(connected, NowConnected);
    NotifyTells(connected, NowConnected);
    assert forall id: nat :: Settlements(notified, id) == Settlements(connected, id) == Settlements(s, id);
  }

  lemma FulfilKeepsInv(s: State)
    requires Core(s) && Told(s.notices) == Some(NowConnected) && s.lifecycle.Connected? && s.lifecycle.handshakePending
    ensures Inv(s.(lifecycle := Connected(s.lifecycle.id, false), fulfilled := s.fulfilled + multiset{s.lifecycle.id}))
  {
    var t := s.(lifecycle := Connected(s.lifecycle.id, false), fulfilled := s.fulfilled + multiset{s.lifecycle.id});
    forall id: nat ensures t.fulfilled[id] + t.rejected[id] == Settlements(t, id) {
      assert s.fulfilled[id] + s.rejected[id] == Settlements(s, id);
    }
  }

  lemma MessageKeepsInv(s: State, d: Delivery)
    requires Inv(s)
    ensures Inv(HandleMessage(s, d))
  {
    FailKeepsCore(s);
    if s.lifecycle.Connecting? && s.lifecycle.hasTransport {
      ShakeKeepsInv(s, d);
    }
    hide Inv, Core, FailAndClose, Shake;
  }

  lemma {:induction false} MessagesKeepInv(s: State, ds: seq<Delivery>)
    requires Inv(s)
    ensures Inv(HandleMessages(s, ds))
    decreases |ds|
  {
    if ds != [] && !s.lifecycle.Disconnected? {
      MessageKeepsInv(s, ds[0]);
      MessagesKeepInv(HandleMessage(s, ds[0]), ds[1..]);
    }
    hide Inv, HandleMessage;
  }

  lemma StepKeepsInv(s: State, e: Step)
    requires Inv(s) && Enabled(s, e)
    ensures Inv(Next(s, e))
  {
    hide Inv, FailAndClose, HandleMessages, TransportArrives, HandleClose;
    match e {
      case Connect => ConnectKeepsInv(s);
      case FactoryResolves(id) => ArrivalKeepsInv(s, id);
      case FactoryRejects(id) => RejectionKeepsInv(s, id);
      case TransportCloses(id) => CloseKeepsInv(s, id);
      case Data(_, decoded) =>
        DisconnectKeepsInv(s);
        if decoded.Some? {
          MessagesKeepInv(s, decoded.value);
        }
      case _ => DisconnectKeepsInv(s);
    }
  }

  lemma DisconnectKeepsInv(s: State)
    requires Inv(s)
    ensures Inv(FailAndClose(s))
  {
    FailKeepsCore(s);
  }

  lemma CloseKeepsInv(s: State, id: nat)
    requires Inv(s) && 1 <= id <= s.sequence
    ensures Inv(HandleClose(s, id))
  {
    var known := s.(reported := s.reported + {id});
    assert forall i: nat :: known.fulfilled[i] + known.rejected[i] == Settlements(known, i) == Settlements(s, i);
    FailKeepsCore(known);
    hide Fail;
  }

  lemma RejectionKeepsInv(s: State, id: nat)
    requires Inv(s) && Enabled(s, FactoryRejects(id))
    ensures Inv(Next(s, FactoryRejects(id)))
  {
    FailKeepsCore(s);
    hide Fail;
  }

  lemma ArrivalKeepsInv(s: State, id: nat)
    requires Inv(s) && Enabled(s, FactoryResolves(id))
    ensures Inv(TransportArrives(s, id))
  {
    var t := TransportArrives(s, id);
    assert forall i: nat :: Settlements(t, i) == Settlements(s, i);
  }

  lemma ConnectKeepsInv(s: State)
    requires Inv(s) && s.lifecycle.Disconnected?
    ensures Inv(Next(s, Connect))
  {
    var t := Next(s, Connect);
    NotifyTells(s.(sequence := s.sequence + 1, lifecycle := Connecting(s.sequence + 1, false)), NowConnecting);
    forall id: nat ensures t.fulfilled[id] + t.rejected[id] == Settlements(t, id) {
      assert s.fulfilled[id] + s.rejected[id] == Settlements(s, id);
    }
  }

  lemma {:induction false} EveryRunKeepsInv(ss: seq<State>, es: seq<Step>, n: nat)
    requires Run(ss, es) && n < |ss|
    ensures Inv(ss[n])
  {
    if n > 0 {
      EveryRunKeepsInv(ss, es, n - 1);
      StepKeepsInv(ss[n - 1], es[n - 1]);
    }
    hide Next, Enabled, Inv;
  }

  // ---------------------------------------------------------------------------------------
  // What every run promises

  /** Each attempt's handshake promise is settled at most once; exactly once unless the attempt is still
      connecting, and so always when the client is disconnected. */
  lemma HandshakeSettlesOnce(ss: seq<State>, es: seq<Step>, n: nat, id: nat)
    requires Run(ss, es) && n < |ss| && 1 <= id <= ss[n].sequence
    ensures ss[n].fulfilled[id] + ss[n].rejected[id] == if ss[n].lifecycle.Connecting? && id == ss[n].sequence then 0 else 1
  {
    EveryRunKeepsInv(ss, es, n);
    assert ss[n].fulfilled[id] + ss[n].rejected[id] == Settlements(ss[n], id);
  }

  /** Every transport ever produced is that of the current attempt, or the client closed it, or it reported
      its own close. */
  lemma NoTransportIsLeaked(ss: seq<State>, es: seq<Step>, n: nat, id: nat)
    requires Run(ss, es) && n < |ss| && id in ss[n].produced
    ensures (IsCurrent(ss[n], id) && HasTransport(ss[n].lifecycle)) || id in ss[n].closed || id in ss[n].reported
  {
    EveryRunKeepsInv(ss, es, n);
  }

  /** What a step of one attempt can be about. */
  predicate Concerns(e: Step, id: nat) {
    match e
    case Connect => false
    case Disconnect => false
    case _ => e.id == id
  }

  /** A callback of an attempt that is no longer current changes neither the state nor any promise, and
      notifies nobody; a transport that comes late is closed. */
  lemma LateCallbacksChangeNothing(s: State, e: Step, id: nat)
    requires Enabled(s, e) && Concerns(e, id) && !IsCurrent(s, id)
    ensures Next(s, e).(produced := s.produced, closed := s.closed, reported := s.reported) == s
    ensures Next(s, e).closed == if e.FactoryResolves? then s.closed + {id} else s.closed
    ensures Next(s, e).produced == if e.FactoryResolves? then s.produced + {id} else s.produced
  {
  }

  /** Listeners are told of each attempt in order, and the last notice is the state. */
  lemma NoticesFollowTheState(ss: seq<State>, es: seq<Step>, n: nat)
    requires Run(ss, es) && n < |ss|
    ensures Told(ss[n].notices) == Some(NoticeOf(ss[n].lifecycle))
  {
    EveryRunKeepsInv(ss, es, n);
  }

  predicate MayFollow(a: Notice, b: Notice) {
    match b
    case NowConnecting => a == NowDisconnected
    case NowConnected => a == NowConnecting
    case NowDisconnected => a != NowDisconnected
  }

  /** What it means that Told() accepts the notices. */
  lemma {:induction false} ToldMeans(notices: seq<Notice>)
    ensures Told(notices).Some? <==>
            && (notices != [] ==> notices[0] == NowConnecting)
            && forall i :: 0 <= i < |notices| - 1 ==> MayFollow(notices[i], notices[i + 1])
    ensures Told(notices).Some? && notices != [] ==> Told(notices) == Some(notices[|notices| - 1])
  {
    if notices != [] {
      var front := notices[..|notices| - 1];
      ToldMeans(front);
      assert notices == front + [notices[|notices| - 1]];
      if front != [] {
        assert MayFollow(notices[|front| - 1], notices[|front|]) ==> front[|front| - 1] == notices[|front| - 1];
      }
    }
  }
}
