/** Revision-stamped server snapshots: the publisher's serialized broadcasts, the handshake's catch-up
    snapshot, one FIFO channel for each connection, and the client that keeps the newest revision.

    Each step is one stretch of code between two awaits. Broadcasts may be requested at any time. */
module Snapshots {
  import opened Results
  import opened Stages

  datatype Message = Hello(revision: nat) | ServerSnapshot(revision: nat)

  /** Where finishHandshake() stands. */
  datatype Handshake =
    | NotStarted
    | Listing(revision: nat)
    | SendingHello(revision: nat)
    | CatchingUp(revision: nat)
    | Finished

  datatype Conn = Conn(
    stage: Stage,
    disconnected: bool,
    closed: bool,
    handshake: Handshake,
    // the channel, and the client at its other end
    sent: seq<Message>,
    delivered: nat,
    stored: Option<nat>)

  datatype Broadcast = Broadcast(revision: nat, listed: bool, targets: seq<nat>)

  datatype State = State(
    conns: seq<Conn>,
    revision: nat,
    waiting: nat,
    running: Option<Broadcast>,
    closing: bool,
    // whom the last broadcast was for, when its list call has failed
    missed: set<nat>)

  const INITIAL := State([], 0, 0, None, false, {})

  datatype Step =
    | Accept
    | ReceiveHello(conn: nat)
    | FailProtocol(conn: nat)
    | TransportCloses(conn: nat)
    | Disconnect(conn: nat)
    | HandshakeListed(conn: nat, ok: bool)
    | HelloSent(conn: nat, ok: bool)
    | CatchUpListed(conn: nat, ok: bool)
    | RequestBroadcast
    | StartBroadcast
    | BroadcastListed(ok: bool)
    | SendNext
    | EndBroadcast
    | Deliver(conn: nat)
    | BeginClosing

  predicate Enabled(s: State, e: Step) {
    match e
    case Accept => !s.closing
    case ReceiveHello(c) => c < |s.conns| && s.conns[c].stage == AwaitingHello && !s.conns[c].disconnected
    case FailProtocol(c) => c < |s.conns|
    case TransportCloses(c) => c < |s.conns|
    case Disconnect(c) => c < |s.conns|
    case HandshakeListed(c, _) => c < |s.conns| && s.conns[c].handshake.Listing?
    case HelloSent(c, _) => c < |s.conns| && s.conns[c].handshake.SendingHello?
    case CatchUpListed(c, _) => c < |s.conns| && s.conns[c].handshake.CatchingUp?
    case StartBroadcast => s.waiting > 0 && s.running.None?
    case BroadcastListed(_) => s.running.Some? && !s.running.value.listed
    case SendNext => s.running.Some? && s.running.value.listed && s.running.value.targets != []
    case EndBroadcast => s.running.Some? && s.running.value.listed && s.running.value.targets == []
    case Deliver(c) => c < |s.conns| && s.conns[c].delivered < |s.conns[c].sent|
    case _ => true
  }

  // ---------------------------------------------------------------------------------------
  // One connection

  function Fail(c: Conn): Conn {
    if c.disconnected || c.stage == Closing || c.stage == Closed then c else c.(stage := Closing)
  }

  /** sendMessage(), up to its await. */
  function Send(c: Conn, message: Message): Conn {
    if c.disconnected || c.closed then c else c.(sent := c.sent + [message])
  }

  /** ClientState.applyServerSnapshot(). */
  function Newer(stored: Option<nat>, revision: nat): Option<nat> {
    if stored.Some? && revision < stored.value then stored else Some(revision)
  }

  predicate IsReady(c: Conn) {
    c.stage == Ready && !c.disconnected
  }

  const FRESH := Conn(AwaitingHello, false, false, NotStarted, [], 0, None)

  /** What a step makes of connection i. */
  function NextConn(s: State, e: Step, i: nat, c: Conn): Conn
    requires Enabled(s, e)
  {
    match e
    case ReceiveHello(j) => if i == j then c.(stage := Handshaking, handshake := Listing(s.revision)) else c
    case FailProtocol(j) => if i == j then Fail(c) else c
    case TransportCloses(j) => if i == j then c.(closed := true) else c
    case Disconnect(j) => if i == j then c.(disconnected := true, stage := Closed) else c
    case HandshakeListed(j, ok) =>
      if i != j || c.handshake.NotStarted? || c.handshake.Finished? then c
      else if !ok then Fail(c).(handshake := Finished)
      else if s.closing || c.disconnected || c.stage != Handshaking || c.closed then c.(handshake := Finished)
      else Send(c, Hello(c.handshake.revision)).(handshake := SendingHello(c.handshake.revision))
    case HelloSent(j, ok) =>
      if i != j || c.handshake.NotStarted? || c.handshake.Finished? then c
      else if !ok then c.(closed := true, handshake := Finished)
      else if c.disconnected || c.stage != Handshaking then c.(handshake := Finished)
      else c.(stage := Ready, handshake := if c.handshake.revision != s.revision then CatchingUp(s.revision) else Finished)
    case CatchUpListed(j, ok) =>
      if i != j || c.handshake.NotStarted? || c.handshake.Finished? then c
      else if !ok then Fail(c).(handshake := Finished)
      else Send(c, ServerSnapshot(c.handshake.revision)).(handshake := Finished)
    case SendNext =>
      if i == s.running.value.targets[0] then Send(c, ServerSnapshot(s.running.value.revision)) else c
    case Deliver(j) =>
      if i == j && c.delivered < |c.sent|
      then c.(delivered := c.delivered + 1, stored := Newer(c.stored, c.sent[c.delivered].revision))
      else c
    case _ => c
  }

  // ---------------------------------------------------------------------------------------
  // The publisher

  function ReadyFrom(conns: seq<Conn>, i: nat): (r: seq<nat>)
    ensures forall k :: k in r <==> i <= k < |conns| && IsReady(conns[k])
    decreases |conns| - i
  {
    if i >= |conns| then [] else (if IsReady(conns[i]) then [i] else []) + ReadyFrom(conns, i + 1)
  }

  predicate Starts(s: State, e: Step) {
    e.StartBroadcast? && !s.closing && ReadyFrom(s.conns, 0) != []
  }

  function NextRunning(s: State, e: Step): Option<Broadcast>
    requires Enabled(s, e)
  {
    match e
    case StartBroadcast =>
      if Starts(s, e) then Some(Broadcast(s.revision + 1, false, ReadyFrom(s.conns, 0))) else None
    case BroadcastListed(ok) => if ok then Some(s.running.value.(listed := true)) else None
    case SendNext => Some(s.running.value.(targets := s.running.value.targets[1..]))
    case EndBroadcast => None
    case _ => s.running
  }

  function NextConns(s: State, e: Step): seq<Conn>
    requires Enabled(s, e)
  {
    seq(|s.conns|, i requires 0 <= i < |s.conns| => NextConn(s, e, i, s.conns[i])) + (if e.Accept? then [FRESH] else [])
  }

  function Next(s: State, e: Step): State
    requires Enabled(s, e)
  {
    State(NextConns(s, e),
          if Starts(s, e) then s.revision + 1 else s.revision,
          if e.RequestBroadcast? then s.waiting + 1 else if e.StartBroadcast? then s.waiting - 1 else s.waiting,
          NextRunning(s, e),
          s.closing || e.BeginClosing?,
          NextMissed(s, e))
  }

  function NextMissed(s: State, e: Step): set<nat>
    requires Enabled(s, e)
  {
    if Starts(s, e) then {}
    else if e.BroadcastListed? && !e.ok then set i | i in s.running.value.targets
    else s.missed
  }

  ghost predicate Run(ss: seq<State>, es: seq<Step>) {
    && |ss| == |es| + 1
    && ss[0] == INITIAL
    && forall k :: 0 <= k < |es| ==> Enabled(ss[k], es[k]) && ss[k + 1] == Next(ss[k], es[k])
  }

  // ---------------------------------------------------------------------------------------
  // The invariant

  /** The newest revision in a list of messages. */
  function Newest(messages: seq<Message>): (r: Option<nat>)
    ensures r.None? <==> messages == []
    ensures r.Some? ==> (exists k :: 0 <= k < |messages| && messages[k].revision == r.value)
    ensures r.Some? ==> forall k :: 0 <= k < |messages| ==> messages[k].revision <= r.value
  {
    if messages == [] then None
    else
      var before := Newest(messages[..|messages| - 1]);
      var last := messages[|messages| - 1];
      if before.Some? && last.revision < before.value then before
      else Some(last.revision)
  }

  /** The newest of the sent revisions and those still to be sent. */
  predicate Covered(s: State, i: nat, c: Conn) {
    || (exists k :: 0 <= k < |c.sent| && c.sent[k].revision == s.revision)
    || (s.running.Some? && i in s.running.value.targets)
    || c.handshake == CatchingUp(s.revision)
  }

  predicate Bounded(c: Conn, revision: nat) {
    && (forall k :: 0 <= k < |c.sent| ==> c.sent[k].revision <= revision)
    && (!c.handshake.NotStarted? && !c.handshake.Finished? ==> c.handshake.revision <= revision)
  }

  /** A hello comes first, and only first. */
  predicate HelloFirst(c: Conn) {
    && (forall k :: 0 <= k < |c.sent| ==> (c.sent[k].Hello? <==> k == 0))
    && (c.handshake.SendingHello? ==> c.sent == [Hello(c.handshake.revision)])
    && (c.handshake.NotStarted? || c.handshake.Listing? ==> c.sent == [])
    && (c.handshake.CatchingUp? ==> c.sent != [])
    && (c.stage == AwaitingHello ==> c.handshake.NotStarted?)
    && (c.stage == Ready ==> c.sent != [] && (c.handshake.CatchingUp? || c.handshake.Finished?))
  }

  predicate ClientOk(c: Conn) {
    c.delivered <= |c.sent| && c.stored == Newest(c.sent[..c.delivered])
  }

  predicate ConnOk(s: State, i: nat, c: Conn) {
    && Bounded(c, s.revision)
    && HelloFirst(c)
    && ClientOk(c)
    && (IsReady(c) && !c.closed && i !in s.missed ==> Covered(s, i, c))
    && (i in s.missed ==> Behind(c, s.revision))
  }

  /** Nothing of the revision was sent, and nothing of it will be. */
  predicate Behind(c: Conn, revision: nat) {
    && (forall k :: 0 <= k < |c.sent| ==> c.sent[k].revision < revision)
    && (c.handshake.CatchingUp? || c.handshake.Finished?)
    && (c.handshake.CatchingUp? ==> c.handshake.revision < revision)
  }

  /** Broadcasts are serialized: the one under way carries the current revision, to connections that were ready. */
  ghost predicate RunningOk(s: State) {
    s.running.Some? ==>
      && s.running.value.revision == s.revision && s.missed == {}
      && forall i :: i in s.running.value.targets ==> i < |s.conns| && TargetOk(s.conns[i], s.running.value)
  }

  predicate TargetOk(c: Conn, broadcast: Broadcast) {
    && c.sent != [] && (c.handshake.CatchingUp? || c.handshake.Finished?)
    && (!broadcast.listed ==> Behind(c, broadcast.revision))
  }

  ghost predicate Inv(s: State) {
    && RunningOk(s)
    && (forall i :: i in s.missed ==> i < |s.conns|)
    && (forall i :: 0 <= i < |s.conns| ==> ConnOk(s, i, s.conns[i]))
  }

  // ---------------------------------------------------------------------------------------
  // Every step keeps it

  lemma BoundedStays(s: State, e: Step, i: nat)
    requires Enabled(s, e) && i < |s.conns| && Bounded(s.conns[i], s.revision) && RunningOk(s)
    ensures Bounded(NextConn(s, e, i, s.conns[i]), Next(s, e).revision)
  {
  }

  lemma HelloFirstStays(s: State, e: Step, i: nat)
    requires Enabled(s, e) && i < |s.conns| && HelloFirst(s.conns[i]) && RunningOk(s)
    ensures HelloFirst(NextConn(s, e, i, s.conns[i]))
  {
  }

  lemma NewestGrows(messages: seq<Message>, message: Message)
    ensures Newest(messages + [message]) == Newer(Newest(messages), message.revision)
  {
    assert (messages + [message])[..|messages|] == messages;
  }

  lemma DeliveredMore(c: Conn, d: Conn)
    requires ClientOk(c) && |c.sent| <= |d.sent| && d.sent[..|c.sent|] == c.sent
    requires d.delivered == c.delivered + 1 <= |c.sent| && d.stored == Newer(c.stored, c.sent[c.delivered].revision)
    ensures ClientOk(d)
  {
    assert d.sent[..d.delivered] == c.sent[..c.delivered] + [c.sent[c.delivered]];
    NewestGrows(c.sent[..c.delivered], c.sent[c.delivered]);
  }

  lemma ClientStays(s: State, e: Step, i: nat)
    requires Enabled(s, e) && i < |s.conns| && ClientOk(s.conns[i])
    ensures ClientOk(NextConn(s, e, i, s.conns[i]))
  {
    var c, d := s.conns[i], NextConn(s, e, i, s.conns[i]);
    assert |c.sent| <= |d.sent| && d.sent[..|c.sent|] == c.sent;
    assert (d.delivered == c.delivered && d.stored == c.stored)
           || (d.delivered == c.delivered + 1 <= |c.sent| && d.stored == Newer(c.stored, c.sent[c.delivered].revision));
    hide Enabled, NextConn;
    if d.delivered > c.delivered {
      DeliveredMore(c, d);
    } else {
      assert d.sent[..c.delivered] == c.sent[..c.delivered];
    }
  }

  /** Nothing that covers a connection is given up before something else covers it. */
  lemma CoverageStays(s: State, e: Step, i: nat)
    requires Enabled(s, e) && i < |s.conns| && ConnOk(s, i, s.conns[i]) && RunningOk(s)
    requires var d := NextConn(s, e, i, s.conns[i]); IsReady(d) && !d.closed && i !in Next(s, e).missed
    ensures Covered(Next(s, e), i, NextConn(s, e, i, s.conns[i]))
  {
    var c, d, t := s.conns[i], NextConn(s, e, i, s.conns[i]), Next(s, e);
    if !IsReady(c) {
      assert e == HelloSent(i, true) && d.sent == [Hello(c.handshake.revision)];
      assert d.sent[0].revision == t.revision || d.handshake == CatchingUp(t.revision);
    } else if Starts(s, e) {
      assert i in t.running.value.targets;
    } else if k :| 0 <= k < |c.sent| && c.sent[k].revision == s.revision {
      assert d.sent[k] == c.sent[k];
    } else if s.running.Some? && i in s.running.value.targets {
      var targets := s.running.value.targets;
      assert targets == [targets[0]] + targets[1..];
      assert e.SendNext? && i == targets[0] ==> d.sent[|c.sent|].revision == t.revision;
    } else {
      assert e == CatchUpListed(i, true) ==> d.sent[|c.sent|].revision == t.revision;
    }
  }

  /** Whom a failed broadcast has missed stays behind until the next broadcast starts. */
  lemma MissedStays(s: State, e: Step, i: nat)
    requires Enabled(s, e) && Inv(s) && i < |s.conns| && i in Next(s, e).missed
    ensures Behind(NextConn(s, e, i, s.conns[i]), Next(s, e).revision)
  {
    assert ConnOk(s, i, s.conns[i]);
  }

  lemma TargetStays(s: State, e: Step, i: nat)
    requires Enabled(s, e) && Inv(s) && Next(s, e).running.Some? && i in Next(s, e).running.value.targets
    ensures i < |s.conns| && TargetOk(NextConn(s, e, i, s.conns[i]), Next(s, e).running.value)
  {
    if e.SendNext? {
      var targets := s.running.value.targets;
      assert targets == [targets[0]] + targets[1..];
    }
    assert ConnOk(s, i, s.conns[i]);
  }

  lemma RunningStays(s: State, e: Step)
    requires Enabled(s, e) && Inv(s)
    ensures RunningOk(Next(s, e))
  {
    var t := Next(s, e);
    if t.running.Some? {
      forall i | i in t.running.value.targets
        ensures i < |t.conns| && TargetOk(t.conns[i], t.running.value)
      {
        TargetStays(s, e, i);
        assert t.conns[i] == NextConn(s, e, i, s.conns[i]);
      }
    }
  }

  lemma StepKeepsInv(s: State, e: Step)
    requires Enabled(s, e) && Inv(s)
    ensures Inv(Next(s, e))
  {
    RunningStays(s, e);
    var t := Next(s, e);
    assert forall i :: i in t.missed ==> i < |s.conns|;
    forall i | 0 <= i < |t.conns| ensures ConnOk(t, i, t.conns[i]) {
      if i < |s.conns| {
        assert ConnOk(s, i, s.conns[i]);
        BoundedStays(s, e, i);
        HelloFirstStays(s, e, i);
        ClientStays(s, e, i);
        if IsReady(t.conns[i]) && !t.conns[i].closed && i !in t.missed {
          CoverageStays(s, e, i);
        }
        if i in t.missed {
          MissedStays(s, e, i);
        }
      }
      hide Enabled, NextConn;
    }
  }

  lemma {:induction false} EveryRunKeepsInv(ss: seq<State>, es: seq<Step>, n: nat)
    requires Run(ss, es) && n < |ss|
    ensures Inv(ss[n])
  {
    if n > 0 {
      EveryRunKeepsInv(ss, es, n - 1);
      StepKeepsInv(ss[n - 1], es[n - 1]);
    }
    hide Next, Enabled;
  }

  // ---------------------------------------------------------------------------------------
  // What it means for the clients

  /** A ready and open connection was sent the server's revision, or is about to be, if and only if it was not
      missed: the last broadcast was not for it, or its list call has not failed. No revision beyond the
      server's is ever sent. */
  lemma ReadyConnectionsAreCoveredIff(ss: seq<State>, es: seq<Step>, n: nat, i: nat)
    requires Run(ss, es) && n < |ss| && i < |ss[n].conns|
    ensures forall k :: 0 <= k < |ss[n].conns[i].sent| ==> ss[n].conns[i].sent[k].revision <= ss[n].revision
    ensures IsReady(ss[n].conns[i]) && !ss[n].conns[i].closed ==>
              (Covered(ss[n], i, ss[n].conns[i]) <==> i !in ss[n].missed)
  {
    EveryRunKeepsInv(ss, es, n);
    assert ConnOk(ss[n], i, ss[n].conns[i]);
  }

  /** Once nothing is on its way to it, the client of a ready and open connection stores exactly the server's
      revision, if and only if it was not missed. */
  lemma ClientsConvergeIff(ss: seq<State>, es: seq<Step>, n: nat, i: nat)
    requires Run(ss, es) && n < |ss| && i < |ss[n].conns|
    requires IsReady(ss[n].conns[i]) && !ss[n].conns[i].closed
    requires (ss[n].running.Some? ==> i !in ss[n].running.value.targets) && !ss[n].conns[i].handshake.CatchingUp?
    requires ss[n].conns[i].delivered == |ss[n].conns[i].sent|
    ensures ss[n].conns[i].stored == Some(ss[n].revision) <==> i !in ss[n].missed
  {
    ReadyConnectionsAreCoveredIff(ss, es, n, i);
    EveryRunKeepsInv(ss, es, n);
    var c := ss[n].conns[i];
    assert ConnOk(ss[n], i, c);
    assert c.sent[..c.delivered] == c.sent;
  }

  /** What it is to be missed: among the targets of a broadcast whose list call failed, with no broadcast
      started since. */
  lemma {:induction false} WhoIsMissed(ss: seq<State>, es: seq<Step>, n: nat, i: nat)
    requires Run(ss, es) && n < |ss|
    ensures i in ss[n].missed <==>
            exists k :: 0 <= k < n && es[k] == BroadcastListed(false) && i in ss[k].running.value.targets
                        && forall l :: k < l < n ==> !Starts(ss[l], es[l]) && es[l] != BroadcastListed(false)
  {
    if n > 0 {
      WhoIsMissed(ss, es, n - 1, i);
      var s, e := ss[n - 1], es[n - 1];
      assert ss[n].missed == NextMissed(s, e);
      hide Next, Enabled;
      if e == BroadcastListed(false) && i in s.running.value.targets {
        assert es[n - 1] == BroadcastListed(false);
      }
    }
  }

  /** The first message on a connection is the hello, and it is the only one. */
  lemma HelloComesFirst(ss: seq<State>, es: seq<Step>, n: nat, i: nat, k: nat)
    requires Run(ss, es) && n < |ss| && i < |ss[n].conns| && k < |ss[n].conns[i].sent|
    ensures ss[n].conns[i].sent[k].Hello? <==> k == 0
  {
    EveryRunKeepsInv(ss, es, n);
    assert ConnOk(ss[n], i, ss[n].conns[i]);
  }

  lemma StoredStays(s: State, e: Step, i: nat)
    requires Enabled(s, e) && i < |s.conns|
    ensures i < |Next(s, e).conns| && NotOlder(s.conns[i].stored, Next(s, e).conns[i].stored)
  {
  }

  predicate NotOlder(a: Option<nat>, b: Option<nat>) {
    a.Some? ==> b.Some? && a.value <= b.value
  }

  /** What a client stores is the newest revision delivered to it, and never gets older. */
  lemma {:induction false} StoredNeverGetsOlder(ss: seq<State>, es: seq<Step>, m: nat, n: nat, i: nat)
    requires Run(ss, es) && m <= n < |ss| && i < |ss[m].conns|
    ensures i < |ss[n].conns| && NotOlder(ss[m].conns[i].stored, ss[n].conns[i].stored)
    ensures ss[n].conns[i].delivered <= |ss[n].conns[i].sent|
    ensures ss[n].conns[i].stored == Newest(ss[n].conns[i].sent[..ss[n].conns[i].delivered])
    decreases n - m
  {
    if m < n {
      StoredNeverGetsOlder(ss, es, m, n - 1, i);
      StoredStays(ss[n - 1], es[n - 1], i);
    }
    EveryRunKeepsInv(ss, es, n);
    hide Next, Enabled, Newest;
    assert ConnOk(ss[n], i, ss[n].conns[i]);
  }

  /** Without that condition it fails: a broadcast whose list call fails has already taken its revision,
      and leaves the client behind with nothing more on the way. */
  lemma AFailedListLeavesTheClientBehind() returns (ss: seq<State>, es: seq<Step>)
    ensures Run(ss, es) && |es| == 8
    ensures var s := ss[8];
            && |s.conns| == 1 && IsReady(s.conns[0]) && !s.conns[0].closed
            && s.running.None? && s.waiting == 0 && s.conns[0].handshake.Finished?
            && s.conns[0].delivered == |s.conns[0].sent|
            && s.conns[0].stored == Some(0) && s.revision == 1
  {
    hide *;
    TheClientIsGreeted();
    TheClientIsReady();
    TheBroadcastFails();
    es := [Accept, ReceiveHello(0), HandshakeListed(0, true), HelloSent(0, true), Deliver(0), RequestBroadcast,
           StartBroadcast, BroadcastListed(false)];
    ss := [INITIAL, ACCEPTED, LISTING, GREETED, READY, UP_TO_DATE, WANTED, BROADCASTING, BEHIND];
    assert forall k :: 0 <= k < |es| ==> Takes(ss[k], es[k], ss[k + 1]);
    TakesMakeARun(ss, es);
  }

  predicate Takes(s: State, e: Step, t: State) {
    Enabled(s, e) && t == Next(s, e)
  }

  lemma TakesMakeARun(ss: seq<State>, es: seq<Step>)
    requires |ss| == |es| + 1 && ss[0] == INITIAL && forall k :: 0 <= k < |es| ==> Takes(ss[k], es[k], ss[k + 1])
    ensures Run(ss, es)
  {
    forall k | 0 <= k < |es| ensures Enabled(ss[k], es[k]) && ss[k + 1] == Next(ss[k], es[k]) {
      assert Takes(ss[k], es[k], ss[k + 1]);
    }
    hide Next, Enabled;
  }

  const ACCEPTED := INITIAL.(conns := [FRESH])
  const LISTING_CONN := FRESH.(stage := Handshaking, handshake := Listing(0))
  const LISTING := INITIAL.(conns := [LISTING_CONN])
  const GREETED_CONN := LISTING_CONN.(sent := [Hello(0)], handshake := SendingHello(0))
  const GREETED := INITIAL.(conns := [GREETED_CONN])
  const READY_CONN := GREETED_CONN.(stage := Ready, handshake := Finished)
  const READY := INITIAL.(conns := [READY_CONN])
  const UP_TO_DATE_CONN := READY_CONN.(delivered := 1, stored := Some(0))
  const UP_TO_DATE := INITIAL.(conns := [UP_TO_DATE_CONN])
  const WANTED := UP_TO_DATE.(waiting := 1)
  const BROADCASTING := UP_TO_DATE.(revision := 1, running := Some(Broadcast(1, false, [0])))
  const BEHIND := UP_TO_DATE.(revision := 1, missed := {0})

  lemma TheClientIsGreeted()
    ensures Takes(INITIAL, Accept, ACCEPTED)
    ensures Takes(ACCEPTED, ReceiveHello(0), LISTING)
    ensures Takes(LISTING, HandshakeListed(0, true), GREETED)
  {
    assert NextConns(ACCEPTED, ReceiveHello(0)) == LISTING.conns;
    assert LISTING_CONN.sent + [Hello(0)] == GREETED_CONN.sent;
    assert NextConn(LISTING, HandshakeListed(0, true), 0, LISTING_CONN) == GREETED_CONN;
    assert NextConns(LISTING, HandshakeListed(0, true)) == GREETED.conns;
  }

  lemma TheClientIsReady()
    ensures Takes(GREETED, HelloSent(0, true), READY)
    ensures Takes(READY, Deliver(0), UP_TO_DATE)
  {
    assert NextConns(GREETED, HelloSent(0, true)) == READY.conns;
    assert NextConns(READY, Deliver(0)) == UP_TO_DATE.conns;
  }

  lemma TheBroadcastFails()
    ensures Takes(UP_TO_DATE, RequestBroadcast, WANTED)
    ensures Takes(WANTED, StartBroadcast, BROADCASTING)
    ensures Takes(BROADCASTING, BroadcastListed(false), BEHIND)
    ensures |BEHIND.conns| == 1 && IsReady(BEHIND.conns[0]) && !BEHIND.conns[0].closed
    ensures BEHIND.running.None? && BEHIND.waiting == 0 && BEHIND.conns[0].handshake.Finished?
    ensures BEHIND.conns[0].delivered == |BEHIND.conns[0].sent| && BEHIND.conns[0].stored == Some(0) && BEHIND.revision == 1
  {
    assert ReadyFrom(WANTED.conns, 1) == [];
    assert ReadyFrom(WANTED.conns, 0) == [0];
    assert NextConns(UP_TO_DATE, RequestBroadcast) == UP_TO_DATE.conns;
    assert NextConns(WANTED, StartBroadcast) == UP_TO_DATE.conns;
    assert NextConns(BROADCASTING, BroadcastListed(false)) == UP_TO_DATE.conns;
  }
}
