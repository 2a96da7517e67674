/** What the steps of a run say of broadcasts and handshakes: which steps count the revision up, for whom a broadcast is,
    and when a hello, a snapshot or a catch-up is sent. Nothing here depends on how Snapshots computes a step. */
module SnapshotHistory {
  import opened Results
  import opened Stages
  import opened Snapshots

  lemma RunsOn(ss: seq<State>, es: seq<Step>, n: nat)
    requires Run(ss, es) && n < |es|
    ensures Enabled(ss[n], es[n]) && ss[n + 1] == Next(ss[n], es[n])
  {
    hide Enabled, Next;
  }

  // ---------------------------------------------------------------------------------------
  // Broadcasts

  predicate SomeReady(s: State) {
    exists i :: 0 <= i < |s.conns| && s.conns[i].stage == Ready && !s.conns[i].disconnected
  }

  /** A broadcast gets under way: its turn comes while the server is not closing and some connection is ready. */
  predicate Broadcasts(s: State, e: Step) {
    e == StartBroadcast && !s.closing && SomeReady(s)
  }

  function Count(es: seq<Step>, e: Step, n: nat): nat
    requires n <= |es|
  {
    if n == 0 then 0 else Count(es, e, n - 1) + if es[n - 1] == e then 1 else 0
  }

  function BroadcastCount(ss: seq<State>, es: seq<Step>, n: nat): nat
    requires n <= |es| < |ss|
  {
    if n == 0 then 0 else BroadcastCount(ss, es, n - 1) + if Broadcasts(ss[n - 1], es[n - 1]) then 1 else 0
  }

  lemma StartsMeans(s: State)
    ensures SomeReady(s) <==> ReadyFrom(s.conns, 0) != []
  {
    if SomeReady(s) {
      var i :| 0 <= i < |s.conns| && s.conns[i].stage == Ready && !s.conns[i].disconnected;
      assert i in ReadyFrom(s.conns, 0);
    }
    if ReadyFrom(s.conns, 0) != [] {
      assert ReadyFrom(s.conns, 0)[0] in ReadyFrom(s.conns, 0);
    }
  }

  lemma RevisionStep(s: State, e: Step)
    requires Enabled(s, e)
    ensures Next(s, e).revision == s.revision + if Broadcasts(s, e) then 1 else 0
    ensures Next(s, e).waiting == s.waiting + (if e == RequestBroadcast then 1 else 0) - (if e == StartBroadcast then 1 else 0)
  {
    StartsMeans(s);
    hide SomeReady, ReadyFrom, NextConns, NextRunning;
  }

  /** The server's revision is the number of broadcasts that got under way, and every broadcast that was requested has
      had its turn or still waits for it. */
  lemma {:induction false} RevisionCountsBroadcasts(ss: seq<State>, es: seq<Step>, n: nat)
    requires Run(ss, es) && n < |ss|
    ensures ss[n].revision == BroadcastCount(ss, es, n)
    ensures Count(es, RequestBroadcast, n) == Count(es, StartBroadcast, n) + ss[n].waiting
  {
    hide Enabled, Next, Broadcasts;
    if n > 0 {
      RevisionCountsBroadcasts(ss, es, n - 1);
      RunsOn(ss, es, n - 1);
      RevisionStep(ss[n - 1], es[n - 1]);
    }
  }

  predicate Increasing(a: seq<nat>) {
    forall i, j :: 0 <= i < j < |a| ==> a[i] < a[j]
  }

  lemma {:induction false} ReadyInOrder(conns: seq<Conn>, i: nat)
    ensures Increasing(ReadyFrom(conns, i))
    ensures forall k :: k in ReadyFrom(conns, i) <==> i <= k < |conns| && conns[k].stage == Ready && !conns[k].disconnected
    decreases |conns| - i
  {
    if i < |conns| {
      ReadyInOrder(conns, i + 1);
      var rest := ReadyFrom(conns, i + 1);
      assert forall j :: 0 <= j < |rest| ==> rest[j] in rest;
    }
  }

  /** A broadcast that gets under way is for exactly the connections that are ready then, each once and in order, and
      carries the next revision. Otherwise its turn passes and nothing changes for anybody. */
  lemma BroadcastsAreForTheReady(ss: seq<State>, es: seq<Step>, n: nat)
    requires Run(ss, es) && n < |es| && es[n] == StartBroadcast
    ensures ss[n + 1].conns == ss[n].conns
    ensures if Broadcasts(ss[n], es[n]) then
              && ss[n + 1].running.Some? && !ss[n + 1].running.value.listed
              && ss[n + 1].running.value.revision == ss[n].revision + 1
              && Increasing(ss[n + 1].running.value.targets)
              && forall i :: i in ss[n + 1].running.value.targets <==>
                   0 <= i < |ss[n].conns| && ss[n].conns[i].stage == Ready && !ss[n].conns[i].disconnected
            else ss[n + 1].running == None && ss[n + 1].revision == ss[n].revision
  {
    RunsOn(ss, es, n);
    StartsMeans(ss[n]);
    ReadyInOrder(ss[n].conns, 0);
    assert NextConns(ss[n], es[n]) == ss[n].conns;
    hide Run, SomeReady, ReadyFrom, Increasing;
  }

  /** Only one broadcast is under way at a time. When its lists are there, it sends its revision to one target after the
      other, but to none that is closed or disconnected by then, and ends when none is left. */
  lemma BroadcastGoesOn(ss: seq<State>, es: seq<Step>, n: nat)
    requires Run(ss, es) && n < |es|
    ensures es[n] == StartBroadcast ==> ss[n].running.None? && ss[n].waiting > 0
    ensures es[n] == BroadcastListed(true) ==>
              ss[n].running.Some? && ss[n + 1].running == Some(ss[n].running.value.(listed := true)) && ss[n + 1].conns == ss[n].conns
    ensures es[n] == BroadcastListed(false) ==> ss[n + 1].running == None && ss[n + 1].conns == ss[n].conns
    ensures es[n] == SendNext ==>
              && ss[n].running.Some? && ss[n].running.value.listed && ss[n].running.value.targets != []
              && ss[n + 1].running == Some(ss[n].running.value.(targets := ss[n].running.value.targets[1..]))
              && |ss[n + 1].conns| == |ss[n].conns|
              && forall i :: 0 <= i < |ss[n].conns| ==>
                   var c, d := ss[n].conns[i], ss[n + 1].conns[i];
                   if i == ss[n].running.value.targets[0] && !c.disconnected && !c.closed
                   then d == c.(sent := c.sent + [ServerSnapshot(ss[n].running.value.revision)]) else d == c
    ensures es[n] == EndBroadcast ==> ss[n].running.Some? && ss[n].running.value.targets == [] && ss[n + 1].running == None
    ensures ss[n].running.Some? && !es[n].BroadcastListed? && !es[n].SendNext? && !es[n].EndBroadcast? ==>
              ss[n + 1].running == ss[n].running
  {
    RunsOn(ss, es, n);
    if es[n].BroadcastListed? {
      assert NextConns(ss[n], es[n]) == ss[n].conns;
    }
    hide Run, ReadyFrom;
  }

  // ---------------------------------------------------------------------------------------
  // The handshake

  /** The revision of the hello is the one at the time of the client's hello. It is sent when the lists are there, unless
      the server closes or the connection is gone by then. When it was sent the connection is ready; and if the revision
      has moved meanwhile, the new one is sent after it. */
  lemma HandshakeGoesOn(ss: seq<State>, es: seq<Step>, n: nat, i: nat)
    requires Run(ss, es) && n < |es| && i < |ss[n].conns|
    ensures i < |ss[n + 1].conns|
    ensures var s, c, d := ss[n], ss[n].conns[i], ss[n + 1].conns[i];
            && (es[n] == ReceiveHello(i) ==>
                  c.stage == AwaitingHello && d == c.(stage := Handshaking, handshake := Listing(s.revision)))
            && (es[n] == HandshakeListed(i, true) && c.handshake.Listing? ==>
                  if s.closing || c.disconnected || c.stage != Handshaking || c.closed then d == c.(handshake := Finished)
                  else d == c.(sent := c.sent + [Hello(c.handshake.revision)], handshake := SendingHello(c.handshake.revision)))
            && (es[n] == HelloSent(i, true) && c.handshake.SendingHello? ==>
                  if c.disconnected || c.stage != Handshaking then d == c.(handshake := Finished)
                  else d == c.(stage := Ready,
                               handshake := if c.handshake.revision != s.revision then CatchingUp(s.revision) else Finished))
            && (es[n] == CatchUpListed(i, true) && c.handshake.CatchingUp? ==>
                  d == c.(handshake := Finished,
                          sent := c.sent + if c.disconnected || c.closed then [] else [ServerSnapshot(c.handshake.revision)]))
  {
    RunsOn(ss, es, n);
    assert ss[n + 1].conns[i] == NextConn(ss[n], es[n], i, ss[n].conns[i]);
    hide Run, ReadyFrom, NextRunning;
  }

  /** A connection stops being ready only when its protocol fails or it disconnects. */
  lemma ReadyUntilItFails(ss: seq<State>, es: seq<Step>, n: nat, i: nat)
    requires Run(ss, es) && n < |es| && i < |ss[n].conns|
    requires ss[n].conns[i].stage == Ready && !ss[n].conns[i].disconnected
    ensures i < |ss[n + 1].conns|
    ensures ss[n + 1].conns[i].stage != Ready || ss[n + 1].conns[i].disconnected ==>
              es[n] == FailProtocol(i) || es[n] == Disconnect(i) || es[n] == HandshakeListed(i, false) || es[n] == CatchUpListed(i, false)
  {
    RunsOn(ss, es, n);
    assert ss[n + 1].conns[i] == NextConn(ss[n], es[n], i, ss[n].conns[i]);
    hide Run, ReadyFrom, NextRunning;
  }

  // ---------------------------------------------------------------------------------------
  // Departures

  /** A connection closes when its protocol fails or its lists cannot be had, unless it was given up before; a hello that
      cannot be sent closes the transport; and one that disconnects is closed. Its messages stay sent. */
  lemma DepartureLeadsTo(ss: seq<State>, es: seq<Step>, n: nat, i: nat)
    requires Run(ss, es) && n < |es| && i < |ss[n].conns|
    ensures i < |ss[n + 1].conns|
    ensures var c, d := ss[n].conns[i], ss[n + 1].conns[i];
            var stage := if c.disconnected || c.stage == Closing || c.stage == Closed then c.stage else Closing;
            && (es[n] == FailProtocol(i) ==> d == c.(stage := stage))
            && (es[n] == HandshakeListed(i, false) || es[n] == CatchUpListed(i, false) ==>
                  d == c.(stage := stage, handshake := Finished))
            && (es[n] == HelloSent(i, false) ==> d == c.(closed := true, handshake := Finished))
            && (es[n] == TransportCloses(i) ==> d == c.(closed := true))
            && (es[n] == Disconnect(i) ==> d == c.(disconnected := true, stage := Closed))
  {
    RunsOn(ss, es, n);
    assert ss[n + 1].conns[i] == NextConn(ss[n], es[n], i, ss[n].conns[i]);
    hide Run, ReadyFrom, NextRunning;
  }

  /** Connections are accepted only while the server is not closing, and begin with nothing sent. Closing, a request for a
      broadcast and the end of one are about no connection at all. */
  lemma AcceptLeadsTo(ss: seq<State>, es: seq<Step>, n: nat)
    requires Run(ss, es) && n < |es|
    ensures es[n] == Accept ==>
              && !ss[n].closing
              && |ss[n + 1].conns| == |ss[n].conns| + 1 && ss[n + 1].conns[..|ss[n].conns|] == ss[n].conns
              && ss[n + 1].conns[|ss[n].conns|].stage == AwaitingHello && ss[n + 1].conns[|ss[n].conns|].sent == []
              && !ss[n + 1].conns[|ss[n].conns|].disconnected && !ss[n + 1].conns[|ss[n].conns|].closed
    ensures es[n] == BeginClosing || es[n] == RequestBroadcast || es[n] == EndBroadcast ==> ss[n + 1].conns == ss[n].conns
    ensures ss[n + 1].closing <==> ss[n].closing || es[n] == BeginClosing
  {
    RunsOn(ss, es, n);
    if !es[n].Accept? {
      assert |ss[n + 1].conns| == |ss[n].conns|;
    }
    hide Run, ReadyFrom, NextRunning;
  }
}
