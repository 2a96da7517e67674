/** The imperative code of the session manager, one method per stretch between two awaits, each proved to
    be the step of LiveSessions that bears its name. */
module LiveSessionManager {
  import opened Results
  import opened LiveSessions

  lemma Collected(s: State, awaited: set<nat>, t: State)
    requires Enabled(s, CollectClose(awaited))
    requires t == s.(slots := SweepEach(s.slots, s.live.Values), live := map[],
                     closers := s.closers - multiset{awaited}, collected := true)
    ensures t == Next(s, CollectClose(awaited))
  {
    hide SweepEach;
  }

  lemma Finished(s: State, i: nat, t: State)
    requires Enabled(s, EndOperation(i))
    requires t == s.(slots := DisposeOne(s.closing, s.slots[i := s.slots[i].(operationCount := s.slots[i].operationCount - 1)], i),
                     operations := s.operations - multiset{i})
    ensures t == Next(s, EndOperation(i))
  {
    hide DisposeOne;
  }

  /** The session stays in use when the connection leaves it. */
  predicate Stays(slot: Slot, c: Connection) {
    slot.connections - {c} != {} && !slot.terminal && !slot.disposing
  }

  lemma Left(s: State, c: Connection, id: Id, t: State)
    requires Enabled(s, Detach(c, id))
    requires var p := s.peers[c].(sessionIds := s.peers[c].sessionIds - {id});
             if id !in s.live then t == s.(peers := s.peers[c := p])
             else var i := s.live[id];
                  var slots := s.slots[i := s.slots[i].(connections := s.slots[i].connections - {c})];
                  if Stays(s.slots[i], c) then t == s.(peers := s.peers[c := p], slots := slots, detachers := s.detachers + multiset{i})
                  else t == s.(peers := s.peers[c := p], slots := DisposeOne(s.closing, slots, i))
    ensures t == Next(s, Detach(c, id))
  {
    hide DisposeOne;
  }

  lemma Terminated(s: State, i: nat, t: State)
    requires Enabled(s, RuntimeError(i)) && !s.slots[i].terminal
    requires t == s.(slots := s.slots[i := s.slots[i].(terminal := true, subscribed := false, eventDue := false)],
                     terminators := s.terminators + multiset{i})
    ensures t == Next(s, RuntimeError(i))
  {
  }

  lemma Refused(s: State, a: Acquirer, t: State)
    requires Enabled(s, Step.Attach(a)) && !MayAttach(s.peers[a.connection])
    requires t == s.(slots := DisposeOne(s.closing, s.slots, a.wait.slot), acquirers := Resume(s.acquirers, a, None))
    ensures t == Next(s, Step.Attach(a))
  {
    hide DisposeOne, Resume;
  }

  lemma Joined(s: State, a: Acquirer, t: State)
    requires Enabled(s, Step.Attach(a)) && MayAttach(s.peers[a.connection])
    requires var i, p := a.wait.slot, s.peers[a.connection];
             t == s.(peers := s.peers[a.connection := p.(sessionIds := p.sessionIds + {s.slots[i].id})],
                     slots := s.slots[i := s.slots[i].(connections := s.slots[i].connections + {a.connection})],
                     acquirers := Resume(s.acquirers, a, None))
    ensures t == Next(s, Step.Attach(a))
  {
    hide Resume;
  }

  lemma Looked(s: State, a: Acquirer, t: State)
    requires Enabled(s, Look(a))
    requires t == (if OpensSlot(s, Look(a)) then s.(slots := s.slots + [NewSlot(a.id)], opening := s.opening[a.id := |s.slots|]) else s)
                  .(acquirers := Resume(s.acquirers, a, WaitAfterLook(s, a.id)))
    ensures t == Next(s, Look(a))
  {
    hide Resume, WaitAfterLook;
  }

  lemma Opened(s: State, a: Acquirer, t: State)
    requires Enabled(s, ResumeAfterOpening(a))
    requires t == s.(opening := if a.wait.owner && a.id in s.opening && s.opening[a.id] == a.wait.slot then s.opening - {a.id} else s.opening,
                     acquirers := Resume(s.acquirers, a, if s.slots[a.wait.slot].stage == Live then Some(Holding(a.wait.slot)) else None))
    ensures t == Next(s, ResumeAfterOpening(a))
  {
    hide Resume;
  }

  lemma Returned(s: State, i: nat, t: State)
    requires Enabled(s, DisposeReturns(i))
    requires var slot := s.slots[i];
             t == s.(slots := s.slots[i := slot.(disposeReturned := true, stage := if slot.stage == Rejecting then Failed else slot.stage)],
                     live := if slot.disposing && slot.id in s.live && s.live[slot.id] == i then s.live - {slot.id} else s.live)
    ensures t == Next(s, DisposeReturns(i))
  {
  }

  lemma Parted(s: State, c: Connection, t: State)
    requires Enabled(s, Disconnect(c)) && !s.peers[c].disconnected
    requires t == s.(slots := DisposeEach(s.closing, WithoutConnection(s.slots, SessionsOf(s, c), c), SessionsOf(s, c)),
                     peers := s.peers[c := s.peers[c].(disconnected := true, ready := false, sessionIds := {})])
    ensures t == Next(s, Disconnect(c))
  {
    hide DisposeEach, WithoutConnection, SessionsOf;
  }

  lemma Obtained(s: State, i: nat, idle: bool, t: State)
    requires Enabled(s, RuntimeObtained(i, idle))
    requires var slot := s.slots[i].(obtained := true, idle := idle);
             t == s.(slots := s.slots[i := if s.closing then DisposeCalled(slot).(stage := Rejecting) else slot.(stage := Inspecting)])
    ensures t == Next(s, RuntimeObtained(i, idle))
  {
  }

  class Manager {
    /** What create() has been called for, in order; a live session is referred to by its place here. */
    var sessions: seq<Slot>
    var liveSessions: map<Id, nat>
    var openingSessions: map<Id, nat>
    var peers: map<Connection, Peer>
    var closing: bool
    // the suspended calls
    ghost var acquirers: multiset<Acquirer>
    ghost var operations: multiset<nat>
    ghost var detachers: multiset<nat>
    ghost var terminators: multiset<nat>
    ghost var closers: multiset<set<nat>>
    ghost var collected: bool

    ghost function Abs(): State
      reads this
    {
      State(sessions, liveSessions, openingSessions, peers, acquirers, operations, detachers, terminators, closing,
            closers, collected)
    }

    constructor ()
      ensures Abs() == INITIAL
    {
      sessions, liveSessions, openingSessions, peers, closing := [], map[], map[], map[], false;
      acquirers, operations, detachers, terminators := multiset{}, multiset{}, multiset{}, multiset{};
      closers, collected := multiset{}, false;
    }

    /** One turn of the loop in acquire(), up to the next await. */
    method Acquire(ghost a: Acquirer, id: Id) returns (wait: Option<Wait>)
      requires a.id == id && Enabled(Abs(), Look(a))
      modifies this
      ensures Abs() == Next(old(Abs()), Look(a)) && wait == WaitAfterLook(old(Abs()), id)
    {
      if id in liveSessions {
        var existing := sessions[liveSessions[id]];
        if existing.terminal {
          wait := None;
        } else if existing.disposing {
          wait := Some(ForDisposal(liveSessions[id]));
        } else {
          wait := Some(Holding(liveSessions[id]));
        }
      } else if id in openingSessions {
        wait := Some(ForOpening(openingSessions[id], false));
      } else {
        var pending := |sessions|;
        sessions := sessions + [NewSlot(id)];
        openingSessions := openingSessions[id := pending];
        wait := Some(ForOpening(pending, true));
      }
      acquirers := Resume(acquirers, a, wait);
      Looked(old(Abs()), a, Abs());
    }

    /** The promise of create() that acquire() waits for has settled. */
    method ResumeAcquire(ghost a: Acquirer, id: Id, pending: nat, owner: bool) returns (live: Option<nat>)
      requires a.id == id && a.wait == ForOpening(pending, owner) && Enabled(Abs(), ResumeAfterOpening(a))
      modifies this`openingSessions, this`acquirers
      ensures Abs() == Next(old(Abs()), ResumeAfterOpening(a))
      ensures live == if sessions[pending].stage == Live then Some(pending) else None
    {
      if owner && id in openingSessions && openingSessions[id] == pending {
        openingSessions := openingSessions - {id};
      }
      if sessions[pending].stage == Live {
        live := Some(pending);
        acquirers := Resume(acquirers, a, Some(Holding(pending)));
      } else {
        live := None;
        acquirers := Resume(acquirers, a, None);
      }
      Opened(old(Abs()), a, Abs());
    }

    method DisposeRuntime(i: nat)
      requires i < |sessions|
      modifies this`sessions
      ensures sessions == old(sessions)[i := DisposeCalled(old(sessions)[i])]
    {
      var runtime := sessions[i];
      sessions := sessions[i := runtime.(disposeCalls := runtime.disposeCalls + 1)];
    }

    /** maybeDispose(), up to its first await. */
    method MaybeDispose(i: nat)
      requires i < |sessions|
      modifies this`sessions
      ensures sessions == DisposeOne(closing, old(sessions), i)
    {
      var live := sessions[i];
      if closing || live.stage != Live || live.disposing || live.connections != {} || live.operationCount > 0
         || (!live.terminal && !live.idle) {
        return;
      }
      sessions := sessions[i := live.(subscribed := false, disposing := true)];
      DisposeRuntime(i);
    }

    /** create() after the service returned a runtime. */
    method CreateResumes(pending: nat, idle: bool)
      requires Enabled(Abs(), RuntimeObtained(pending, idle))
      modifies this
      ensures Abs() == Next(old(Abs()), RuntimeObtained(pending, idle))
    {
      sessions := sessions[pending := sessions[pending].(obtained := true, idle := idle)];
      if closing {
        DisposeRuntime(pending);
      }
      sessions := sessions[pending := sessions[pending].(stage := if closing then Rejecting else Inspecting)];
      Obtained(old(Abs()), pending, idle, Abs());
    }

    /** create() after the first snapshot, when it names the right session. */
    method CreateRegisters(pending: nat)
      requires Enabled(Abs(), SnapshotAccepted(pending))
      modifies this
      ensures Abs() == Next(old(Abs()), SnapshotAccepted(pending))
    {
      liveSessions := liveSessions[sessions[pending].id := pending];
      sessions := sessions[pending := sessions[pending].(subscribed := true, stage := Live)];
    }

    /** create() after the first snapshot failed, or named another session. */
    method CreateRejects(pending: nat)
      requires Enabled(Abs(), SnapshotRejected(pending))
      modifies this
      ensures Abs() == Next(old(Abs()), SnapshotRejected(pending))
    {
      DisposeRuntime(pending);
      sessions := sessions[pending := sessions[pending].(stage := Rejecting)];
    }

    method Attach(ghost a: Acquirer, connection: Connection, live: nat)
      requires a.connection == connection && a.wait == Holding(live) && Enabled(Abs(), Step.Attach(a))
      modifies this
      ensures Abs() == Next(old(Abs()), Step.Attach(a))
    {
      var peer := peers[connection];
      if peer.disconnected || !peer.ready || peer.closed {
        RefuseAttach(a, live);
      } else {
        Join(a, connection, live);
      }
    }

    method RefuseAttach(ghost a: Acquirer, live: nat)
      requires a.wait == Holding(live) && Enabled(Abs(), Step.Attach(a)) && !MayAttach(peers[a.connection])
      modifies this
      ensures Abs() == Next(old(Abs()), Step.Attach(a))
    {
      MaybeDispose(live);
      acquirers := Resume(acquirers, a, None);
      Refused(old(Abs()), a, Abs());
    }

    method TakeIn(connection: Connection, live: nat)
      requires connection in peers && live < |sessions|
      modifies this`sessions, this`peers
      ensures var session, peer := old(sessions)[live], old(peers)[connection];
              && sessions == old(sessions)[live := session.(connections := session.connections + {connection})]
              && peers == old(peers)[connection := peer.(sessionIds := peer.sessionIds + {session.id})]
    {
      var session, peer := sessions[live], peers[connection];
      peers := peers[connection := peer.(sessionIds := peer.sessionIds + {session.id})];
      sessions := sessions[live := session.(connections := session.connections + {connection})];
    }

    method Join(ghost a: Acquirer, connection: Connection, live: nat)
      requires a.connection == connection && a.wait == Holding(live) && Enabled(Abs(), Step.Attach(a))
      requires MayAttach(peers[connection])
      modifies this
      ensures Abs() == Next(old(Abs()), Step.Attach(a))
    {
      TakeIn(connection, live);
      acquirers := Resume(acquirers, a, None);
      Joined(old(Abs()), a, Abs());
    }

    /** Whether others are still in the session, so that the detach command broadcasts before its check. */
    method LeaveSession(i: nat, connection: Connection) returns (waits: bool)
      requires i < |sessions|
      modifies this`sessions
      ensures waits <==> Stays(old(sessions)[i], connection)
      ensures var slots := old(sessions)[i := old(sessions)[i].(connections := old(sessions)[i].connections - {connection})];
              sessions == if waits then slots else DisposeOne(closing, slots, i)
    {
      var live := sessions[i].(connections := sessions[i].connections - {connection});
      sessions := sessions[i := live];
      waits := live.connections != {} && !live.terminal && !live.disposing;
      if !waits {
        MaybeDispose(i);
      }
    }

    /** The detach command, up to its first await. */
    method DetachCommand(connection: Connection, sessionId: Id)
      requires Enabled(Abs(), Detach(connection, sessionId))
      modifies this
      ensures Abs() == Next(old(Abs()), Detach(connection, sessionId))
    {
      assert connection in peers && (sessionId in liveSessions ==> liveSessions[sessionId] < |sessions|);
      hide Enabled, Next, DisposeOne;
      var peer := peers[connection];
      peers := peers[connection := peer.(sessionIds := peer.sessionIds - {sessionId})];
      if sessionId in liveSessions {
        var waits := LeaveSession(liveSessions[sessionId], connection);
        if waits {
          detachers := detachers + multiset{liveSessions[sessionId]};
        }
      }
      Left(old(Abs()), connection, sessionId, Abs());
    }

    /** runOperation(), up to the call of the operation; None when requireAttached() throws. */
    method BeginOperation(connection: Connection, sessionId: Id) returns (started: Option<nat>)
      requires connection in peers && (sessionId in liveSessions ==> liveSessions[sessionId] < |sessions|)
      modifies this
      ensures started.Some? <==> MayOperate(old(Abs()), connection, sessionId)
      ensures Abs() == if started.Some? then Next(old(Abs()), StartOperation(connection, sessionId)) else old(Abs())
    {
      if sessionId !in peers[connection].sessionIds || sessionId !in liveSessions {
        return None;
      }
      var i := liveSessions[sessionId];
      var live := sessions[i];
      if live.terminal || live.disposing {
        return None;
      }
      sessions := sessions[i := live.(operationCount := live.operationCount + 1)];
      operations := operations + multiset{i};
      started := Some(i);
    }

    method CountOff(i: nat)
      requires i < |sessions| && sessions[i].operationCount > 0
      modifies this`sessions
      ensures sessions == DisposeOne(closing, old(sessions)[i := old(sessions)[i].(operationCount := old(sessions)[i].operationCount - 1)], i)
    {
      sessions := sessions[i := sessions[i].(operationCount := sessions[i].operationCount - 1)];
      MaybeDispose(i);
    }

    /** The finally block of runOperation(). */
    method FinishOperation(i: nat)
      requires Enabled(Abs(), EndOperation(i))
      modifies this
      ensures Abs() == Next(old(Abs()), EndOperation(i))
    {
      CountOff(i);
      operations := operations - multiset{i};
      Finished(old(Abs()), i, Abs());
    }

    method HandleRuntimeEvent(i: nat)
      requires Enabled(Abs(), RuntimeEvent(i))
      modifies this
      ensures Abs() == Next(old(Abs()), RuntimeEvent(i))
    {
      sessions := sessions[i := sessions[i].(eventDue := false)];
      MaybeDispose(i);
    }

    /** terminate(), up to its first await. */
    method Terminate(i: nat)
      requires Enabled(Abs(), RuntimeError(i))
      modifies this
      ensures Abs() == Next(old(Abs()), RuntimeError(i))
    {
      if sessions[i].terminal {
        return;
      }
      sessions := sessions[i := sessions[i].(terminal := true, subscribed := false, eventDue := false)];
      terminators := terminators + multiset{i};
      Terminated(old(Abs()), i, Abs());
    }

    /** The finally block inside maybeDispose(), or the end of a rejected create(). */
    method DisposeSettles(i: nat)
      requires Enabled(Abs(), DisposeReturns(i))
      modifies this
      ensures Abs() == Next(old(Abs()), DisposeReturns(i))
    {
      var live := sessions[i];
      sessions := sessions[i := live.(disposeReturned := true, stage := if live.stage == Rejecting then Failed else live.stage)];
      if live.disposing && live.id in liveSessions && liveSessions[live.id] == i {
        liveSessions := liveSessions - {live.id};
      }
      Returned(old(Abs()), i, Abs());
    }

    /** The live sessions that the ids lead to. */
    method Lookup(ids: set<Id>) returns (found: set<nat>)
      ensures found == set id | id in ids && id in liveSessions :: liveSessions[id]
    {
      found := {};
      var left := ids;
      while left != {}
        invariant left <= ids
        invariant found == set id | id in ids - left && id in liveSessions :: liveSessions[id]
        decreases left
      {
        var id :| id in left;
        assert ids - (left - {id}) == (ids - left) + {id};
        left := left - {id};
        if id in liveSessions {
          found := found + {liveSessions[id]};
        }
      }
      assert ids - left == ids;
    }

    /** Takes the connection out of every one of its sessions first, and only then looks for disposals. */
    method DisconnectPeer(connection: Connection)
      requires Enabled(Abs(), Disconnect(connection)) && forall id :: id in liveSessions ==> liveSessions[id] < |sessions|
      modifies this
      ensures Abs() == Next(old(Abs()), Disconnect(connection))
    {
      var peer := peers[connection];
      if peer.disconnected {
        return;
      }
      hide Next, Enabled, DisposeEach, WithoutConnection;
      var found := Lookup(peer.sessionIds);
      peers := peers[connection := peer.(disconnected := true, ready := false, sessionIds := {})];
      RemoveFrom(found, connection);
      DisposeAll(found);
      Parted(old(Abs()), connection, Abs());
    }

    method RemoveFrom(these: set<nat>, connection: Connection)
      requires forall i :: i in these ==> i < |sessions|
      modifies this`sessions
      ensures sessions == WithoutConnection(old(sessions), these, connection)
    {
      var left := these;
      while left != {}
        invariant left <= these
        invariant sessions == WithoutConnection(old(sessions), these - left, connection)
        decreases left
      {
        var i :| i in left;
        assert sessions[i] == old(sessions)[i];
        sessions := sessions[i := sessions[i].(connections := sessions[i].connections - {connection})];
        left := left - {i};
      }
      assert these - left == these;
    }

    method DisposeAll(these: set<nat>)
      requires forall i :: i in these ==> i < |sessions|
      modifies this`sessions
      ensures sessions == DisposeEach(closing, old(sessions), these)
    {
      var left := these;
      while left != {}
        invariant left <= these
        invariant sessions == DisposeEach(closing, old(sessions), these - left)
        decreases left
      {
        var i :| i in left;
        assert sessions[i] == old(sessions)[i];
        MaybeDispose(i);
        left := left - {i};
      }
      assert these - left == these;
    }

    /** close() after the openings it waited for have settled: every session not yet being disposed is. */
    method CollectSessions(ghost awaited: set<nat>)
      requires Enabled(Abs(), CollectClose(awaited)) && forall id :: id in liveSessions ==> liveSessions[id] < |sessions|
      modifies this
      ensures Abs() == Next(old(Abs()), CollectClose(awaited))
    {
      SweepLive();
      closers, collected := closers - multiset{awaited}, true;
      Collected(old(Abs()), awaited, Abs());
    }

    method SweepLive()
      requires forall id :: id in liveSessions ==> liveSessions[id] < |sessions|
      modifies this`sessions, this`liveSessions
      ensures sessions == SweepEach(old(sessions), old(liveSessions).Values) && liveSessions == map[]
    {
      var found := liveSessions.Values;
      liveSessions := map[];
      SweepAll(found);
    }

    method SweepAll(these: set<nat>)
      requires forall i :: i in these ==> i < |sessions|
      modifies this`sessions
      ensures sessions == SweepEach(old(sessions), these)
    {
      var left := these;
      while left != {}
        invariant left <= these
        invariant sessions == SweepEach(old(sessions), these - left)
        decreases left
      {
        var i :| i in left;
        assert sessions[i] == old(sessions)[i];
        if !sessions[i].disposing {
          sessions := sessions[i := sessions[i].(subscribed := false)];
          DisposeRuntime(i);
        }
        left := left - {i};
      }
      assert these - left == these;
    }
  }
}
