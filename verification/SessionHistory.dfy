/** What the steps of a run say of the sessions: who is attached, who holds a session, which operations may start, and
    what becomes of an opening. Nothing here depends on how LiveSessions computes a step. */
module SessionHistory {
  import opened Results
  import opened LiveSessions

  // ---------------------------------------------------------------------------------------
  // Who is attached

  /** In step k an acquirer of the connection attached it to a session of that id. */
  predicate AttachesIn(s: State, e: Step, c: Connection, id: Id) {
    && e.Attach? && e.acquirer.connection == c && e.acquirer.wait.Holding?
    && e.acquirer.wait.slot < |s.slots| && s.slots[e.acquirer.wait.slot].id == id
    && c in s.peers && s.peers[c].ready && !s.peers[c].disconnected && !s.peers[c].closed
  }

  /** It did so in some step, and the connection has neither detached nor disconnected since. */
  ghost predicate AttachedSince(ss: seq<State>, es: seq<Step>, n: nat, c: Connection, id: Id)
    requires n <= |es| < |ss|
  {
    exists k :: 0 <= k < n && AttachesIn(ss[k], es[k], c, id)
                && forall l :: k < l < n ==> es[l] != Detach(c, id) && es[l] != Disconnect(c)
  }

  predicate Member(s: State, c: Connection, id: Id) {
    c in s.peers && id in s.peers[c].sessionIds
  }

  predicate GoneIsOut(s: State) {
    forall c :: c in s.peers && s.peers[c].disconnected ==> s.peers[c].sessionIds == {}
  }

  lemma GoneStaysOut(s: State, e: Step)
    requires Enabled(s, e) && GoneIsOut(s)
    ensures GoneIsOut(Next(s, e))
  {
    hide Next;
    AcquirersOfNext(s, e);
  }

  predicate Enters(s: State, e: Step, c: Connection, id: Id) {
    AttachesIn(s, e, c, id) || (Member(s, c, id) && e != Detach(c, id) && e != Disconnect(c))
  }

  lemma AttachEnters(s: State, e: Step, c: Connection, id: Id)
    requires Enabled(s, e) && e.Attach?
    ensures Member(Next(s, e), c, id) <==> Enters(s, e, c, id)
  {
    hide Next;
    AcquirersOfNext(s, e);
  }

  lemma LeavingEnters(s: State, e: Step, c: Connection, id: Id)
    requires Enabled(s, e) && (e.Detach? || e.Disconnect?)
    requires c in s.peers && s.peers[c].disconnected ==> s.peers[c].sessionIds == {}
    ensures Member(Next(s, e), c, id) <==> Enters(s, e, c, id)
  {
    hide Next;
    AcquirersOfNext(s, e);
  }

  lemma OthersEnter(s: State, e: Step, c: Connection, id: Id)
    requires Enabled(s, e) && !e.Attach? && !e.Detach? && !e.Disconnect?
    ensures Member(Next(s, e), c, id) <==> Enters(s, e, c, id)
  {
    hide Next, NextPeers, Enabled;
    AcquirersOfNext(s, e);
    OthersKnow(s, e, c, id);
  }

  lemma OthersKnow(s: State, e: Step, c: Connection, id: Id)
    requires Enabled(s, e) && !e.Attach? && !e.Detach? && !e.Disconnect?
    ensures c in NextPeers(s, e) && id in NextPeers(s, e)[c].sessionIds <==> Member(s, c, id)
  {
  }

  lemma MemberStep(s: State, e: Step, c: Connection, id: Id)
    requires Enabled(s, e) && (c in s.peers && s.peers[c].disconnected ==> s.peers[c].sessionIds == {})
    ensures Member(Next(s, e), c, id) <==> Enters(s, e, c, id)
  {
    hide *;
    if e.Attach? {
      AttachEnters(s, e, c, id);
    } else if e.Detach? || e.Disconnect? {
      LeavingEnters(s, e, c, id);
    } else {
      OthersEnter(s, e, c, id);
    }
  }

  lemma AttachedOneMore(ss: seq<State>, es: seq<Step>, n: nat, c: Connection, id: Id)
    requires n < |es| < |ss|
    ensures AttachedSince(ss, es, n + 1, c, id) <==>
            AttachesIn(ss[n], es[n], c, id)
            || (AttachedSince(ss, es, n, c, id) && es[n] != Detach(c, id) && es[n] != Disconnect(c))
  {
    hide AttachesIn;
    if AttachesIn(ss[n], es[n], c, id) {
      assert 0 <= n < n + 1 && AttachesIn(ss[n], es[n], c, id);
    }
    if AttachedSince(ss, es, n, c, id) && es[n] != Detach(c, id) && es[n] != Disconnect(c) {
      var k :| 0 <= k < n && AttachesIn(ss[k], es[k], c, id)
               && forall l :: k < l < n ==> es[l] != Detach(c, id) && es[l] != Disconnect(c);
      assert 0 <= k < n + 1 && AttachesIn(ss[k], es[k], c, id);
    }
  }

  /** The ids that a connection has are those of the sessions that it attached to and has not left. */
  lemma {:induction false} MembersAreAttached(ss: seq<State>, es: seq<Step>, n: nat, c: Connection, id: Id)
    requires Run(ss, es) && n < |ss|
    ensures GoneIsOut(ss[n])
    ensures Member(ss[n], c, id) <==> AttachedSince(ss, es, n, c, id)
  {
    hide Next, Enabled, AttachedSince, AttachesIn, Member, GoneIsOut;
    if n == 0 {
      NobodyIsAttached(ss, es, c, id);
    } else {
      MembersAreAttached(ss, es, n - 1, c, id);
      GoneStaysOut(ss[n - 1], es[n - 1]);
      GoneMeans(ss[n - 1], c);
      MemberStep(ss[n - 1], es[n - 1], c, id);
      AttachedOneMore(ss, es, n - 1, c, id);
    }
  }

  lemma GoneMeans(s: State, c: Connection)
    requires GoneIsOut(s)
    ensures c in s.peers && s.peers[c].disconnected ==> s.peers[c].sessionIds == {}
  {
  }

  lemma NobodyIsAttached(ss: seq<State>, es: seq<Step>, c: Connection, id: Id)
    requires |es| < |ss|
    ensures GoneIsOut(INITIAL) && !Member(INITIAL, c, id) && !AttachedSince(ss, es, 0, c, id)
  {
  }

  /** An operation on a session may start if and only if its connection has attached to a session of that id and has
      not left, and the live session of that id is neither terminal nor being disposed. It then counts there. */
  lemma OperationStartsIff(ss: seq<State>, es: seq<Step>, n: nat, c: Connection, id: Id)
    requires Run(ss, es) && n < |ss|
    ensures Enabled(ss[n], StartOperation(c, id)) <==>
            && AttachedSince(ss, es, n, c, id)
            && id in ss[n].live && ss[n].live[id] < |ss[n].slots|
            && !ss[n].slots[ss[n].live[id]].terminal && !ss[n].slots[ss[n].live[id]].disposing
    ensures n < |es| && es[n] == StartOperation(c, id) ==>
              && ss[n].slots[ss[n].live[id]].id == id
              && ss[n + 1].operations == ss[n].operations + multiset{ss[n].live[id]}
  {
    hide AttachedSince, Run, LifeInv, Enabled, Next, Member;
    MembersAreAttached(ss, es, n, c, id);
    EveryRunKeepsLife(ss, es, n);
    StartIff(ss[n], c, id);
    if n < |es| && es[n] == StartOperation(c, id) {
      RunsOn(ss, es, n);
      StartCounts(ss[n], c, id);
    }
  }

  lemma RunsOn(ss: seq<State>, es: seq<Step>, n: nat)
    requires Run(ss, es) && n < |es|
    ensures Enabled(ss[n], es[n]) && ss[n + 1] == Next(ss[n], es[n])
  {
    hide Enabled, Next;
  }

  lemma StartCounts(s: State, c: Connection, id: Id)
    requires Enabled(s, StartOperation(c, id))
    ensures Next(s, StartOperation(c, id)).operations == s.operations + multiset{s.live[id]}
  {
  }

  lemma StartIff(s: State, c: Connection, id: Id)
    requires LifeInv(s)
    ensures Enabled(s, StartOperation(c, id)) <==>
            Member(s, c, id) && id in s.live && s.live[id] < |s.slots| && !s.slots[s.live[id]].terminal && !s.slots[s.live[id]].disposing
    ensures id in s.live ==> s.live[id] < |s.slots| && s.slots[s.live[id]].id == id
  {
    assert LiveOk(s);
    hide LifeInv;
  }

  // ---------------------------------------------------------------------------------------
  // Who holds a session

  /** In a look, or when the opening that it waited for was over, the acquirer got the session. */
  predicate GetsHold(s: State, e: Step, a: Acquirer, i: nat) {
    || (e == Look(a.(wait := Looking)) && a.id in s.live && s.live[a.id] == i && i < |s.slots|
        && !s.slots[i].terminal && !s.slots[i].disposing)
    || (e.ResumeAfterOpening? && e.acquirer.(wait := a.wait) == a && e.acquirer.wait.ForOpening? && e.acquirer.wait.slot == i
        && i < |s.slots| && s.slots[i].stage == Live)
  }

  lemma HoldFrom(s: State, e: Step, a: Acquirer, i: nat)
    requires Enabled(s, e) && a in Next(s, e).acquirers && a.wait == Holding(i)
    ensures a in s.acquirers || GetsHold(s, e, a, i)
  {
    hide Next, WaitAfter;
    AcquirersOfNext(s, e);
    if e.Look? || e.ResumeAfterDisposal? || e.ResumeAfterOpening? || e.Attach? {
      ResumedHolds(s, e, i);
      hide Enabled;
    }
  }

  lemma AcquirersOfNext(s: State, e: Step)
    requires Enabled(s, e)
    ensures Next(s, e).acquirers == NextAcquirers(s, e) && Next(s, e).peers == NextPeers(s, e)
  {
  }

  /** Only a look and the end of an opening give a session to hold. */
  lemma ResumedHolds(s: State, e: Step, i: nat)
    requires Enabled(s, e) && (e.Look? || e.ResumeAfterDisposal? || e.ResumeAfterOpening? || e.Attach?)
    ensures WaitAfter(s, e) == Some(Holding(i)) ==> GetsHold(s, e, e.acquirer.(wait := Holding(i)), i)
  {
  }

  /** An acquirer that holds a session found it in the map neither terminal nor being disposed, or has waited for the
      opening in which it came to life. */
  lemma {:induction false} HeldWasUsable(ss: seq<State>, es: seq<Step>, n: nat, a: Acquirer, i: nat) returns (k: nat)
    requires Run(ss, es) && n < |ss| && a in ss[n].acquirers && a.wait == Holding(i)
    ensures k < n && GetsHold(ss[k], es[k], a, i)
  {
    hide Next, Enabled, GetsHold;
    HoldFrom(ss[n - 1], es[n - 1], a, i);
    k := n - 1;
    if !GetsHold(ss[k], es[k], a, i) {
      k := HeldWasUsable(ss, es, n - 1, a, i);
    }
  }

  /** What one look of acquire() leads to: it throws, waits for a disposal or an opening, has the session, or asks for a
      runtime. */
  lemma LookLeadsTo(ss: seq<State>, es: seq<Step>, n: nat, a: Acquirer)
    requires Run(ss, es) && n < |es| && es[n] == Look(a)
    ensures var s, t := ss[n], ss[n + 1];
            if a.id in s.live then
              && s.live[a.id] < |s.slots| && t.slots == s.slots && t.opening == s.opening
              && var slot := s.slots[s.live[a.id]];
                 t.acquirers == s.acquirers - multiset{a}
                                + (if slot.terminal then multiset{}
                                   else if slot.disposing then multiset{a.(wait := ForDisposal(s.live[a.id]))}
                                   else multiset{a.(wait := Holding(s.live[a.id]))})
            else if a.id in s.opening then
              && t.slots == s.slots && t.opening == s.opening
              && t.acquirers == s.acquirers - multiset{a} + multiset{a.(wait := ForOpening(s.opening[a.id], false))}
            else
              && |t.slots| == |s.slots| + 1 && t.slots[..|s.slots|] == s.slots && t.slots[|s.slots|].id == a.id
              && t.slots[|s.slots|].stage == Acquiring && t.opening == s.opening[a.id := |s.slots|]
              && t.acquirers == s.acquirers - multiset{a} + multiset{a.(wait := ForOpening(|s.slots|, true))}
  {
    RunsOn(ss, es, n);
    hide Run, NextLive, NextPeers, NextOperations, NextDetachers, NextTerminators, NextClosers;
  }

  // ---------------------------------------------------------------------------------------
  // What becomes of an opening

  /** A runtime that was obtained while the server closes is disposed at once; otherwise its snapshot decides whether
      it becomes the live session of its id. */
  lemma OpeningLeadsTo(ss: seq<State>, es: seq<Step>, n: nat, i: nat)
    requires Run(ss, es) && n < |es|
    ensures i < |ss[n].slots| ==> i < |ss[n + 1].slots|
    ensures forall idle :: es[n] == RuntimeObtained(i, idle) ==>
              && ss[n + 1].slots[i].stage == (if ss[n].closing then Rejecting else Inspecting)
              && ss[n + 1].slots[i].disposeCalls == ss[n].slots[i].disposeCalls + (if ss[n].closing then 1 else 0)
              && ss[n + 1].slots[i].obtained && ss[n + 1].slots[i].idle == idle
    ensures es[n] == AcquireFails(i) ==> ss[n + 1].slots[i].stage == Failed && !ss[n + 1].slots[i].obtained
    ensures es[n] == SnapshotAccepted(i) ==>
              && ss[n + 1].slots[i].stage == Live && ss[n + 1].slots[i].subscribed
              && ss[n + 1].live == ss[n].live[ss[n].slots[i].id := i]
    ensures es[n] == SnapshotRejected(i) ==>
              && ss[n + 1].slots[i].stage == Rejecting && ss[n + 1].live == ss[n].live
              && ss[n + 1].slots[i].disposeCalls == ss[n].slots[i].disposeCalls + 1
  {
    RunsOn(ss, es, n);
    EveryRunKeepsLife(ss, es, n);
    StepAddsSlot(ss[n], es[n]);
    assert i < |ss[n].slots| ==> SlotOk(ss[n].slots[i]);
    hide Run, LifeInv, NextPeers, NextOperations, NextDetachers, NextTerminators, NextClosers, NextAcquirers, NextOpening;
  }

  // ---------------------------------------------------------------------------------------
  // Errors and departures

  /** A session is terminal if and only if its runtime has reported an error. */
  lemma {:induction false} TerminalIff(ss: seq<State>, es: seq<Step>, n: nat, i: nat)
    requires Run(ss, es) && n < |ss| && i < |ss[n].slots|
    ensures ss[n].slots[i].terminal <==> exists k :: 0 <= k < n && es[k] == RuntimeError(i)
  {
    hide Enabled, Next;
    if n > 0 {
      RunsOn(ss, es, n - 1);
      TerminalStep(ss[n - 1], es[n - 1], i);
      if i < |ss[n - 1].slots| {
        TerminalIff(ss, es, n - 1, i);
      } else {
        NoErrorYet(ss, es, n - 1, i);
      }
    }
  }

  lemma TerminalStep(s: State, e: Step, i: nat)
    requires Enabled(s, e) && i < |Next(s, e).slots|
    ensures i < |s.slots| ==> (Next(s, e).slots[i].terminal <==> s.slots[i].terminal || e == RuntimeError(i))
    ensures i >= |s.slots| ==> !Next(s, e).slots[i].terminal && e != RuntimeError(i)
  {
    StepMoves(s, e);
    StepAddsSlot(s, e);
    if i < |s.slots| {
      assert SlotMove(s, e, i, s.slots[i], NextSlots(s, e)[i]);
    }
    hide NextSlots;
  }

  lemma {:induction false} NoErrorYet(ss: seq<State>, es: seq<Step>, n: nat, i: nat)
    requires Run(ss, es) && n < |ss| && i >= |ss[n].slots|
    ensures forall k :: 0 <= k < n ==> es[k] != RuntimeError(i)
  {
    hide Next, Enabled;
    if n > 0 {
      RunsOn(ss, es, n - 1);
      SlotsGrow(ss[n - 1], es[n - 1]);
      NoErrorYet(ss, es, n - 1, i);
    }
  }

  lemma SlotsGrow(s: State, e: Step)
    requires Enabled(s, e)
    ensures |s.slots| <= |Next(s, e).slots|
    ensures e.RuntimeError? ==> e.slot < |s.slots|
  {
    StepAddsSlot(s, e);
    hide NextSlots;
  }

  /** A connection that detaches is out of the session at once. The command then waits for a broadcast if others are
      still in it and it is neither terminal nor being disposed. */
  lemma DetachLeads(ss: seq<State>, es: seq<Step>, n: nat, c: Connection, id: Id)
    requires Run(ss, es) && n < |es| && es[n] == Detach(c, id) && id in ss[n].live
    ensures ss[n].live[id] < |ss[n].slots| <= |ss[n + 1].slots|
    ensures var i, slot := ss[n].live[id], ss[n].slots[ss[n].live[id]];
            && ss[n + 1].slots[i].connections == slot.connections - {c}
            && ss[n + 1].detachers == ss[n].detachers + (if slot.connections - {c} != {} && !slot.terminal && !slot.disposing
                                                         then multiset{i} else multiset{})
  {
    RunsOn(ss, es, n);
    hide Run, NextLive, NextPeers, NextOperations, NextAcquirers, NextTerminators, NextClosers, NextOpening;
  }

  /** The map never keeps a session whose disposal is over, and everything in it is live under its own id. */
  lemma MapHoldsOpenSessions(ss: seq<State>, es: seq<Step>, n: nat, id: Id)
    requires Run(ss, es) && n < |ss| && id in ss[n].live
    ensures ss[n].live[id] < |ss[n].slots|
    ensures var slot := ss[n].slots[ss[n].live[id]];
            slot.id == id && slot.stage == Live && !slot.disposeReturned
  {
    EveryRunKeepsLife(ss, es, n);
    assert LiveOk(ss[n]) && LiveAt(ss[n].slots[ss[n].live[id]], id);
    hide LifeInv, Run;
  }

  // ---------------------------------------------------------------------------------------
  // Connections and operations of a session

  /** In the step an acquirer of the connection attached it to this very session. */
  predicate AttachesTo(s: State, e: Step, c: Connection, i: nat) {
    && e.Attach? && e.acquirer.connection == c && e.acquirer.wait == Holding(i)
    && c in s.peers && s.peers[c].ready && !s.peers[c].disconnected && !s.peers[c].closed
  }

  ghost predicate InSince(ss: seq<State>, es: seq<Step>, n: nat, c: Connection, i: nat, id: Id)
    requires n <= |es| < |ss|
  {
    exists k :: 0 <= k < n && AttachesTo(ss[k], es[k], c, i)
                && forall l :: k < l < n ==> es[l] != Detach(c, id) && es[l] != Disconnect(c)
  }

  lemma InOneMore(ss: seq<State>, es: seq<Step>, n: nat, c: Connection, i: nat, id: Id)
    requires n < |es| < |ss|
    ensures InSince(ss, es, n + 1, c, i, id) <==>
            AttachesTo(ss[n], es[n], c, i) || (InSince(ss, es, n, c, i, id) && es[n] != Detach(c, id) && es[n] != Disconnect(c))
  {
    hide AttachesTo;
    if AttachesTo(ss[n], es[n], c, i) {
      assert 0 <= n < n + 1 && AttachesTo(ss[n], es[n], c, i);
    }
    if InSince(ss, es, n, c, i, id) && es[n] != Detach(c, id) && es[n] != Disconnect(c) {
      var k :| 0 <= k < n && AttachesTo(ss[k], es[k], c, i)
               && forall l :: k < l < n ==> es[l] != Detach(c, id) && es[l] != Disconnect(c);
      assert 0 <= k < n + 1 && AttachesTo(ss[k], es[k], c, i);
    }
  }

  lemma ConnectionStep(s: State, e: Step, c: Connection, i: nat)
    requires Enabled(s, e) && LifeInv(s) && PeersOk(s) && i < |s.slots| && i < |NextSlots(s, e)|
    requires s.slots[i].stage == Live && s.slots[i].disposeCalls == 0
    ensures c in NextSlots(s, e)[i].connections <==>
            || AttachesTo(s, e, c, i)
            || (c in s.slots[i].connections && e != Detach(c, s.slots[i].id) && e != Disconnect(c))
  {
    hide Enabled, NextSlots, LifeInv, PeersOk, RegisteredIn, Knows;
    OpenIsRegistered(s, i, c);
    if e.Attach? {
      AttachConnects(s, e, c, i);
    } else if e.Detach? {
      DetachConnects(s, e, c, i);
    } else if e.Disconnect? {
      DisconnectConnects(s, e, c, i);
    } else {
      OthersConnect(s, e, i);
    }
  }

  lemma OpenIsRegistered(s: State, i: nat, c: Connection)
    requires LifeInv(s) && PeersOk(s) && i < |s.slots| && s.slots[i].stage == Live && s.slots[i].disposeCalls == 0
    ensures RegisteredIn(s.live, i, s.slots[i].id)
    ensures forall other :: other in s.live && s.live[other] == i ==> other == s.slots[i].id
    ensures c in s.slots[i].connections ==> Knows(s.peers, c, s.slots[i].id)
  {
    assert Registered(s) && LiveOk(s);
    hide LifeInv;
  }

  lemma OthersConnect(s: State, e: Step, i: nat)
    requires Enabled(s, e) && !e.Attach? && !e.Detach? && !e.Disconnect? && i < |s.slots| && i < |NextSlots(s, e)|
    ensures NextSlots(s, e)[i].connections == s.slots[i].connections
  {
    StepMoves(s, e);
    hide NextSlots;
    assert SlotMove(s, e, i, s.slots[i], NextSlots(s, e)[i]);
  }

  lemma AttachConnects(s: State, e: Step, c: Connection, i: nat)
    requires Enabled(s, e) && e.Attach? && i < |s.slots| && i < |NextSlots(s, e)|
    ensures c in NextSlots(s, e)[i].connections <==> AttachesTo(s, e, c, i) || c in s.slots[i].connections
  {
  }

  lemma DetachConnects(s: State, e: Step, c: Connection, i: nat)
    requires Enabled(s, e) && e.Detach? && i < |s.slots| && i < |NextSlots(s, e)|
    requires RegisteredIn(s.live, i, s.slots[i].id)
    requires forall other :: other in s.live && s.live[other] == i ==> other == s.slots[i].id
    ensures c in NextSlots(s, e)[i].connections <==> c in s.slots[i].connections && e != Detach(c, s.slots[i].id)
  {
    hide DisposeOne;
    if e.id in s.live {
      var j := s.live[e.id];
      var left := s.slots[j := s.slots[j].(connections := s.slots[j].connections - {e.connection})];
      DisposeKeepsConnections(s.closing, left, j, i);
      assert NextSlots(s, e) == left || NextSlots(s, e) == DisposeOne(s.closing, left, j);
      assert j == i <==> e.id == s.slots[i].id;
      hide NextSlots;
    }
  }

  lemma DisposeKeepsConnections(closing: bool, slots: seq<Slot>, j: nat, i: nat)
    requires j < |slots| && i < |slots|
    ensures |DisposeOne(closing, slots, j)| == |slots| && DisposeOne(closing, slots, j)[i].connections == slots[i].connections
  {
  }

  lemma DisconnectConnects(s: State, e: Step, c: Connection, i: nat)
    requires Enabled(s, e) && e.Disconnect? && i < |s.slots| && i < |NextSlots(s, e)|
    requires RegisteredIn(s.live, i, s.slots[i].id)
    requires c in s.slots[i].connections ==> Knows(s.peers, c, s.slots[i].id)
    ensures c in NextSlots(s, e)[i].connections <==> c in s.slots[i].connections && e != Disconnect(c)
  {
    assert e == Disconnect(c) && c in s.slots[i].connections ==> i in SessionsOf(s, c);
  }

  /** A session that was not disposed has exactly the connections that attached to it and have neither detached nor
      disconnected since. */
  lemma {:induction false} ConnectionsAreAttached(ss: seq<State>, es: seq<Step>, n: nat, c: Connection, i: nat)
    requires Run(ss, es) && n < |ss| && i < |ss[n].slots| && ss[n].slots[i].stage == Live && ss[n].slots[i].disposeCalls == 0
    ensures c in ss[n].slots[i].connections <==> InSince(ss, es, n, c, i, ss[n].slots[i].id)
  {
    hide Enabled, Next, NextSlots, InSince, AttachesTo, LifeInv, PeersOk;
    var s, e := ss[n - 1], es[n - 1];
    RunsOn(ss, es, n - 1);
    SlotsOfNext(s, e);
    EveryRunKeepsLife(ss, es, n - 1);
    EveryRunKeepsChecks(ss, es, n - 1);
    InOneMore(ss, es, n - 1, c, i, ss[n].slots[i].id);
    LivedBefore(s, e, i);
    if i < |s.slots| && s.slots[i].stage == Live {
      ConnectionsAreAttached(ss, es, n - 1, c, i);
      ConnectionStep(s, e, c, i);
    } else {
      NobodyIsIn(ss, es, n - 1, c, i, ss[n].slots[i].id);
      JustOpened(s, e, c, i);
    }
  }

  lemma SlotsOfNext(s: State, e: Step)
    requires Enabled(s, e)
    ensures Next(s, e).slots == NextSlots(s, e)
  {
  }

  lemma LivedBefore(s: State, e: Step, i: nat)
    requires Enabled(s, e) && LifeInv(s) && i < |NextSlots(s, e)| && NextSlots(s, e)[i].stage == Live && NextSlots(s, e)[i].disposeCalls == 0
    ensures i < |s.slots| && s.slots[i].disposeCalls == 0 && s.slots[i].id == NextSlots(s, e)[i].id
    ensures s.slots[i].stage != Live ==> e == SnapshotAccepted(i)
  {
    StepSummary(s, e);
    StepAddsSlot(s, e);
    assert i < |s.slots| ==> Summary(s, e, i, s.slots[i], NextSlots(s, e)[i]);
    hide NextSlots, LifeInv;
  }

  lemma JustOpened(s: State, e: Step, c: Connection, i: nat)
    requires Enabled(s, e) && LifeInv(s) && e == SnapshotAccepted(i) && i < |NextSlots(s, e)|
    ensures c !in NextSlots(s, e)[i].connections && !AttachesTo(s, e, c, i)
  {
    assert SlotOk(s.slots[i]);
  }

  /** Nobody has attached to a session that has not come to life. */
  lemma {:induction false} NobodyIsIn(ss: seq<State>, es: seq<Step>, n: nat, c: Connection, i: nat, id: Id)
    requires Run(ss, es) && n < |ss| && (i < |ss[n].slots| ==> ss[n].slots[i].stage != Live)
    ensures !InSince(ss, es, n, c, i, id)
  {
    hide Enabled, Next, NextSlots, InSince, AttachesTo, LifeInv;
    if n == 0 {
      assert !InSince(ss, es, 0, c, i, id) by {
        NobodyYet(ss, es, c, i, id);
      }
    } else {
      RunsOn(ss, es, n - 1);
      SlotsOfNext(ss[n - 1], es[n - 1]);
      EveryRunKeepsLife(ss, es, n - 1);
      StaysLive(ss[n - 1], es[n - 1], i);
      NobodyIsIn(ss, es, n - 1, c, i, id);
      HeldIsLive(ss[n - 1], es[n - 1], c, i);
      InOneMore(ss, es, n - 1, c, i, id);
    }
  }

  lemma NobodyYet(ss: seq<State>, es: seq<Step>, c: Connection, i: nat, id: Id)
    requires |es| < |ss|
    ensures !InSince(ss, es, 0, c, i, id)
  {
  }

  lemma StaysLive(s: State, e: Step, i: nat)
    requires Enabled(s, e)
    ensures i < |s.slots| && s.slots[i].stage == Live ==> i < |NextSlots(s, e)| && NextSlots(s, e)[i].stage == Live
  {
    StepSummary(s, e);
    hide NextSlots;
    assert i < |s.slots| ==> Summary(s, e, i, s.slots[i], NextSlots(s, e)[i]);
  }

  lemma HeldIsLive(s: State, e: Step, c: Connection, i: nat)
    requires Enabled(s, e) && LifeInv(s)
    ensures AttachesTo(s, e, c, i) ==> i < |s.slots| && s.slots[i].stage == Live
  {
    if AttachesTo(s, e, c, i) {
      assert AcquirerOk(s, e.acquirer) by {
        assert AcquirersOk(s);
      }
    }
  }

  /** What a session counts is the operations that have started on it and not ended. */
  lemma OperationsAreCounted(ss: seq<State>, es: seq<Step>, n: nat, i: nat)
    requires Run(ss, es) && n < |es| && i < |ss[n].slots|
    ensures ss[n].slots[i].operationCount == ss[n].operations[i]
    ensures ss[n + 1].operations[i] == ss[n].operations[i]
              + (if es[n].StartOperation? && es[n].id in ss[n].live && ss[n].live[es[n].id] == i then 1 else 0)
              - (if es[n] == EndOperation(i) then 1 else 0)
  {
    RunsOn(ss, es, n);
    EveryRunKeepsLife(ss, es, n);
    assert OperationsOk(ss[n]);
    OperationsCount(ss[n], es[n], i);
    assert ss[n + 1].operations == NextOperations(ss[n], es[n]);
    hide Run, LifeInv, Next, NextOperations;
  }

  /** A runtime is as idle as it last said, and a change to idle is followed by an event as long as anybody listens. */
  lemma PhaseLeads(ss: seq<State>, es: seq<Step>, n: nat, i: nat)
    requires Run(ss, es) && n < |es| && i < |ss[n].slots|
    ensures i < |ss[n + 1].slots|
    ensures forall idle :: es[n] == ChangePhase(i, idle) ==>
              && ss[n + 1].slots[i].idle == idle
              && (ss[n + 1].slots[i].eventDue <==> ss[n].slots[i].eventDue || (idle && ss[n].slots[i].subscribed))
    ensures es[n] == RuntimeEvent(i) ==> !ss[n + 1].slots[i].eventDue
  {
    RunsOn(ss, es, n);
    SlotsOfNext(ss[n], es[n]);
    StepAddsSlot(ss[n], es[n]);
    hide Run, Next;
  }

  // ---------------------------------------------------------------------------------------
  // Closing

  /** The server closes from the call of close() on; and when that collects, the map is emptied and every session in it
      has been told to dispose. */
  lemma {:induction false} ClosingLeads(ss: seq<State>, es: seq<Step>, n: nat)
    requires Run(ss, es) && n < |ss|
    ensures ss[n].closing <==> BeginClosing in es[..n]
    ensures ss[n].collected <==> exists k :: 0 <= k < n && es[k].CollectClose?
  {
    hide Enabled, Next;
    if n > 0 {
      ClosingLeads(ss, es, n - 1);
      RunsOn(ss, es, n - 1);
      FlagsOfNext(ss[n - 1], es[n - 1]);
      assert es[..n] == es[..n - 1] + [es[n - 1]];
    }
  }

  lemma FlagsOfNext(s: State, e: Step)
    requires Enabled(s, e)
    ensures Next(s, e).closing == (s.closing || e.BeginClosing?) && Next(s, e).collected == (s.collected || e.CollectClose?)
  {
  }

  lemma CollectingLeads(ss: seq<State>, es: seq<Step>, n: nat, i: nat)
    requires Run(ss, es) && n < |es| && es[n].CollectClose?
    ensures ss[n + 1].live == map[]
    ensures i in ss[n].live.Values ==> i < |ss[n + 1].slots| && ss[n + 1].slots[i].disposeCalls == 1
  {
    RunsOn(ss, es, n);
    EveryRunKeepsLife(ss, es, n);
    SlotsOfNext(ss[n], es[n]);
    if i in ss[n].live.Values {
      assert LiveOk(ss[n]);
      assert SlotOk(ss[n].slots[i]);
      SweptLeads(ss[n], es[n], i);
    }
    hide Run, LifeInv, NextSlots;
  }

  lemma SweptLeads(s: State, e: Step, i: nat)
    requires Enabled(s, e) && e.CollectClose? && i in s.live.Values && i < |s.slots|
    ensures i < |NextSlots(s, e)|
    ensures NextSlots(s, e)[i].disposeCalls == s.slots[i].disposeCalls + if s.slots[i].disposing then 0 else 1
  {
  }
}
