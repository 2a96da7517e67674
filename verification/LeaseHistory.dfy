/** What the steps of a run say of the leases: where a lease comes from, when the session shows as attached, and what
    each call leads to. Nothing here depends on how Leases computes a step. */
module LeaseHistory {
  import opened Results
  import opened Leases

  lemma RunsOn(ss: seq<State>, es: seq<Step>, n: nat)
    requires Run(ss, es) && n < |es|
    ensures Enabled(ss[n], es[n]) && ss[n + 1] == Next(ss[n], es[n])
  {
    hide Enabled, Next;
  }

  // ---------------------------------------------------------------------------------------
  // The server's answers

  /** The server has accepted the attach request. */
  ghost predicate Accepted(es: seq<Step>, n: nat, a: nat)
    requires n <= |es|
  {
    exists k :: 0 <= k < n && es[k] == AttachResponds(a, true)
  }

  lemma AttachStep(s: State, e: Step, a: nat)
    requires Enabled(s, e) && a < |Next(s, e).attaches|
    ensures Next(s, e).attaches[a] == Succeeded <==>
            (a < |s.attaches| && s.attaches[a] == Succeeded) || e == AttachResponds(a, true)
    ensures |s.attaches| <= |Next(s, e).attaches|
  {
    hide NextTokens, NextDetaches;
  }

  lemma {:induction false} SucceededMeansAccepted(ss: seq<State>, es: seq<Step>, n: nat, a: nat)
    requires Run(ss, es) && n < |ss|
    ensures a < |ss[n].attaches| && ss[n].attaches[a] == Succeeded <==> Accepted(es, n, a)
  {
    hide Enabled, Next;
    if n > 0 {
      SucceededMeansAccepted(ss, es, n - 1, a);
      RunsOn(ss, es, n - 1);
      AttachesStay(ss[n - 1], es[n - 1], a);
      if a < |ss[n].attaches| {
        AttachStep(ss[n - 1], es[n - 1], a);
      }
    }
  }

  lemma AttachesStay(s: State, e: Step, a: nat)
    requires Enabled(s, e)
    ensures |s.attaches| <= |Next(s, e).attaches|
    ensures e == AttachResponds(a, true) ==> a < |s.attaches|
  {
    hide NextTokens, NextDetaches;
  }

  /** The session shows as attached. */
  predicate Shows(e: Step) {
    e == CreateArrives || e.AttachShows? || (e.AttachResponds? && e.ok)
  }

  predicate Hides(e: Step) {
    e == SessionRemoved || e == Connect || e == Disconnect || (e.DetachResponds? && e.ok)
  }

  ghost predicate ShownSince(es: seq<Step>, n: nat)
    requires n <= |es|
  {
    exists k :: 0 <= k < n && Shows(es[k]) && forall l :: k < l < n ==> !Hides(es[l])
  }

  lemma ShownOneMore(es: seq<Step>, n: nat)
    requires n < |es|
    ensures ShownSince(es, n + 1) <==> Shows(es[n]) || (ShownSince(es, n) && !Hides(es[n]))
  {
    hide Shows, Hides;
    if Shows(es[n]) {
      assert 0 <= n < n + 1 && Shows(es[n]);
    }
    if ShownSince(es, n) && !Hides(es[n]) {
      var k :| 0 <= k < n && Shows(es[k]) && forall l :: k < l < n ==> !Hides(es[l]);
      assert 0 <= k < n + 1 && Shows(es[k]);
    }
  }

  lemma ShowStep(s: State, e: Step)
    requires Enabled(s, e)
    ensures Next(s, e).attached <==> Shows(e) || (s.attached && !Hides(e))
  {
    hide NextTokens, NextAttaches, NextDetaches;
  }

  /** A session shows as attached if and only if it was created, or an attach took effect, and it was not removed or
      detached nor the connection lost since. */
  lemma {:induction false} AttachedIff(ss: seq<State>, es: seq<Step>, n: nat)
    requires Run(ss, es) && n < |ss|
    ensures ss[n].attached <==> ShownSince(es, n)
  {
    hide Enabled, Next, ShownSince, Shows, Hides;
    if n == 0 {
      assert !ShownSince(es, 0) by {
        NotShownYet(es);
      }
    } else {
      AttachedIff(ss, es, n - 1);
      RunsOn(ss, es, n - 1);
      ShowStep(ss[n - 1], es[n - 1]);
      ShownOneMore(es, n - 1);
    }
  }

  lemma NotShownYet(es: seq<Step>)
    ensures !ShownSince(es, 0)
  {
  }

  // ---------------------------------------------------------------------------------------
  // Where a lease comes from

  predicate IsLease(s: State, t: nat) {
    t < |s.tokens| && s.tokens[t].phase.Active?
  }

  lemma LeaseFrom(s: State, e: Step, t: nat)
    requires Enabled(s, e) && IsLease(Next(s, e), t) && !IsLease(s, t)
    ensures || (e.Acquire? && t == |s.tokens| && s.attached && s.detachment.None?)
            || (e == ResumeAfterDetach(t) && s.attached)
            || (e == ResumeAfterAttach(t) && t < |s.tokens| && s.tokens[t].phase.WaitAttach? && s.tokens[t].phase.attach < |s.attaches|
                && s.attaches[s.tokens[t].phase.attach] == Succeeded)
            || (e == CreateReserves && t == |s.tokens|)
            || (e == ResumeRelease(t) && s.tokens[t].phase.Releasing?)
  {
    assert t < |s.tokens| ==> Next(s, e).tokens[t] == NextToken(s, e, t, s.tokens[t]);
    assert t >= |s.tokens| ==> t == |s.tokens| && Reserves(s, e) && Next(s, e).tokens[t] == NewToken(s, e);
  }

  /** A lease comes from a look at a session that shows as attached; or from the wait for an attach that the server has
      accepted; or from the creation of the session. Apart from that only a lease whose release failed becomes one
      again. */
  lemma LeasesAreAttached(ss: seq<State>, es: seq<Step>, n: nat, t: nat)
    requires Run(ss, es) && n < |es| && IsLease(ss[n + 1], t) && !IsLease(ss[n], t)
    ensures || ((es[n].Acquire? || es[n] == ResumeAfterDetach(t)) && ShownSince(es, n))
            || (es[n] == ResumeAfterAttach(t) && ss[n].tokens[t].phase.WaitAttach? && Accepted(es, n, ss[n].tokens[t].phase.attach))
            || es[n] == CreateReserves
            || (es[n] == ResumeRelease(t) && ss[n].tokens[t].phase.Releasing?)
  {
    hide Enabled, Next, IsLease, ShownSince, Accepted;
    RunsOn(ss, es, n);
    LeaseFrom(ss[n], es[n], t);
    AttachedIff(ss, es, n);
    if es[n] == ResumeAfterAttach(t) {
      SucceededMeansAccepted(ss, es, n, ss[n].tokens[t].phase.attach);
    }
  }

  /** An acquirer whose attach is settled has its lease if the server has accepted the attach. Otherwise it has given
      up, and its place is given back. */
  lemma AttachLeadsTo(ss: seq<State>, es: seq<Step>, n: nat, t: nat)
    requires Run(ss, es) && n < |es| && es[n] == ResumeAfterAttach(t)
    ensures t < |ss[n].tokens| == |ss[n + 1].tokens| && ss[n].tokens[t].phase.WaitAttach?
    ensures if Accepted(es, n, ss[n].tokens[t].phase.attach) then
              && ss[n + 1].tokens[t].phase == Active(ss[n].generation)
              && ss[n + 1].count == ss[n].count && ss[n + 1].exclusive == ss[n].exclusive
            else
              && ss[n + 1].tokens[t].phase == GivenUp
              && ss[n + 1].count == (if ss[n].count <= 1 then 0 else ss[n].count - 1)
              && ss[n + 1].exclusive == if ss[n].exclusive == Some(t) then None else ss[n].exclusive
  {
    RunsOn(ss, es, n);
    SettledLeadsTo(ss[n], t);
    hide Enabled, Next, Accepted, Run;
    assert Run(ss, es);
    SucceededMeansAccepted(ss, es, n, ss[n].tokens[t].phase.attach);
  }

  lemma SettledLeadsTo(s: State, t: nat)
    requires Enabled(s, ResumeAfterAttach(t))
    ensures var u := Next(s, ResumeAfterAttach(t));
            && t < |s.tokens| == |u.tokens| && s.tokens[t].phase.WaitAttach? && s.tokens[t].phase.attach < |s.attaches|
            && if s.attaches[s.tokens[t].phase.attach] == Succeeded then
                 u.tokens[t].phase == Active(s.generation) && u.count == s.count && u.exclusive == s.exclusive
               else
                 && u.tokens[t].phase == GivenUp && u.count == (if s.count <= 1 then 0 else s.count - 1)
                 && u.exclusive == if s.exclusive == Some(t) then None else s.exclusive
  {
    assert Next(s, ResumeAfterAttach(t)).tokens[t] == NextToken(s, ResumeAfterAttach(t), t, s.tokens[t]);
  }

  // ---------------------------------------------------------------------------------------
  // What the calls lead to

  /** acquireSession() is refused exactly when there is any reservation for an exclusive lease, or an exclusive one for a
      shared lease. Otherwise it reserves; and it waits for a detach, has its lease, or waits for the one attach that is
      under way, sending it if there is none. */
  lemma AcquireLeadsTo(ss: seq<State>, es: seq<Step>, n: nat, exclusive: bool)
    requires Run(ss, es) && n < |es| && es[n] == Acquire(exclusive)
    ensures var s, u := ss[n], ss[n + 1];
            if (if exclusive then s.count > 0 else s.exclusive.Some?) then
              u.tokens == s.tokens && u.count == s.count && u.exclusive == s.exclusive && u.attaches == s.attaches
            else
              && |u.tokens| == |s.tokens| + 1 && u.tokens[..|s.tokens|] == s.tokens && u.count == s.count + 1
              && u.exclusive == (if exclusive then Some(|s.tokens|) else s.exclusive)
              && u.tokens[|s.tokens|].exclusive == exclusive && u.tokens[|s.tokens|].reservedIn == s.generation
              && u.tokens[|s.tokens|].phase ==
                 (if s.detachment.Some? then WaitDetach(s.detachment.value)
                  else if s.attached then Active(s.generation)
                  else WaitAttach(if s.attachment.Some? then s.attachment.value else |s.attaches|))
              && u.attaches == s.attaches + (if s.detachment.None? && !s.attached && s.attachment.None?
                                             then [if s.connected then InFlight else Failed] else [])
  {
    RunsOn(ss, es, n);
    var s, e := ss[n], es[n];
    assert NextTokens(s, e)[..|s.tokens|] == s.tokens;
    assert !Reserves(s, e) ==> NextTokens(s, e) == s.tokens;
    hide Run, NextDetaches, NextLost, SuccessfulDetaches;
  }

  /** After a detach the acquirer has its lease if the session shows as attached, and otherwise waits for an attach as
      above; its reservation stays. A created session is reserved for its creator alone, or not at all. */
  lemma GoingOnLeadsTo(ss: seq<State>, es: seq<Step>, n: nat, t: nat)
    requires Run(ss, es) && n < |es| && es[n] == ResumeAfterDetach(t)
    ensures t < |ss[n].tokens| == |ss[n + 1].tokens|
    ensures var s, u := ss[n], ss[n + 1];
            && u.tokens[t] == s.tokens[t].(phase := if s.attached then Active(s.generation)
                                                    else WaitAttach(if s.attachment.Some? then s.attachment.value else |s.attaches|))
            && u.attaches == s.attaches + (if !s.attached && s.attachment.None?
                                           then [if s.connected then InFlight else Failed] else [])
            && u.count == s.count && u.exclusive == s.exclusive
  {
    RunsOn(ss, es, n);
    assert ss[n + 1].tokens[t] == NextToken(ss[n], es[n], t, ss[n].tokens[t]);
    hide Run, NextDetaches, NextLost, SuccessfulDetaches;
  }

  lemma CreationLeadsTo(ss: seq<State>, es: seq<Step>, n: nat)
    requires Run(ss, es) && n < |es| && es[n] == CreateReserves
    ensures var s, u := ss[n], ss[n + 1];
            if s.count > 0 then u.tokens == s.tokens && u.count == s.count
            else
              && u.tokens == s.tokens + [Token(true, s.generation, None, Active(s.generation))]
              && u.count == 1 && u.exclusive == Some(|s.tokens|)
  {
    RunsOn(ss, es, n);
    var s, e := ss[n], es[n];
    assert NextTokens(s, e) == s.tokens + if Reserves(s, e) then [NewToken(s, e)] else [];
    hide Run, NextDetaches, NextLost, SuccessfulDetaches;
  }

  /** release() of a lease from before an invalidation only marks it; without a connection or an attached session it
      throws; the last one sends a detach and waits; the others give their place back. */
  lemma ReleaseLeadsTo(ss: seq<State>, es: seq<Step>, n: nat, t: nat)
    requires Run(ss, es) && n < |es| && es[n] == Release(t)
    ensures t < |ss[n].tokens| == |ss[n + 1].tokens| && ss[n].tokens[t].phase.Active?
    ensures var s, u := ss[n], ss[n + 1];
            if s.tokens[t].phase.generation != s.generation then
              u.tokens[t].phase == Invalidated && u.count == s.count && u.detaches == s.detaches
            else if !s.attached || !s.connected then
              u.tokens[t] == s.tokens[t] && u.count == s.count && u.detaches == s.detaches
            else if s.count <= 1 then
              && u.tokens[t].phase == Releasing(s.generation, |s.detaches|) && u.count == s.count
              && u.detaches == s.detaches + [InFlight] && u.detachment == Some(|s.detaches|)
            else
              && u.tokens[t].phase == Released && u.count == s.count - 1 && u.detaches == s.detaches
              && u.exclusive == if s.exclusive == Some(t) then None else s.exclusive
  {
    RunsOn(ss, es, n);
    assert ss[n + 1].tokens[t] == NextToken(ss[n], es[n], t, ss[n].tokens[t]);
    hide Run, NextAttaches, NextLost, SuccessfulDetaches;
  }

  /** When the detach is settled: success gives the place back, and failure leaves the lease as it was, unless it was
      invalidated meanwhile. */
  lemma ReleaseEnds(ss: seq<State>, es: seq<Step>, n: nat, t: nat)
    requires Run(ss, es) && n < |es| && es[n] == ResumeRelease(t)
    ensures t < |ss[n].tokens| == |ss[n + 1].tokens| && ss[n].tokens[t].phase.Releasing?
    ensures ss[n].tokens[t].phase.detach < |ss[n].detaches|
    ensures var s, u, phase := ss[n], ss[n + 1], ss[n].tokens[t].phase;
            && (u.detachment == if s.detachment == Some(phase.detach) then None else s.detachment)
            && if s.detaches[phase.detach] == Succeeded then
                 && u.tokens[t].phase == Released && u.count == (if s.count <= 1 then 0 else s.count - 1)
                 && u.exclusive == if s.exclusive == Some(t) then None else s.exclusive
               else
                 && u.tokens[t].phase == (if phase.generation != s.generation then Invalidated else Active(s.generation))
                 && u.count == s.count && u.exclusive == s.exclusive
  {
    RunsOn(ss, es, n);
    assert ss[n + 1].tokens[t] == NextToken(ss[n], es[n], t, ss[n].tokens[t]);
    hide Run, NextAttaches, NextLost, SuccessfulDetaches;
  }

  /** A removed session, and a lost connection with reservations, begin a new generation with none; a lost connection
      also rejects every request in flight. */
  lemma InvalidationLeadsTo(ss: seq<State>, es: seq<Step>, n: nat)
    requires Run(ss, es) && n < |es|
    ensures es[n] == SessionRemoved || (es[n] == Disconnect && ss[n].count > 0) ==>
              ss[n + 1].count == 0 && ss[n + 1].exclusive == None && ss[n + 1].generation == ss[n].generation + 1
    ensures !(es[n] == SessionRemoved || (es[n] == Disconnect && ss[n].count > 0)) ==> ss[n + 1].generation == ss[n].generation
    ensures es[n] == Disconnect ==>
              InFlight !in ss[n + 1].attaches && InFlight !in ss[n + 1].detaches
  {
    RunsOn(ss, es, n);
    hide Run, NextTokens, NextLost, SuccessfulDetaches;
  }

  /** The answers of the server settle the request they answer, and touch no lease. */
  lemma AnswersSettle(ss: seq<State>, es: seq<Step>, n: nat, p: nat, ok: bool)
    requires Run(ss, es) && n < |es| && (es[n] == AttachResponds(p, ok) || es[n] == DetachResponds(p, ok))
    ensures ss[n].connected && ss[n + 1].tokens == ss[n].tokens && ss[n + 1].count == ss[n].count
    ensures ss[n + 1].attachment == ss[n].attachment && ss[n + 1].detachment == ss[n].detachment
    ensures es[n].AttachResponds? ==>
              && p < |ss[n].attaches| && ss[n].attaches[p] == InFlight && ss[n + 1].detaches == ss[n].detaches
              && ss[n + 1].attaches == ss[n].attaches[p := if ok then Succeeded else Failed]
    ensures es[n].DetachResponds? ==>
              && p < |ss[n].detaches| && ss[n].detaches[p] == InFlight && ss[n + 1].attaches == ss[n].attaches
              && ss[n + 1].detaches == ss[n].detaches[p := if ok then Succeeded else Failed]
  {
    RunsOn(ss, es, n);
    assert NextTokens(ss[n], es[n]) == ss[n].tokens;
    hide Run, NextLost, SuccessfulDetaches;
  }

  /** The attach and the detach that others wait for are the ones sent last, until the one who waited for them has gone
      on. */
  lemma WhatOthersWaitFor(ss: seq<State>, es: seq<Step>, n: nat)
    requires Run(ss, es) && n < |es|
    ensures ss[n + 1].attachment ==
            if |ss[n + 1].attaches| > |ss[n].attaches| then Some(|ss[n].attaches|)
            else if exists t :: SettlesAttachment(ss[n], es[n], t) then None else ss[n].attachment
    ensures ss[n + 1].detachment ==
            if |ss[n + 1].detaches| > |ss[n].detaches| then Some(|ss[n].detaches|)
            else if exists t :: SettlesDetachment(ss[n], es[n], t) then None else ss[n].detachment
    ensures ss[n + 1].connected <==> es[n] == Connect || (ss[n].connected && es[n] != Disconnect)
  {
    RunsOn(ss, es, n);
    if es[n].ResumeAfterAttach? {
      assert SettlesAttachment(ss[n], es[n], es[n].token) <==> ss[n].attachment == Some(ss[n].tokens[es[n].token].phase.attach);
    }
    if es[n].ResumeRelease? {
      assert SettlesDetachment(ss[n], es[n], es[n].token) <==> ss[n].detachment == Some(ss[n].tokens[es[n].token].phase.detach);
    }
    hide Run, NextTokens, NextLost, SuccessfulDetaches;
  }

  predicate SettlesAttachment(s: State, e: Step, t: nat) {
    && e == ResumeAfterAttach(t) && t < |s.tokens| && s.tokens[t].phase.WaitAttach?
    && s.attachment == Some(s.tokens[t].phase.attach)
  }

  predicate SettlesDetachment(s: State, e: Step, t: nat) {
    && e == ResumeRelease(t) && t < |s.tokens| && s.tokens[t].phase.Releasing?
    && s.detachment == Some(s.tokens[t].phase.detach)
  }
}
