/** The imperative code of the client's leases, one method per stretch between two awaits, each proved to be
    the step of Leases that bears its name. */
module SessionLeases {
  import opened Results
  import opened Leases

  /** A step changes one token at most, or adds one. */
  lemma OneToken(s: State, e: Step, t: nat)
    requires Enabled(s, e) && t < |s.tokens| && !Reserves(s, e)
    requires (e.ResumeAfterDetach? || e.ResumeAfterAttach? || e.Release? || e.ResumeRelease?) && e.token == t
    ensures NextTokens(s, e) == s.tokens[t := NextToken(s, e, t, s.tokens[t])]
  {
  }

  lemma NoToken(s: State, e: Step)
    requires Enabled(s, e) && !e.ResumeAfterDetach? && !e.ResumeAfterAttach? && !e.Release? && !e.ResumeRelease?
    ensures NextTokens(s, e) == s.tokens + (if Reserves(s, e) then [NewToken(s, e)] else [])
  {
  }

  /** What the client's maps hold for one session id, and what they lead to. */
  class LeaseTable {
    var leaseCount: nat
    var exclusiveLease: Option<nat>
    var leaseGeneration: nat
    var attachment: Option<nat>
    var detachment: Option<nat>
    var attached: bool
    var connected: bool
    var creating: bool
    var tokens: seq<Token>
    var attaches: seq<Promise>
    var detaches: seq<Promise>
    ghost var releases: multiset<nat>
    ghost var reattached: set<nat>
    ghost var lost: nat

    ghost function Abs(): State
      reads this
    {
      State(leaseCount, exclusiveLease, leaseGeneration, attachment, detachment, attached, connected, creating,
            tokens, attaches, detaches, releases, reattached, lost)
    }

    constructor ()
      ensures Abs() == INITIAL
    {
      leaseCount, exclusiveLease, leaseGeneration, attachment, detachment := 0, None, 0, None, None;
      attached, connected, creating, tokens, attaches, detaches := false, false, false, [], [], [];
      releases, reattached, lost := multiset{}, {}, 0;
    }

    /** Keeps the history of a step that the code itself has just made. */
    ghost method Record(s: State, e: Step)
      requires Enabled(s, e)
      requires leaseCount == NextCount(s, e) && exclusiveLease == NextExclusive(s, e)
      requires leaseGeneration == s.generation + if Invalidates(s, e) then 1 else 0
      requires attachment == NextAttachment(s, e) && detachment == NextDetachment(s, e) && attached == NextAttached(s, e)
      requires connected == ((s.connected || e.Connect?) && !e.Disconnect?)
      requires creating == ((s.creating || e.CreateArrives?) && !e.CreateReserves?)
      requires tokens == NextTokens(s, e) && attaches == NextAttaches(s, e) && detaches == NextDetaches(s, e)
      modifies this`releases, this`reattached, this`lost
      ensures Abs() == Next(s, e)
    {
      var u := Next(s, e);
      releases, reattached, lost := u.releases, u.reattached, u.lost;
    }

    /** The new token's number, or None when it throws. */
    method ReserveSessionLease(exclusive: bool) returns (token: Option<nat>)
      modifies this`leaseCount, this`exclusiveLease
      ensures token == if MayReserve(old(Abs()), exclusive) then Some(|tokens|) else None
      ensures leaseCount == old(leaseCount) + if token.Some? then 1 else 0
      ensures exclusiveLease == if token.Some? && exclusive then token else old(exclusiveLease)
    {
      if exclusive && leaseCount > 0 {
        return None;
      }
      if !exclusive && exclusiveLease.Some? {
        return None;
      }
      leaseCount := leaseCount + 1;
      token := Some(|tokens|);
      if exclusive {
        exclusiveLease := token;
      }
    }

    method ReleaseSessionLease(token: nat)
      modifies this`leaseCount, this`exclusiveLease
      ensures leaseCount == if old(leaseCount) <= 1 then 0 else old(leaseCount) - 1
      ensures exclusiveLease == if old(exclusiveLease) == Some(token) then None else old(exclusiveLease)
    {
      leaseCount := if leaseCount <= 1 then 0 else leaseCount - 1;
      if exclusiveLease == Some(token) {
        exclusiveLease := None;
      }
    }

    method InvalidateSessionLeases()
      modifies this`leaseCount, this`exclusiveLease, this`leaseGeneration
      ensures leaseCount == 0 && exclusiveLease == None && leaseGeneration == old(leaseGeneration) + 1
    {
      leaseCount, exclusiveLease, leaseGeneration := 0, None, leaseGeneration + 1;
    }

    /** acquireSession() once no detach is in its way: a lease at once, or an attach to wait for. */
    method LookAttached() returns (phase: Phase)
      modifies this`attachment, this`attaches
      ensures phase == AfterLook(old(Abs()))
      ensures var sends := !attached && old(attachment).None?;
              && attaches == old(attaches) + (if sends then [if connected then InFlight else Failed] else [])
              && attachment == if sends then Some(|old(attaches)|) else old(attachment)
    {
      if attached {
        return Active(leaseGeneration);
      }
      if attachment == None {
        attachment := Some(|attaches|);
        attaches := attaches + [if connected then InFlight else Failed];
      }
      phase := WaitAttach(attachment.value);
    }

    method AcquireSession(exclusive: bool) returns (token: Option<nat>)
      modifies this
      ensures Abs() == Next(old(Abs()), Acquire(exclusive))
      ensures token == if MayReserve(old(Abs()), exclusive) then Some(|old(tokens)|) else None
    {
      ghost var s, e := Abs(), Acquire(exclusive);
      NoToken(s, e);
      token := ReserveSessionLease(exclusive);
      if token.Some? {
        var phase;
        if detachment.Some? {
          phase := WaitDetach(detachment.value);
        } else {
          phase := LookAttached();
        }
        tokens := tokens + [Token(exclusive, leaseGeneration, detachment, phase)];
      }
      Record(s, e);
    }

    /** The detach that an acquirer waited for is settled. */
    method GoOnAfterDetach(token: nat)
      requires Enabled(Abs(), ResumeAfterDetach(token))
      modifies this
      ensures Abs() == Next(old(Abs()), ResumeAfterDetach(token))
    {
      ghost var s, e := Abs(), ResumeAfterDetach(token);
      OneToken(s, e, token);
      var phase := LookAttached();
      tokens := tokens[token := tokens[token].(phase := phase)];
      Record(s, e);
    }

    /** The attach that an acquirer waited for is settled. */
    method GoOnAfterAttach(token: nat)
      requires Enabled(Abs(), ResumeAfterAttach(token))
      modifies this
      ensures Abs() == Next(old(Abs()), ResumeAfterAttach(token))
    {
      ghost var s, e := Abs(), ResumeAfterAttach(token);
      OneToken(s, e, token);
      var attach := tokens[token].phase.attach;
      assert GivesBack(s, e) <==> attaches[attach] != Succeeded;
      if attachment == Some(attach) {
        attachment := None;
      }
      if attaches[attach] == Succeeded {
        tokens := tokens[token := tokens[token].(phase := Active(leaseGeneration))];
      } else {
        ReleaseSessionLease(token);
        tokens := tokens[token := tokens[token].(phase := GivenUp)];
      }
      Record(s, e);
    }

    /** release() of a lease, up to its first await. */
    method ReleaseLease(token: nat)
      requires Enabled(Abs(), Release(token))
      modifies this
      ensures Abs() == Next(old(Abs()), Release(token))
    {
      ghost var s, e := Abs(), Release(token);
      OneToken(s, e, token);
      if tokens[token].phase.generation != leaseGeneration {
        tokens := tokens[token := tokens[token].(phase := Invalidated)];
      } else if attached && connected {
        if leaseCount <= 1 {
          tokens := tokens[token := tokens[token].(phase := Releasing(leaseGeneration, |detaches|))];
          detachment := Some(|detaches|);
          detaches := detaches + [InFlight];
        } else {
          ReleaseSessionLease(token);
          tokens := tokens[token := tokens[token].(phase := Released)];
        }
      }
      Record(s, e);
    }

    /** The detach that release() waited for is settled. */
    method FinishRelease(token: nat)
      requires Enabled(Abs(), ResumeRelease(token))
      modifies this
      ensures Abs() == Next(old(Abs()), ResumeRelease(token))
    {
      ghost var s, e := Abs(), ResumeRelease(token);
      OneToken(s, e, token);
      var phase := tokens[token].phase;
      assert GivesBack(s, e) <==> detaches[phase.detach] == Succeeded;
      if detaches[phase.detach] == Succeeded {
        ReleaseSessionLease(token);
        tokens := tokens[token := tokens[token].(phase := Released)];
      } else if phase.generation != leaseGeneration {
        tokens := tokens[token := tokens[token].(phase := Invalidated)];
      } else {
        tokens := tokens[token := tokens[token].(phase := Active(leaseGeneration))];
      }
      if detachment == Some(phase.detach) {
        detachment := None;
      }
      Record(s, e);
    }

    method RemoveSession()
      requires Enabled(Abs(), SessionRemoved)
      modifies this
      ensures Abs() == Next(old(Abs()), SessionRemoved)
    {
      ghost var s := Abs();
      NoToken(s, SessionRemoved);
      InvalidateSessionLeases();
      attached := false;
      Record(s, SessionRemoved);
    }

    /** The connection is lost: attachments are cleared, leases invalidated, requests rejected. */
    method LoseConnection()
      requires Enabled(Abs(), Disconnect)
      modifies this
      ensures Abs() == Next(old(Abs()), Disconnect)
    {
      ghost var s := Abs();
      NoToken(s, Disconnect);
      connected, attached := false, false;
      if leaseCount > 0 {
        InvalidateSessionLeases();
      }
      attaches := Reject(attaches);
      detaches := Reject(detaches);
      Record(s, Disconnect);
    }

    method Reject(promises: seq<Promise>) returns (rejected: seq<Promise>)
      ensures rejected == RejectAll(promises)
    {
      rejected := promises;
      for i := 0 to |promises|
        invariant |rejected| == |promises|
        invariant forall p :: 0 <= p < |promises| ==> rejected[p] == if p < i then RejectAll(promises)[p] else promises[p]
      {
        if rejected[i] == InFlight {
          rejected := rejected[i := Failed];
        }
      }
    }
  }
}
