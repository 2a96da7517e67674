/** The client's leases on one session: tokens that are reserved and given back, attach and detach requests
    that several acquirers share, and invalidations that start the counting anew.

    A token stands for one call of acquireSession() or createSession(), and then for the lease it returns.
    Each step is one stretch of code between two awaits. */
module Leases {
  import opened Results

  datatype Promise = InFlight | Succeeded | Failed

  /** Where the call that holds the token stands, or the lease that it became. */
  datatype Phase =
    | WaitDetach(detach: nat)
    | WaitAttach(attach: nat)
    | Active(generation: nat)
    | Releasing(generation: nat, detach: nat)
    | Released
    | GivenUp
    | Invalidated

  datatype Token = Token(exclusive: bool, reservedIn: nat, sawDetach: Option<nat>, phase: Phase)

  datatype State = State(
    count: nat,
    exclusive: Option<nat>,
    generation: nat,
    attachment: Option<nat>,
    detachment: Option<nat>,
    attached: bool,
    connected: bool,
    creating: bool,
    tokens: seq<Token>,
    attaches: seq<Promise>,
    detaches: seq<Promise>,
    // history: what was given back; the detaches that took effect before an attach did; and how many
    // reservations the count has lost
    releases: multiset<nat>,
    reattached: set<nat>,
    lost: nat)

  const INITIAL := State(0, None, 0, None, None, false, false, false, [], [], [], multiset{}, {}, 0)

  datatype Step =
    | Connect
    | Disconnect
    | SessionRemoved
    | CreateArrives
    | CreateReserves
    | Acquire(exclusive: bool)
    | ResumeAfterDetach(token: nat)
    | ResumeAfterAttach(token: nat)
    | Release(token: nat)
    | ResumeRelease(token: nat)
    | AttachResponds(attach: nat, ok: bool)
    | AttachShows(attach: nat)
    | DetachResponds(detach: nat, ok: bool)

  predicate Settled(promises: seq<Promise>, p: nat) {
    p < |promises| && promises[p] != InFlight
  }

  predicate Enabled(s: State, e: Step) {
    match e
    case Connect => !s.connected
    case Disconnect => s.connected
    case SessionRemoved => s.connected
    case CreateArrives => s.connected && s.tokens == [] && !s.attached && !s.creating
    case CreateReserves => s.creating
    case Acquire(_) => true
    case ResumeAfterDetach(t) =>
      t < |s.tokens| && s.tokens[t].phase.WaitDetach? && Settled(s.detaches, s.tokens[t].phase.detach)
    case ResumeAfterAttach(t) =>
      t < |s.tokens| && s.tokens[t].phase.WaitAttach? && Settled(s.attaches, s.tokens[t].phase.attach)
    case Release(t) => t < |s.tokens| && s.tokens[t].phase.Active?
    case ResumeRelease(t) =>
      t < |s.tokens| && s.tokens[t].phase.Releasing? && Settled(s.detaches, s.tokens[t].phase.detach)
    case AttachResponds(a, _) => s.connected && a < |s.attaches| && s.attaches[a] == InFlight
    case AttachShows(a) => s.connected && a < |s.attaches| && s.attaches[a] == InFlight
    case DetachResponds(d, _) => s.connected && d < |s.detaches| && s.detaches[d] == InFlight
  }

  // ---------------------------------------------------------------------------------------
  // What a step does

  /** reserveSessionLease() does not throw. */
  predicate MayReserve(s: State, exclusive: bool) {
    (exclusive ==> s.count == 0) && (!exclusive ==> s.exclusive.None?)
  }

  predicate Reserves(s: State, e: Step) {
    (e.Acquire? && MayReserve(s, e.exclusive)) || (e.CreateReserves? && MayReserve(s, true))
  }

  /** release() gets as far as its count. */
  predicate MayRelease(s: State, t: nat) {
    && t < |s.tokens| && s.tokens[t].phase == Active(s.generation)
    && s.attached && s.connected
  }

  predicate SendsDetach(s: State, e: Step) {
    e.Release? && MayRelease(s, e.token) && s.count <= 1
  }

  /** releaseSessionLease() is called for e.token. */
  predicate GivesBack(s: State, e: Step)
    requires Enabled(s, e)
  {
    || (e.Release? && MayRelease(s, e.token) && s.count > 1)
    || (e.ResumeRelease? && s.detaches[s.tokens[e.token].phase.detach] == Succeeded)
    || (e.ResumeAfterAttach? && s.attaches[s.tokens[e.token].phase.attach] == Failed)
  }

  /** The acquirer looks whether the session is attached. */
  predicate LooksAttached(s: State, e: Step) {
    (e.Acquire? && MayReserve(s, e.exclusive) && s.detachment.None?) || e.ResumeAfterDetach?
  }

  predicate SendsAttach(s: State, e: Step) {
    LooksAttached(s, e) && !s.attached && s.attachment.None?
  }

  predicate Invalidates(s: State, e: Step) {
    e.SessionRemoved? || (e.Disconnect? && s.count > 0)
  }

  function AfterLook(s: State): Phase {
    if s.attached then Active(s.generation)
    else WaitAttach(if s.attachment.Some? then s.attachment.value else |s.attaches|)
  }

  function NextToken(s: State, e: Step, t: nat, token: Token): Token
    requires Enabled(s, e)
  {
    match e
    case ResumeAfterDetach(u) => if t == u then token.(phase := AfterLook(s)) else token
    case ResumeAfterAttach(u) =>
      if t != u || !token.phase.WaitAttach? then token
      else token.(phase := if Settled(s.attaches, token.phase.attach) && s.attaches[token.phase.attach] == Succeeded
                           then Active(s.generation) else GivenUp)
    case Release(u) =>
      if t != u || !token.phase.Active? then token
      else if token.phase.generation != s.generation then token.(phase := Invalidated)
      else if !s.attached || !s.connected then token
      else if s.count <= 1 then token.(phase := Releasing(s.generation, |s.detaches|))
      else token.(phase := Released)
    case ResumeRelease(u) =>
      if t != u || !token.phase.Releasing? then token
      else if Settled(s.detaches, token.phase.detach) && s.detaches[token.phase.detach] == Succeeded
      then token.(phase := Released)
      else if token.phase.generation != s.generation then token.(phase := Invalidated)
      else token.(phase := Active(s.generation))
    case _ => token
  }

  function NewToken(s: State, e: Step): Token
    requires Reserves(s, e)
  {
    if e.CreateReserves? then Token(true, s.generation, None, Active(s.generation))
    else Token(e.exclusive, s.generation, s.detachment,
               if s.detachment.Some? then WaitDetach(s.detachment.value) else AfterLook(s))
  }

  function NextTokens(s: State, e: Step): seq<Token>
    requires Enabled(s, e)
  {
    seq(|s.tokens|, t requires 0 <= t < |s.tokens| => NextToken(s, e, t, s.tokens[t]))
    + (if Reserves(s, e) then [NewToken(s, e)] else [])
  }

  function NextCount(s: State, e: Step): nat
    requires Enabled(s, e)
  {
    if Invalidates(s, e) then 0
    else if Reserves(s, e) then s.count + 1
    else if GivesBack(s, e) then (if s.count <= 1 then 0 else s.count - 1)
    else s.count
  }

  function NextExclusive(s: State, e: Step): Option<nat>
    requires Enabled(s, e)
  {
    if Invalidates(s, e) then None
    else if Reserves(s, e) && NewToken(s, e).exclusive then Some(|s.tokens|)
    else if GivesBack(s, e) && s.exclusive == Some(e.token) then None
    else s.exclusive
  }

  /** Every promise in flight is rejected. */
  function RejectAll(promises: seq<Promise>): seq<Promise> {
    seq(|promises|, p requires 0 <= p < |promises| => if promises[p] == InFlight then Failed else promises[p])
  }

  function NextAttaches(s: State, e: Step): seq<Promise>
    requires Enabled(s, e)
  {
    if e.Disconnect? then RejectAll(s.attaches)
    else if e.AttachResponds? then s.attaches[e.attach := if e.ok then Succeeded else Failed]
    else if SendsAttach(s, e) then s.attaches + [if s.connected then InFlight else Failed]
    else s.attaches
  }

  function NextDetaches(s: State, e: Step): seq<Promise>
    requires Enabled(s, e)
  {
    if e.Disconnect? then RejectAll(s.detaches)
    else if e.DetachResponds? then s.detaches[e.detach := if e.ok then Succeeded else Failed]
    else if SendsDetach(s, e) then s.detaches + [InFlight]
    else s.detaches
  }

  function NextAttachment(s: State, e: Step): Option<nat>
    requires Enabled(s, e)
  {
    if SendsAttach(s, e) then Some(|s.attaches|)
    else if e.ResumeAfterAttach? && s.attachment == Some(s.tokens[e.token].phase.attach) then None
    else s.attachment
  }

  function NextDetachment(s: State, e: Step): Option<nat>
    requires Enabled(s, e)
  {
    if SendsDetach(s, e) then Some(|s.detaches|)
    else if e.ResumeRelease? && s.detachment == Some(s.tokens[e.token].phase.detach) then None
    else s.detachment
  }

  predicate Attaches(e: Step) {
    e.CreateArrives? || e.AttachShows? || (e.AttachResponds? && e.ok)
  }

  function NextAttached(s: State, e: Step): bool {
    if Attaches(e) then true
    else if e.SessionRemoved? || e.Disconnect? || e.Connect? || (e.DetachResponds? && e.ok) then false
    else s.attached
  }

  function SuccessfulDetaches(detaches: seq<Promise>): set<nat> {
    set d: nat | d < |detaches| && detaches[d] == Succeeded
  }

  /** The token was reserved since the last invalidation. */
  predicate IsCurrent(s: State, t: nat) {
    t < |s.tokens| && s.tokens[t].reservedIn == s.generation
  }

  /** A token from before an invalidation takes away somebody else's place in the count; and where none is
      left, one that was reserved since then takes away nothing. */
  function NextLost(s: State, e: Step): nat
    requires Enabled(s, e)
  {
    if Invalidates(s, e) then 0
    else if !GivesBack(s, e) then s.lost
    else if !IsCurrent(s, e.token) && s.count > 0 then s.lost + 1
    else if IsCurrent(s, e.token) && s.count == 0 && s.lost > 0 then s.lost - 1
    else s.lost
  }

  function Next(s: State, e: Step): State
    requires Enabled(s, e)
  {
    State(NextCount(s, e), NextExclusive(s, e), s.generation + (if Invalidates(s, e) then 1 else 0),
          NextAttachment(s, e), NextDetachment(s, e), NextAttached(s, e),
          (s.connected || e.Connect?) && !e.Disconnect?, (s.creating || e.CreateArrives?) && !e.CreateReserves?,
          NextTokens(s, e), NextAttaches(s, e), NextDetaches(s, e),
          if GivesBack(s, e) then s.releases + multiset{e.token} else s.releases,
          if Attaches(e) then SuccessfulDetaches(s.detaches) else s.reattached,
          NextLost(s, e))
  }

  predicate Reserved(s: State, t: nat) {
    IsCurrent(s, t) && !s.tokens[t].phase.Released? && !s.tokens[t].phase.GivenUp?
  }

  /** The reservations since the last invalidation. */
  function Live(s: State): set<nat> {
    set t: nat | t < |s.tokens| && Reserved(s, t)
  }

  ghost predicate Run(ss: seq<State>, es: seq<Step>) {
    && |ss| == |es| + 1
    && ss[0] == INITIAL
    && forall k :: 0 <= k < |es| ==> Enabled(ss[k], es[k]) && ss[k + 1] == Next(ss[k], es[k])
  }

  // ---------------------------------------------------------------------------------------
  // The invariant

  predicate PhaseOk(s: State, token: Token) {
    && token.reservedIn <= s.generation
    && (token.phase.Active? || token.phase.Releasing? ==> token.reservedIn <= token.phase.generation <= s.generation)
    && (token.phase.Invalidated? ==> token.reservedIn < s.generation)
    && (token.phase.WaitAttach? ==> token.phase.attach < |s.attaches|)
    && (token.phase.WaitDetach? ==> token.sawDetach == Some(token.phase.detach))
    && (token.phase.Releasing? ==> token.phase.detach < |s.detaches|)
    && (token.sawDetach.Some? ==> token.sawDetach.value < |s.detaches|)
  }

  ghost predicate PhasesOk(s: State) {
    && (forall t :: 0 <= t < |s.tokens| ==> PhaseOk(s, s.tokens[t]))
    && (s.attachment.Some? ==> s.attachment.value < |s.attaches|)
    && (s.detachment.Some? ==> s.detachment.value < |s.detaches|)
  }

  ghost predicate ReleasedOnce(s: State) {
    forall t: nat :: s.releases[t] ==
      if t < |s.tokens| && (s.tokens[t].phase.Released? || s.tokens[t].phase.GivenUp?) then 1 else 0
  }

  /** Whatever shows as attached was attached after every detach that succeeded. */
  predicate AttachedOk(s: State) {
    && (s.attached ==> s.connected && SuccessfulDetaches(s.detaches) <= s.reattached)
    && s.reattached <= SuccessfulDetaches(s.detaches)
  }

  predicate ExclusiveOk(s: State) {
    s.exclusive.Some? ==> Reserved(s, s.exclusive.value) && s.tokens[s.exclusive.value].exclusive
  }

  /** The count and what it has lost make up the reservations; while it has lost nothing, an exclusive
      reservation is the only one. */
  ghost predicate CountOk(s: State) {
    && s.count + s.lost == |Live(s)|
    && (s.lost == 0 ==> forall t :: t in Live(s) && s.tokens[t].exclusive ==> OnlyOne(s, t))
  }

  predicate OnlyOne(s: State, t: nat) {
    s.exclusive == Some(t) && Live(s) == {t}
  }

  ghost predicate Inv(s: State) {
    PhasesOk(s) && ReleasedOnce(s) && AttachedOk(s) && ExclusiveOk(s) && CountOk(s)
  }

  lemma LiveChanges(s: State, e: Step)
    requires PhasesOk(s) && Enabled(s, e)
    ensures Live(Next(s, e)) ==
            if Invalidates(s, e) then {}
            else if Reserves(s, e) then Live(s) + {|s.tokens|}
            else if GivesBack(s, e) then Live(s) - {e.token}
            else Live(s)
  {
    var u := Next(s, e);
    forall t: nat ensures t in Live(u) <==>
                            !Invalidates(s, e)
                            && ((Reserves(s, e) && t == |s.tokens|)
                                || (t in Live(s) && !(GivesBack(s, e) && !Reserves(s, e) && t == e.token)))
    {
      if t < |s.tokens| {
        assert PhaseOk(s, s.tokens[t]);
        assert u.tokens[t] == NextToken(s, e, t, s.tokens[t]);
      }
    }
  }

  lemma StepKeepsPhases(s: State, e: Step)
    requires PhasesOk(s) && Enabled(s, e)
    ensures PhasesOk(Next(s, e))
  {
    var u := Next(s, e);
    forall t | 0 <= t < |u.tokens| ensures PhaseOk(u, u.tokens[t]) {
      if t < |s.tokens| {
        assert PhaseOk(s, s.tokens[t]);
        assert u.tokens[t] == NextToken(s, e, t, s.tokens[t]);
      }
    }
  }

  lemma StepKeepsReleases(s: State, e: Step)
    requires ReleasedOnce(s) && Enabled(s, e)
    ensures ReleasedOnce(Next(s, e))
  {
    var u := Next(s, e);
    forall t: nat
      ensures u.releases[t] == if t < |u.tokens| && (u.tokens[t].phase.Released? || u.tokens[t].phase.GivenUp?) then 1 else 0
    {
      if t < |s.tokens| {
        assert u.tokens[t] == NextToken(s, e, t, s.tokens[t]);
      }
    }
  }

  lemma StepKeepsAttached(s: State, e: Step)
    requires AttachedOk(s) && Enabled(s, e)
    ensures AttachedOk(Next(s, e))
  {
  }

  lemma StepKeepsExclusive(s: State, e: Step)
    requires PhasesOk(s) && ExclusiveOk(s) && Enabled(s, e)
    ensures ExclusiveOk(Next(s, e))
  {
    LiveChanges(s, e);
    var u := Next(s, e);
    if u.exclusive.Some? {
      var x := u.exclusive.value;
      assert x < |s.tokens| ==> x in Live(s) && u.tokens[x] == NextToken(s, e, x, s.tokens[x]);
      assert x in Live(u);
    }
  }

  lemma GivenBackIsLive(s: State, e: Step)
    requires PhasesOk(s) && Enabled(s, e) && GivesBack(s, e)
    ensures e.Release? || e.ResumeRelease? || e.ResumeAfterAttach?
    ensures e.token in Live(s) <==> IsCurrent(s, e.token)
  {
    assert PhaseOk(s, s.tokens[e.token]);
  }

  lemma StepKeepsNumber(s: State, e: Step)
    requires PhasesOk(s) && Enabled(s, e) && s.count + s.lost == |Live(s)|
    ensures Next(s, e).count + Next(s, e).lost == |Live(Next(s, e))|
  {
    assert |s.tokens| !in Live(s) && Next(s, e).count == NextCount(s, e) && Next(s, e).lost == NextLost(s, e);
    hide Enabled, Next, Live, PhasesOk, Invalidates, Reserves, GivesBack, IsCurrent;
    LiveChanges(s, e);
    if !Reserves(s, e) && GivesBack(s, e) {
      GivenBackIsLive(s, e);
    }
  }

  lemma OldOneStays(s: State, e: Step, t: nat)
    requires PhasesOk(s) && Enabled(s, e) && s.count == |Live(s)| && OnlyOne(s, t) && t in Live(Next(s, e))
    ensures OnlyOne(Next(s, e), t)
  {
    assert Next(s, e).exclusive == NextExclusive(s, e);
    assert |{t}| == 1 && (Reserves(s, e) ==> s.count == 0 || s.exclusive.None?);
    hide Next, Enabled, Live, PhasesOk, Reserves, GivesBack, Invalidates, NewToken;
    LiveChanges(s, e);
  }

  lemma NewOneIsAlone(s: State, e: Step)
    requires PhasesOk(s) && Enabled(s, e) && s.count == |Live(s)| && Reserves(s, e) && NewToken(s, e).exclusive
    ensures OnlyOne(Next(s, e), |s.tokens|)
  {
    assert Next(s, e).exclusive == NextExclusive(s, e) && s.count == 0 && !Invalidates(s, e);
    hide Next, Enabled, Live, PhasesOk, Reserves, GivesBack, Invalidates, NewToken;
    LiveChanges(s, e);
    assert Live(s) == {};
  }

  lemma WasReserved(s: State, e: Step, t: nat)
    requires Enabled(s, e) && t < |Next(s, e).tokens|
    ensures t < |s.tokens| ==> Next(s, e).tokens[t].exclusive == s.tokens[t].exclusive
    ensures t >= |s.tokens| ==> t == |s.tokens| && Reserves(s, e) && Next(s, e).tokens[t] == NewToken(s, e)
  {
    assert t < |s.tokens| ==> Next(s, e).tokens[t] == NextToken(s, e, t, s.tokens[t]);
  }

  lemma ExclusiveStays(s: State, e: Step, t: nat)
    requires PhasesOk(s) && ExclusiveOk(s) && CountOk(s) && Enabled(s, e) && s.lost == 0 && Next(s, e).lost == 0
    requires t in Live(Next(s, e)) && Next(s, e).tokens[t].exclusive
    ensures OnlyOne(Next(s, e), t)
  {
    hide Next, Enabled, PhasesOk, Reserves, GivesBack, Invalidates, NewToken, OnlyOne, ExclusiveOk, Reserved;
    WasReserved(s, e, t);
    if t < |s.tokens| {
      LiveChanges(s, e);
      assert t in Live(s);
      OldOneStays(s, e, t);
    } else {
      NewOneIsAlone(s, e);
    }
  }

  /** The count has lost nothing any more only when there is nothing to lose. */
  lemma LossEndsEmpty(s: State, e: Step)
    requires PhasesOk(s) && Enabled(s, e) && s.count + s.lost == |Live(s)| && s.lost > 0 && Next(s, e).lost == 0
    ensures Live(Next(s, e)) == {}
  {
    StepKeepsNumber(s, e);
    LiveChanges(s, e);
    assert Next(s, e).lost == NextLost(s, e);
    if !Invalidates(s, e) {
      assert GivesBack(s, e) && s.count == 0;
      assert Next(s, e).count == 0;
    }
  }

  lemma StepKeepsCount(s: State, e: Step)
    requires PhasesOk(s) && ExclusiveOk(s) && CountOk(s) && Enabled(s, e)
    ensures CountOk(Next(s, e))
  {
    StepKeepsNumber(s, e);
    var u := Next(s, e);
    if s.lost > 0 && u.lost == 0 {
      LossEndsEmpty(s, e);
    }
    forall t | u.lost == 0 && t in Live(u) && u.tokens[t].exclusive ensures OnlyOne(u, t) {
      ExclusiveStays(s, e, t);
    }
    hide Next, Enabled, Live, OnlyOne;
  }

  lemma {:induction false} EveryRunKeepsInv(ss: seq<State>, es: seq<Step>, n: nat)
    requires Run(ss, es) && n < |ss|
    ensures Inv(ss[n])
  {
    if n > 0 {
      EveryRunKeepsInv(ss, es, n - 1);
      var s, e := ss[n - 1], es[n - 1];
      StepKeepsPhases(s, e);
      StepKeepsReleases(s, e);
      StepKeepsAttached(s, e);
      StepKeepsExclusive(s, e);
      StepKeepsCount(s, e);
    }
    hide Next, Enabled;
  }

  // ---------------------------------------------------------------------------------------
  // The count

  /** In every state of every run the count and what it has lost make up the reservations since the last
      invalidation. So it is right if and only if it has lost nothing; and then an exclusive reservation is
      the only one. */
  lemma CountIsReservationsIff(ss: seq<State>, es: seq<Step>, n: nat)
    requires Run(ss, es) && n < |ss|
    ensures ss[n].count + ss[n].lost == |Live(ss[n])|
    ensures ss[n].lost == 0 ==> forall t :: t in Live(ss[n]) && ss[n].tokens[t].exclusive ==> OnlyOne(ss[n], t)
  {
    EveryRunKeepsInv(ss, es, n);
  }

  /** Somebody's place in the count is taken away: a token from before the last invalidation is given back while the
      count is positive. */
  predicate TakesAPlace(s: State, e: Step) {
    Enabled(s, e) && GivesBack(s, e) && !IsCurrent(s, e.token) && s.count > 0
  }

  /** A reservation is given back that has no place in the count any more. */
  predicate HasNoPlace(s: State, e: Step) {
    Enabled(s, e) && GivesBack(s, e) && IsCurrent(s, e.token) && s.count == 0
  }

  /** How often the one happened since the last invalidation, before step n. */
  function Taken(ss: seq<State>, es: seq<Step>, n: nat): nat
    requires n <= |es| < |ss|
  {
    if n == 0 || Invalidates(ss[n - 1], es[n - 1]) then 0
    else Taken(ss, es, n - 1) + if TakesAPlace(ss[n - 1], es[n - 1]) then 1 else 0
  }

  /** How often the other did. */
  function Placeless(ss: seq<State>, es: seq<Step>, n: nat): nat
    requires n <= |es| < |ss|
  {
    if n == 0 || Invalidates(ss[n - 1], es[n - 1]) then 0
    else Placeless(ss, es, n - 1) + if HasNoPlace(ss[n - 1], es[n - 1]) then 1 else 0
  }

  /** In step k a place was taken away, and nothing was invalidated since. */
  predicate WasTaken(ss: seq<State>, es: seq<Step>, k: nat, n: nat)
    requires n <= |es| < |ss|
  {
    k < n && TakesAPlace(ss[k], es[k]) && forall l :: k < l < n ==> !Invalidates(ss[l], es[l])
  }

  lemma {:induction false} TakenOnce(ss: seq<State>, es: seq<Step>, n: nat)
    requires n <= |es| < |ss| && Taken(ss, es, n) > 0
    ensures exists k: nat :: WasTaken(ss, es, k, n)
  {
    hide Invalidates, TakesAPlace;
    if TakesAPlace(ss[n - 1], es[n - 1]) {
      assert WasTaken(ss, es, n - 1, n);
    } else {
      TakenOnce(ss, es, n - 1);
      var k: nat :| WasTaken(ss, es, k, n - 1);
      assert WasTaken(ss, es, k, n);
    }
  }

  /** What the count has lost: the places taken away since the last invalidation, less those whose reservations were
      given back themselves. So it has lost something only after a token from before the last invalidation was given
      back. */
  lemma {:induction false} WhatIsLost(ss: seq<State>, es: seq<Step>, n: nat)
    requires Run(ss, es) && n < |ss|
    ensures ss[n].lost + Placeless(ss, es, n) == Taken(ss, es, n)
    ensures ss[n].lost > 0 ==> exists k: nat :: WasTaken(ss, es, k, n)
  {
    if n > 0 {
      WhatIsLost(ss, es, n - 1);
      EveryRunKeepsInv(ss, es, n - 1);
      LossChanges(ss[n - 1], es[n - 1]);
    }
    if Taken(ss, es, n) > 0 {
      TakenOnce(ss, es, n);
    }
    hide Enabled, Next, Invalidates, TakesAPlace, HasNoPlace, Inv, WasTaken;
  }

  lemma LossChanges(s: State, e: Step)
    requires Inv(s) && Enabled(s, e)
    ensures Next(s, e).lost == if Invalidates(s, e) then 0
                               else s.lost + (if TakesAPlace(s, e) then 1 else 0) - (if HasNoPlace(s, e) then 1 else 0)
    ensures !(TakesAPlace(s, e) && HasNoPlace(s, e))
  {
    if GivesBack(s, e) {
      GivenBackIsLive(s, e);
      assert IsCurrent(s, e.token) ==> e.token in Live(s) && |Live(s)| > 0;
    }
    assert CountOk(s);
    hide Live, PhasesOk;
  }

  /** What makes it wrong: giving back keeps a right count right if and only if the token was reserved since
      the last invalidation, or there is no reservation at all. */
  lemma GivingBackKeepsTheCountIff(ss: seq<State>, es: seq<Step>, n: nat)
    requires Run(ss, es) && n < |es| && ss[n].lost == 0 && GivesBack(ss[n], es[n])
    ensures ss[n + 1].count == |Live(ss[n + 1])| <==> IsCurrent(ss[n], es[n].token) || ss[n].count == 0
  {
    EveryRunKeepsInv(ss, es, n);
    EveryRunKeepsInv(ss, es, n + 1);
    assert ss[n + 1].lost == NextLost(ss[n], es[n]);
    hide Next, Enabled, Inv;
    assert CountOk(ss[n + 1]) && CountOk(ss[n]);
  }

  /** Each token is given back at most once, whatever happens. */
  lemma GivenBackOnce(ss: seq<State>, es: seq<Step>, n: nat, t: nat)
    requires Run(ss, es) && n < |ss|
    ensures ss[n].releases[t] <= 1
    ensures ss[n].releases[t] == 1 <==>
            t < |ss[n].tokens| && (ss[n].tokens[t].phase.Released? || ss[n].tokens[t].phase.GivenUp?)
  {
    EveryRunKeepsInv(ss, es, n);
  }

  // ---------------------------------------------------------------------------------------
  // Detaching

  /** A detach is sent while there is no other reservation if and only if the count and what it has lost say
      so: a count that is right, and a lease that was reserved since the last invalidation or is the only
      thing left. */
  lemma DetachOnlyForTheLastIff(ss: seq<State>, es: seq<Step>, n: nat)
    requires Run(ss, es) && n < |es| && SendsDetach(ss[n], es[n])
    ensures var s, t := ss[n], es[n].token;
            && (Live(s) <= {t} <==> s.count + s.lost <= if IsCurrent(s, t) then 1 else 0)
            && (s.lost == 0 ==> (Live(s) <= {t} <==> IsCurrent(s, t) || s.count == 0))
  {
    EveryRunKeepsInv(ss, es, n);
    var s, t := ss[n], es[n].token;
    assert t in Live(s) <==> IsCurrent(s, t);
    if t in Live(s) {
      assert Live(s) == (Live(s) - {t}) + {t};
    }
    hide Next, Enabled, Run, Inv;
    assert CountOk(s) by {
      EveryRunKeepsInv(ss, es, n);
    }
  }

  // ---------------------------------------------------------------------------------------
  // Attaching again

  predicate BecomesLease(a: Token, b: Token) {
    b.phase.Active? && (a.phase.WaitDetach? || a.phase.WaitAttach?)
  }

  /** The detach is settled, and if it took effect, then an attach took effect later. */
  predicate Reattached(s: State, d: nat) {
    Settled(s.detaches, d) && (s.detaches[d] == Succeeded ==> d in s.reattached)
  }

  /** The acquirer, going on after its detach, is about to share an attach that took effect before. */
  predicate Premature(s: State, t: nat) {
    && t < |s.tokens| && s.tokens[t].sawDetach.Some? && s.tokens[t].sawDetach.value < |s.detaches|
    && !s.attached && s.attachment.Some? && s.attachment.value < |s.attaches|
    && s.attaches[s.attachment.value] == Succeeded
    && s.detaches[s.tokens[t].sawDetach.value] == Succeeded && s.tokens[t].sawDetach.value !in s.reattached
  }

  /** It waits for an attach that takes effect, if at all, after its detach did. */
  predicate WaitsWell(s: State, t: nat) {
    && t < |s.tokens| && s.tokens[t].phase.WaitAttach? && s.tokens[t].phase.attach < |s.attaches|
    && s.tokens[t].sawDetach.Some? && Settled(s.detaches, s.tokens[t].sawDetach.value)
    && (s.attaches[s.tokens[t].phase.attach] == Succeeded ==> Reattached(s, s.tokens[t].sawDetach.value))
  }

  predicate WaitsNoMore(s: State, t: nat) {
    t < |s.tokens| && !s.tokens[t].phase.WaitDetach? && !s.tokens[t].phase.WaitAttach?
  }

  ghost predicate LeasesEarly(ss: seq<State>, es: seq<Step>, n: nat, t: nat) {
    && n < |es| && |ss| == |es| + 1 && t < |ss[n].tokens| && t < |ss[n + 1].tokens|
    && BecomesLease(ss[n].tokens[t], ss[n + 1].tokens[t])
    && ss[n].tokens[t].sawDetach.Some? && !Reattached(ss[n], ss[n].tokens[t].sawDetach.value)
  }

  lemma SettledStays(s: State, e: Step, d: nat)
    requires AttachedOk(s) && Enabled(s, e) && Settled(s.detaches, d)
    ensures Settled(Next(s, e).detaches, d) && Next(s, e).detaches[d] == s.detaches[d]
    ensures Reattached(s, d) ==> Reattached(Next(s, e), d)
    ensures Attaches(e) ==> Reattached(Next(s, e), d)
  {
  }

  lemma WaitsOn(s: State, e: Step, t: nat)
    requires AttachedOk(s) && Enabled(s, e) && WaitsWell(s, t)
    ensures WaitsWell(Next(s, e), t) || WaitsNoMore(Next(s, e), t)
  {
    var d := s.tokens[t].sawDetach.value;
    SettledStays(s, e, d);
    assert Next(s, e).tokens[t] == NextToken(s, e, t, s.tokens[t]);
    assert s.tokens[t].phase.attach < |NextAttaches(s, e)|;
    assert NextAttaches(s, e)[s.tokens[t].phase.attach] == Succeeded ==>
             s.attaches[s.tokens[t].phase.attach] == Succeeded || Attaches(e);
    hide NextAttaches, NextDetaches, Reattached, Settled;
  }

  lemma StopsForGood(s: State, e: Step, t: nat)
    requires Enabled(s, e) && WaitsNoMore(s, t)
    ensures WaitsNoMore(Next(s, e), t)
  {
    assert Next(s, e).tokens[t] == NextToken(s, e, t, s.tokens[t]);
  }

  /** How the acquirer goes on after its detach. */
  lemma GoesOn(s: State, t: nat)
    requires PhasesOk(s) && AttachedOk(s) && Enabled(s, ResumeAfterDetach(t)) && !Premature(s, t)
    ensures var u := Next(s, ResumeAfterDetach(t)); WaitsWell(u, t) || WaitsNoMore(u, t)
    ensures s.attached ==> Reattached(s, s.tokens[t].phase.detach)
    ensures s.tokens[t].sawDetach == Some(s.tokens[t].phase.detach)
  {
    var e := ResumeAfterDetach(t);
    assert PhaseOk(s, s.tokens[t]);
    assert Next(s, e).tokens[t] == NextToken(s, e, t, s.tokens[t]);
    SettledStays(s, e, s.tokens[t].phase.detach);
  }

  lemma {:induction false} WaitsWellThroughout(ss: seq<State>, es: seq<Step>, m: nat, n: nat, t: nat)
    requires Run(ss, es) && m < n < |ss| && es[m] == ResumeAfterDetach(t) && !Premature(ss[m], t)
    ensures WaitsWell(ss[n], t) || WaitsNoMore(ss[n], t)
    decreases n
  {
    EveryRunKeepsInv(ss, es, n - 1);
    if n == m + 1 {
      GoesOn(ss[m], t);
    } else {
      WaitsWellThroughout(ss, es, m, n - 1, t);
      if WaitsWell(ss[n - 1], t) {
        WaitsOn(ss[n - 1], es[n - 1], t);
      } else {
        StopsForGood(ss[n - 1], es[n - 1], t);
      }
    }
    hide Next, Enabled, WaitsWell, WaitsNoMore;
  }

  lemma NeverEarly(ss: seq<State>, es: seq<Step>, m: nat, n: nat, t: nat)
    requires Run(ss, es) && m <= n < |es| && es[m] == ResumeAfterDetach(t) && !Premature(ss[m], t)
    ensures !LeasesEarly(ss, es, n, t)
  {
    EveryRunKeepsInv(ss, es, n);
    if t < |ss[n].tokens| {
      assert ss[n + 1].tokens[t] == NextToken(ss[n], es[n], t, ss[n].tokens[t]);
      if n == m {
        GoesOn(ss[m], t);
      } else {
        WaitsWellThroughout(ss, es, m, n, t);
      }
    }
    hide Inv, Run;
  }

  /** The run shares its first steps, up to step m, with another one. */
  ghost predicate Extends(ss: seq<State>, es: seq<Step>, m: nat, longer: seq<State>, steps: seq<Step>) {
    && Run(longer, steps) && m + 1 < |ss| && m < |es|
    && ss[..m + 2] <= longer && es[..m + 1] <= steps
  }

  ghost predicate EarlyLeaseFollows(ss: seq<State>, es: seq<Step>, m: nat, t: nat) {
    exists longer, steps, n: nat :: Extends(ss, es, m, longer, steps) && m <= n && LeasesEarly(longer, steps, n, t)
  }

  lemma GoesOnEarly(s: State, t: nat)
    requires PhasesOk(s) && Enabled(s, ResumeAfterDetach(t)) && Premature(s, t)
    ensures var u := Next(s, ResumeAfterDetach(t));
            && Enabled(u, ResumeAfterAttach(t)) && t < |u.tokens| && t < |Next(u, ResumeAfterAttach(t)).tokens|
            && BecomesLease(u.tokens[t], Next(u, ResumeAfterAttach(t)).tokens[t])
            && u.tokens[t].sawDetach.Some? && !Reattached(u, u.tokens[t].sawDetach.value)
  {
    assert PhaseOk(s, s.tokens[t]);
    var u := Next(s, ResumeAfterDetach(t));
    assert u.tokens[t] == NextToken(s, ResumeAfterDetach(t), t, s.tokens[t]);
    assert Next(u, ResumeAfterAttach(t)).tokens[t] == NextToken(u, ResumeAfterAttach(t), t, u.tokens[t]);
  }

  lemma PrematureLeases(ss: seq<State>, es: seq<Step>, m: nat, t: nat)
    requires Run(ss, es) && m < |es| && es[m] == ResumeAfterDetach(t) && Premature(ss[m], t)
    ensures EarlyLeaseFollows(ss, es, m, t)
  {
    hide Next, Enabled, Premature, Reattached, BecomesLease, PhaseOk;
    EveryRunKeepsInv(ss, es, m);
    GoesOnEarly(ss[m], t);
    var u, e := ss[m + 1], ResumeAfterAttach(t);
    var longer, steps := ss[..m + 2] + [Next(u, e)], es[..m + 1] + [e];
    forall k | 0 <= k < |steps| ensures Enabled(longer[k], steps[k]) && longer[k + 1] == Next(longer[k], steps[k]) {
      if k < m + 1 {
        assert longer[k] == ss[k] && longer[k + 1] == ss[k + 1] && steps[k] == es[k];
      }
    }
    assert Extends(ss, es, m, longer, steps) && LeasesEarly(longer, steps, m + 1, t);
  }

  /** An acquirer that met a detach gets its lease, in every continuation of the run, only after that detach was
      settled and, if it took effect, after a later attach took effect: if and only if it does not, when it
      goes on after the detach, share an attach that took effect before. */
  lemma LeaseWaitsForReattachIff(ss: seq<State>, es: seq<Step>, m: nat, t: nat)
    requires Run(ss, es) && m < |es| && es[m] == ResumeAfterDetach(t)
    ensures EarlyLeaseFollows(ss, es, m, t) <==> Premature(ss[m], t)
  {
    if Premature(ss[m], t) {
      PrematureLeases(ss, es, m, t);
    } else {
      forall longer, steps, n: nat | Extends(ss, es, m, longer, steps) && m <= n < |steps| ensures !LeasesEarly(longer, steps, n, t) {
        assert longer[m] == ss[..m + 2][m] && steps[m] == es[..m + 1][m];
        NeverEarly(longer, steps, m, n, t);
      }
    }
  }

  /** No acquirer goes on after a detach before those whose attach took effect earlier have gone on. */
  ghost predicate InOrder(ss: seq<State>, es: seq<Step>) {
    forall k, t, u: nat :: 0 <= k < |es| && k < |ss| && es[k] == ResumeAfterDetach(t) ==> !Overtakes(ss[k], t, u)
  }

  predicate Overtakes(s: State, t: nat, u: nat) {
    && t < |s.tokens| && s.tokens[t].phase.WaitDetach? && Settled(s.detaches, s.tokens[t].phase.detach)
    && u < |s.tokens| && s.tokens[u].phase.WaitAttach? && s.tokens[u].phase.attach < |s.attaches|
    && s.attaches[s.tokens[u].phase.attach] == Succeeded && !Reattached(s, s.tokens[t].phase.detach)
  }

  ghost predicate SomebodyWaits(s: State) {
    s.attachment.Some? ==> exists u: nat :: u < |s.tokens| && s.tokens[u].phase == WaitAttach(s.attachment.value)
  }

  lemma {:induction false} SomebodyAlwaysWaits(ss: seq<State>, es: seq<Step>, n: nat)
    requires Run(ss, es) && n < |ss|
    ensures SomebodyWaits(ss[n])
  {
    if n > 0 && ss[n].attachment.Some? {
      SomebodyAlwaysWaits(ss, es, n - 1);
      var s, e := ss[n - 1], es[n - 1];
      if SendsAttach(s, e) {
        var u := if e.ResumeAfterDetach? then e.token else |s.tokens|;
        assert u < |s.tokens| ==> ss[n].tokens[u] == NextToken(s, e, u, s.tokens[u]);
        assert ss[n].tokens[u].phase == WaitAttach(ss[n].attachment.value);
      } else {
        var u: nat :| u < |s.tokens| && s.tokens[u].phase == WaitAttach(s.attachment.value);
        assert ss[n].tokens[u] == NextToken(s, e, u, s.tokens[u]);
      }
    }
  }

  ghost predicate MetWell(s: State, t: nat) {
    t < |s.tokens| && s.tokens[t].sawDetach.Some? ==> s.tokens[t].phase.WaitDetach? || WaitsWell(s, t) || WaitsNoMore(s, t)
  }

  lemma StepKeepsMetWell(s: State, e: Step, t: nat)
    requires PhasesOk(s) && AttachedOk(s) && Enabled(s, e) && MetWell(s, t) && (e == ResumeAfterDetach(t) ==> !Premature(s, t))
    ensures MetWell(Next(s, e), t)
  {
    hide WaitsWell, WaitsNoMore, PhasesOk, AttachedOk, Premature;
    if t >= |s.tokens| || s.tokens[t].sawDetach.None? {
      assert t < |s.tokens| ==> Next(s, e).tokens[t] == NextToken(s, e, t, s.tokens[t]);
    } else if e == ResumeAfterDetach(t) {
      GoesOn(s, t);
    } else if s.tokens[t].phase.WaitDetach? {
      assert Next(s, e).tokens[t] == NextToken(s, e, t, s.tokens[t]);
    } else if WaitsWell(s, t) {
      WaitsOn(s, e, t);
    } else {
      StopsForGood(s, e, t);
    }
  }

  lemma InOrderIsNotPremature(ss: seq<State>, es: seq<Step>, n: nat, t: nat)
    requires Run(ss, es) && InOrder(ss, es) && n < |es| && es[n] == ResumeAfterDetach(t)
    ensures !Premature(ss[n], t)
  {
    EveryRunKeepsInv(ss, es, n);
    SomebodyAlwaysWaits(ss, es, n);
    var s := ss[n];
    assert Enabled(s, es[n]) && PhaseOk(s, s.tokens[t]);
    if s.attachment.Some? {
      var u: nat :| u < |s.tokens| && s.tokens[u].phase == WaitAttach(s.attachment.value);
      assert Premature(s, t) ==> Overtakes(s, t, u);
    }
    hide Next, Inv;
  }

  lemma {:induction false} InOrderMeetsWell(ss: seq<State>, es: seq<Step>, n: nat, t: nat)
    requires Run(ss, es) && InOrder(ss, es) && n < |ss|
    ensures MetWell(ss[n], t)
  {
    if n > 0 {
      InOrderMeetsWell(ss, es, n - 1, t);
      EveryRunKeepsInv(ss, es, n - 1);
      if es[n - 1] == ResumeAfterDetach(t) {
        InOrderIsNotPremature(ss, es, n - 1, t);
      }
      StepKeepsMetWell(ss[n - 1], es[n - 1], t);
    }
    hide Next, Enabled, MetWell, Premature, InOrder;
  }

  /** In a run in order no lease is early, whoever holds it. */
  lemma NoLeaseIsEarlyInOrder(ss: seq<State>, es: seq<Step>, n: nat, t: nat)
    requires Run(ss, es) && InOrder(ss, es)
    ensures !LeasesEarly(ss, es, n, t)
  {
    if n < |es| && t < |ss[n].tokens| {
      InOrderMeetsWell(ss, es, n, t);
      EveryRunKeepsInv(ss, es, n);
      assert ss[n + 1].tokens[t] == NextToken(ss[n], es[n], t, ss[n].tokens[t]);
      if es[n] == ResumeAfterDetach(t) {
        InOrderIsNotPremature(ss, es, n, t);
        GoesOn(ss[n], t);
      }
    }
    hide Run, Inv, InOrder;
  }

  // ---------------------------------------------------------------------------------------
  // Two runs that fail. Both begin with a session that is removed while the first acquirer waits for its attach

  predicate Takes(s: State, e: Step, u: State) {
    Enabled(s, e) && u == Next(s, e)
  }

  lemma TakesMakeARun(ss: seq<State>, es: seq<Step>)
    requires |ss| == |es| + 1 && ss[0] == INITIAL && forall k :: 0 <= k < |es| ==> Takes(ss[k], es[k], ss[k + 1])
    ensures Run(ss, es)
  {
    forall k | 0 <= k < |es| ensures Enabled(ss[k], es[k]) && ss[k + 1] == Next(ss[k], es[k]) {
      assert Takes(ss[k], es[k], ss[k + 1]);
    }
    hide Next, Enabled;
  }

  /** When the lease is there, the session is not attached again. */
  lemma Early(ss: seq<State>, es: seq<Step>, n: nat, t: nat)
    requires n < |es| && |ss| == |es| + 1 && t < |ss[n].tokens| && t < |ss[n + 1].tokens|
    requires ss[n].tokens[t].phase.WaitAttach? && ss[n + 1].tokens[t].phase.Active?
    requires ss[n].tokens[t].sawDetach.Some? && !Reattached(ss[n], ss[n].tokens[t].sawDetach.value)
    ensures LeasesEarly(ss, es, n, t)
  {
  }

  const WAITS := Token(false, 0, None, WaitAttach(0))
  const OLD := Token(false, 0, None, Active(1))
  const CURRENT := Token(false, 1, None, Active(1))
  const CONNECTED := INITIAL.(connected := true)
  const WAITING := CONNECTED.(count := 1, attachment := Some(0), tokens := [WAITS], attaches := [InFlight])
  const REMOVED := WAITING.(count := 0, generation := 1)

  lemma FirstAcquirer()
    ensures Takes(INITIAL, Connect, CONNECTED)
    ensures Takes(CONNECTED, Acquire(false), WAITING)
  {
    assert NextTokens(INITIAL, Connect) == [];
    assert NextTokens(CONNECTED, Acquire(false)) == [WAITS];
  }

  lemma Removal()
    ensures Takes(WAITING, SessionRemoved, REMOVED)
  {
    assert NextTokens(WAITING, SessionRemoved) == [WAITS];
  }

  const JOINED := REMOVED.(count := 1, tokens := [WAITS, Token(false, 1, None, WaitAttach(0))])
  const ATTACHED := JOINED.(attached := true, attaches := [Succeeded])
  const ONE_LEASE := ATTACHED.(attachment := None, tokens := [OLD, Token(false, 1, None, WaitAttach(0))])
  const TWO_LEASES := ONE_LEASE.(tokens := [OLD, CURRENT])

  lemma BothShareTheAttach()
    ensures Takes(REMOVED, Acquire(false), JOINED)
    ensures Takes(JOINED, AttachResponds(0, true), ATTACHED)
  {
    assert NextTokens(REMOVED, Acquire(false)) == JOINED.tokens;
    assert NextTokens(JOINED, AttachResponds(0, true)) == JOINED.tokens;
    assert SuccessfulDetaches([]) == {};
  }

  lemma BothGetLeases()
    ensures Takes(ATTACHED, ResumeAfterAttach(0), ONE_LEASE)
    ensures Takes(ONE_LEASE, ResumeAfterAttach(1), TWO_LEASES)
  {
    assert NextTokens(ATTACHED, ResumeAfterAttach(0)) == ONE_LEASE.tokens;
    assert NextTokens(ONE_LEASE, ResumeAfterAttach(1)) == TWO_LEASES.tokens;
  }

  const RELEASING := TWO_LEASES.(tokens := [OLD.(phase := Releasing(1, 0)), CURRENT], detachment := Some(0), detaches := [InFlight])
  const DETACHED := RELEASING.(attached := false, detaches := [Succeeded])
  const WITHOUT := DETACHED.(count := 0, detachment := None, tokens := [OLD.(phase := Released), CURRENT],
                             releases := multiset{0}, lost := 1)

  lemma TheOldLeaseIsReleased()
    ensures Takes(TWO_LEASES, Release(0), RELEASING)
    ensures Takes(RELEASING, DetachResponds(0, true), DETACHED)
    ensures Takes(DETACHED, ResumeRelease(0), WITHOUT)
    ensures SendsDetach(TWO_LEASES, Release(0)) && TWO_LEASES.lost == 0 && TWO_LEASES.count == 1
    ensures Live(TWO_LEASES) == Live(WITHOUT) == {1} && WITHOUT.tokens[1].phase == Active(1)
    ensures WITHOUT.count == 0 && !WITHOUT.attached
  {
    assert NextTokens(TWO_LEASES, Release(0)) == RELEASING.tokens;
    assert NextTokens(RELEASING, DetachResponds(0, true)) == RELEASING.tokens;
    assert NextTokens(DETACHED, ResumeRelease(0)) == WITHOUT.tokens;
  }

  /** The attach succeeds for both acquirers. The old one's lease is not counted, and its release detaches the
      session under the other's lease. */
  lemma AStaleLeaseDetachesAnother() returns (ss: seq<State>, es: seq<Step>)
    ensures Run(ss, es) && |es| == 10
    ensures SendsDetach(ss[7], es[7]) && es[7].token == 0 && ss[7].lost == 0 && ss[7].count == 1
    ensures Live(ss[7]) == Live(ss[10]) == {1} && ss[10].tokens[1].phase == Active(1)
    ensures ss[10].count == 0 && !ss[10].attached
  {
    hide *;
    FirstAcquirer();
    Removal();
    BothShareTheAttach();
    BothGetLeases();
    TheOldLeaseIsReleased();
    ss := [INITIAL, CONNECTED, WAITING, REMOVED, JOINED, ATTACHED, ONE_LEASE, TWO_LEASES, RELEASING, DETACHED, WITHOUT];
    es := [Connect, Acquire(false), SessionRemoved, Acquire(false), AttachResponds(0, true), ResumeAfterAttach(0),
           ResumeAfterAttach(1), Release(0), DetachResponds(0, true), ResumeRelease(0)];
    assert forall k :: 0 <= k < |es| ==> Takes(ss[k], es[k], ss[k + 1]);
    TakesMakeARun(ss, es);
  }

  const SHOWN := REMOVED.(attached := true)
  const ONE_MORE := SHOWN.(count := 1, tokens := [WAITS, CURRENT])
  const DETACHING := ONE_MORE.(tokens := [WAITS, CURRENT.(phase := Releasing(1, 0))], detachment := Some(0), detaches := [InFlight])
  const MEETS := Token(false, 1, Some(0), WaitDetach(0))
  const MET := DETACHING.(count := 2, tokens := DETACHING.tokens + [MEETS])
  const LATE_REPLY := MET.(attaches := [Succeeded])
  const GONE := LATE_REPLY.(attached := false, detaches := [Succeeded])
  const SHARES := GONE.(tokens := DETACHING.tokens + [MEETS.(phase := WaitAttach(0))])
  const EARLY := SHARES.(attachment := None, tokens := DETACHING.tokens + [MEETS.(phase := Active(1))])

  lemma TheAttachmentShows()
    ensures Takes(REMOVED, AttachShows(0), SHOWN)
    ensures Takes(SHOWN, Acquire(false), ONE_MORE)
  {
    assert NextTokens(REMOVED, AttachShows(0)) == SHOWN.tokens;
    assert NextTokens(SHOWN, Acquire(false)) == ONE_MORE.tokens;
    assert SuccessfulDetaches([]) == {};
  }

  lemma AnAcquirerMeetsTheDetach()
    ensures Takes(ONE_MORE, Release(1), DETACHING)
    ensures Takes(DETACHING, Acquire(false), MET)
  {
    assert NextTokens(ONE_MORE, Release(1)) == DETACHING.tokens;
    assert NextTokens(DETACHING, Acquire(false)) == MET.tokens;
  }

  lemma BothRepliesArrive()
    ensures Takes(MET, AttachResponds(0, true), LATE_REPLY)
    ensures Takes(LATE_REPLY, DetachResponds(0, true), GONE)
  {
    assert NextTokens(MET, AttachResponds(0, true)) == MET.tokens;
    assert NextTokens(LATE_REPLY, DetachResponds(0, true)) == MET.tokens;
    assert SuccessfulDetaches([InFlight]) == {};
  }

  lemma TheAcquirerGoesOn()
    ensures Takes(GONE, ResumeAfterDetach(2), SHARES)
    ensures Takes(SHARES, ResumeAfterAttach(2), EARLY)
    ensures Premature(GONE, 2) && |SHARES.tokens| == |EARLY.tokens| == 3
    ensures SHARES.tokens[2].phase.WaitAttach?
    ensures SHARES.tokens[2].sawDetach == Some(0) && !Reattached(SHARES, 0)
    ensures EARLY.tokens[2].phase == Active(EARLY.generation) && !EARLY.attached
  {
    assert NextTokens(GONE, ResumeAfterDetach(2)) == SHARES.tokens;
    assert NextTokens(SHARES, ResumeAfterAttach(2)) == EARLY.tokens;
  }

  /** Why that order is needed: the acquirer that met the detach goes on before those that waited for the old attach,
      shares that attach, and has a lease on a session that the detach left unattached. */
  lemma AnOldAttachIsShared() returns (ss: seq<State>, es: seq<Step>)
    ensures Run(ss, es) && |es| == 11
    ensures es[9] == ResumeAfterDetach(2) && Premature(ss[9], 2) && LeasesEarly(ss, es, 10, 2)
    ensures ss[11].tokens[2].phase == Active(ss[11].generation) && !ss[11].attached
  {
    hide *;
    FirstAcquirer();
    Removal();
    TheAttachmentShows();
    AnAcquirerMeetsTheDetach();
    BothRepliesArrive();
    TheAcquirerGoesOn();
    ss := [INITIAL, CONNECTED, WAITING, REMOVED, SHOWN, ONE_MORE, DETACHING, MET, LATE_REPLY, GONE, SHARES, EARLY];
    es := [Connect, Acquire(false), SessionRemoved, AttachShows(0), Acquire(false), Release(1), Acquire(false),
           AttachResponds(0, true), DetachResponds(0, true), ResumeAfterDetach(2), ResumeAfterAttach(2)];
    assert forall k :: 0 <= k < |es| ==> Takes(ss[k], es[k], ss[k + 1]);
    TakesMakeARun(ss, es);
    Early(ss, es, 10, 2);
  }
}
