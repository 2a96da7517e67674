/** Publication of model catalogues for one provider: refreshes begin and are superseded, their
    publications queue up on a chain of promises, and store writes complete whenever they like.

    Every step below is a stretch of code between two awaits; steps interleave freely. The maps of
    the source are keyed by provider id and each step touches only its own key, so one provider is
    modelled. Instances tell apart provider objects that were registered under that id. */
module ModelPublication {
  import opened Results
  import opened ModelOverlay

  /** `persist` of a publication: left out, null, or a catalogue. */
  datatype Persist = Keep | Delete | Put(catalogue: Catalogue)

  datatype Outcome = Published | Skipped | Errored

  datatype Phase = Queued | Mutating | Settled(outcome: Outcome)

  /** `previous` is the promise found on the chain when publishing. */
  datatype Publication = Publication(
    refresh: nat, persist: Persist, update: Option<Catalogue>, previous: Option<nat>, phase: Phase)

  datatype Refresh = Refresh(
    generation: nat, instance: nat, superseded: bool, cancelled: bool, read: Option<Catalogue>, fetched: bool)

  /** What happened, in order; kept only to state properties. */
  datatype Effect = MutationStarted(publication: nat) | MutationEnded(publication: nat) | Updated(publication: nat, generation: nat)

  datatype State = State(
    generation: nat,
    controller: Option<nat>,
    registered: Option<nat>,
    tail: Option<nat>,
    refreshes: seq<Refresh>,
    publications: seq<Publication>,
    overlays: map<nat, Catalogue>,
    stored: Option<Catalogue>,
    everStored: set<Catalogue>,
    log: seq<Effect>)

  datatype Step =
    | SetProvider(instance: nat)
    | DeleteProvider
    | BeginRefresh
    | ReadStore(refresh: nat)
    | Cancel(refresh: nat)
    | EndRefresh(refresh: nat)
    | Publish(refresh: nat, persist: Persist, update: Option<Catalogue>)
    | Start(publication: nat)
    | StoreReturns(publication: nat, ok: bool, applied: bool)
    | DropTail(publication: nat)

  function Initial(stored: Option<Catalogue>): State {
    State(0, None, None, None, [], [], map[], stored, if stored.Some? then {stored.value} else {}, [])
  }

  // ---------------------------------------------------------------------------------------
  // The steps

  predicate SettledAt(s: State, i: nat)
    requires i < |s.publications|
  {
    s.publications[i].phase.Settled?
  }

  predicate Enabled(s: State, e: Step) {
    match e
    case SetProvider(_) => true
    case DeleteProvider => true
    case BeginRefresh => s.registered.Some?
    case ReadStore(r) => r < |s.refreshes|
    case Cancel(r) => r < |s.refreshes|
    case EndRefresh(r) => r < |s.refreshes|
    case Publish(r, _, _) => r < |s.refreshes|
    case Start(i) =>
      && i < |s.publications| && s.publications[i].phase == Queued
      && (s.publications[i].previous.Some? ==>
            s.publications[i].previous.value < |s.publications| && SettledAt(s, s.publications[i].previous.value))
    case StoreReturns(i, _, _) => i < |s.publications| && s.publications[i].phase == Mutating
    case DropTail(i) => i < |s.publications| && SettledAt(s, i)
  }

  function Superseded(s: State): State {
    s.(generation := s.generation + 1,
       controller := None,
       refreshes := match s.controller
                    case Some(r) =>
                      if r < |s.refreshes| then s.refreshes[r := s.refreshes[r].(superseded := true)] else s.refreshes
                    case None => s.refreshes)
  }

  predicate Aborted(r: Refresh) {
    r.superseded || r.cancelled
  }

  /** The check made before and after the store is touched. */
  predicate MayTakeEffect(s: State, i: nat)
    requires i < |s.publications|
  {
    var r := s.publications[i].refresh;
    r < |s.refreshes| && !Aborted(s.refreshes[r]) && s.generation == s.refreshes[r].generation
  }

  function SetPhase(s: State, i: nat, phase: Phase): State
    requires i < |s.publications|
  {
    s.(publications := s.publications[i := s.publications[i].(phase := phase)])
  }

  function Overlay(s: State, instance: nat): Catalogue {
    if instance in s.overlays then s.overlays[instance] else []
  }

  function ApplyUpdate(s: State, i: nat): State
    requires i < |s.publications| && s.publications[i].refresh < |s.refreshes|
  {
    var p := s.publications[i];
    var done := SetPhase(s, i, Settled(Published));
    match p.update
    case None => done
    case Some(c) =>
      done.(overlays := s.overlays[s.refreshes[p.refresh].instance := c], log := s.log + [Updated(i, s.generation)])
  }

  function ApplyPersist(s: State, persist: Persist): State {
    match persist
    case Keep => s
    case Delete => s.(stored := None)
    case Put(c) => s.(stored := Some(c), everStored := s.everStored + {c})
  }

  function Next(s: State, e: Step): State
    requires Enabled(s, e)
  {
    match e
    case SetProvider(instance) => Superseded(s).(registered := Some(instance))
    case DeleteProvider => Superseded(s).(registered := None)
    case BeginRefresh =>
      var t := Superseded(s);
      t.(refreshes := t.refreshes + [Refresh(t.generation, s.registered.value, false, false, None, false)],
         controller := Some(|t.refreshes|))
    case ReadStore(r) => s.(refreshes := s.refreshes[r := s.refreshes[r].(read := s.stored)])
    case Cancel(r) => s.(refreshes := s.refreshes[r := s.refreshes[r].(cancelled := true)])
    case EndRefresh(r) => if s.controller == Some(r) then s.(controller := None) else s
    case Publish(r, persist, update) =>
      s.(publications := s.publications + [Publication(r, persist, update, s.tail, Queued)],
         tail := Some(|s.publications|),
         refreshes := s.refreshes[r := s.refreshes[r].(fetched := s.refreshes[r].fetched || persist.Put?)])
    case Start(i) =>
      if !MayTakeEffect(s, i) then SetPhase(s, i, Settled(Skipped))
      else if s.publications[i].persist == Keep then ApplyUpdate(s, i)
      else SetPhase(s, i, Mutating).(log := s.log + [MutationStarted(i)])
    case StoreReturns(i, ok, applied) =>
      var t := (if ok || applied then ApplyPersist(s, s.publications[i].persist) else s)
               .(log := s.log + [MutationEnded(i)]);
      if !ok then SetPhase(t, i, Settled(Errored))
      else if !MayTakeEffect(t, i) then SetPhase(t, i, Settled(Skipped))
      else ApplyUpdate(t, i)
    case DropTail(i) => if s.tail == Some(i) then s.(tail := None) else s
  }

  /** A run: any interleaving of steps from the initial state, of any length. */
  ghost predicate Run(ss: seq<State>, es: seq<Step>) {
    && |ss| == |es| + 1
    && (exists stored :: ss[0] == Initial(stored))
    && forall k :: 0 <= k < |es| ==> Enabled(ss[k], es[k]) && ss[k + 1] == Next(ss[k], es[k])
  }

  // ---------------------------------------------------------------------------------------
  // The chain is a FIFO lock

  ghost predicate WellFormed(s: State) {
    && (forall i :: 0 <= i < |s.publications| ==> s.publications[i].refresh < |s.refreshes|)
    && (forall r :: 0 <= r < |s.refreshes| ==> s.refreshes[r].generation <= s.generation)
    && (forall q, r :: 0 <= q < r < |s.refreshes| ==> s.refreshes[q].generation < s.refreshes[r].generation)
    && (forall r :: 0 <= r < |s.refreshes| && s.refreshes[r].generation == s.generation ==>
          s.registered == Some(s.refreshes[r].instance))
  }

  /** Every publication waits for all earlier ones, although it holds only one promise. */
  ghost predicate Chained(s: State) {
    && (forall i, j :: 0 <= j < i < |s.publications| && s.publications[i].previous == None ==> s.publications[j].phase.Settled?)
    && (forall i :: 0 <= i < |s.publications| && s.publications[i].previous.Some? ==>
          s.publications[i].previous.value == i - 1)
    && (forall i, j :: 0 <= j < i < |s.publications| && s.publications[i].phase != Queued ==> s.publications[j].phase.Settled?)
    && (s.tail.Some? ==> s.tail.value == |s.publications| - 1)
    && (s.tail.None? ==> forall j :: 0 <= j < |s.publications| ==> s.publications[j].phase.Settled?)
  }

  ghost predicate Exclusive(s: State) {
    forall i, j :: 0 <= j < i < |s.publications| ==> !(s.publications[i].phase == Mutating && s.publications[j].phase == Mutating)
  }

  ghost predicate EndedBetween(log: seq<Effect>, from: int, to: int, i: nat) {
    exists m :: from < m < to <= |log| && 0 <= m && log[m] == MutationEnded(i)
  }

  /** Store mutations start in publish order, each one after the previous has returned. */
  ghost predicate Serialized(log: seq<Effect>) {
    forall k, m :: 0 <= k < m < |log| && log[k].MutationStarted? && log[m].MutationStarted? ==>
      && log[k].publication < log[m].publication
      && EndedBetween(log, k, m, log[k].publication)
  }

  ghost predicate LogMatchesPhases(s: State) {
    forall k :: 0 <= k < |s.log| && s.log[k].MutationStarted? ==>
      && s.log[k].publication < |s.publications|
      && s.publications[s.log[k].publication].phase != Queued
      && (SettledAt(s, s.log[k].publication) ==> EndedBetween(s.log, k, |s.log|, s.log[k].publication))
  }

  /** An update that came with a store mutation happened after that mutation returned. */
  ghost predicate PersistedFirst(s: State) {
    forall k :: 0 <= k < |s.log| && s.log[k].Updated? ==>
      && s.log[k].publication < |s.publications|
      && SettledAt(s, s.log[k].publication)
      && (s.publications[s.log[k].publication].persist != Keep ==>
            exists m :: 0 <= m < k && s.log[m] == MutationEnded(s.log[k].publication))
  }

  ghost predicate GenerationsGrow(s: State) {
    && (forall k :: 0 <= k < |s.log| && s.log[k].Updated? ==> s.log[k].generation <= s.generation)
    && (forall k, m :: 0 <= k < m < |s.log| && s.log[k].Updated? && s.log[m].Updated? ==>
          s.log[k].generation <= s.log[m].generation)
  }

  ghost predicate ChainInv(s: State) {
    WellFormed(s) && Chained(s) && Serialized(s.log) && LogMatchesPhases(s) && PersistedFirst(s) && GenerationsGrow(s)
  }

  /** A step either leaves the publications alone, appends one, or moves one to a later phase. */
  lemma StepOnPublications(s: State, e: Step)
    requires Enabled(s, e)
    ensures var t := Next(s, e);
            match e
            case Publish(r, persist, update) =>
              && t.publications == s.publications + [Publication(r, persist, update, s.tail, Queued)]
              && t.tail == Some(|s.publications|)
              && t.log == s.log
            case Start(i) =>
              && t.tail == s.tail
              && t.publications == s.publications[i := s.publications[i].(phase := t.publications[i].phase)]
              && t.publications[i].phase != Queued
            case StoreReturns(i, _, _) =>
              && t.tail == s.tail
              && t.publications == s.publications[i := s.publications[i].(phase := t.publications[i].phase)]
              && t.publications[i].phase.Settled?
            case DropTail(i) =>
              t.publications == s.publications && t.log == s.log
              && t.tail == if s.tail == Some(i) then None else s.tail
            case _ =>
              t.publications == s.publications && t.log == s.log && t.tail == s.tail
  {
  }

  lemma StepOnLog(s: State, e: Step)
    requires Enabled(s, e)
    ensures var t := Next(s, e);
            match e
            case Start(i) =>
              if t.publications[i].phase == Mutating then t.log == s.log + [MutationStarted(i)] && MayTakeEffect(s, i)
              else t.log == s.log
                   || (t.log == s.log + [Updated(i, s.generation)] && s.publications[i].persist == Keep && MayTakeEffect(s, i))
            case StoreReturns(i, _, _) =>
              || t.log == s.log + [MutationEnded(i)]
              || (t.log == s.log + [MutationEnded(i), Updated(i, s.generation)] && MayTakeEffect(s, i))
            case _ => t.log == s.log
    ensures s.generation <= Next(s, e).generation
  {
    match e
    case StoreReturns(i, ok, applied) =>
      assert s.log + [MutationEnded(i)] + [Updated(i, s.generation)]
          == s.log + [MutationEnded(i), Updated(i, s.generation)];
    case _ =>
  }

  /** A step leaves the refreshes' generations alone, except that it may open a new one. */
  lemma StepOnRefreshes(s: State, e: Step)
    requires Enabled(s, e)
    ensures var t := Next(s, e);
            && |s.refreshes| <= |t.refreshes|
            && (forall r :: 0 <= r < |s.refreshes| ==>
                  && t.refreshes[r].generation == s.refreshes[r].generation
                  && t.refreshes[r].instance == s.refreshes[r].instance)
            && (e.BeginRefresh? ==>
                  && t.generation == s.generation + 1 && |t.refreshes| == |s.refreshes| + 1
                  && t.refreshes[|s.refreshes|].generation == t.generation
                  && t.registered == s.registered == Some(t.refreshes[|s.refreshes|].instance))
            && (!e.BeginRefresh? ==> |t.refreshes| == |s.refreshes|)
            && (e.SetProvider? || e.DeleteProvider? ==> t.generation == s.generation + 1)
            && (!e.BeginRefresh? && !e.SetProvider? && !e.DeleteProvider? ==>
                  t.generation == s.generation && t.registered == s.registered)
  {
  }

  lemma StepKeepsWellFormed(s: State, e: Step)
    requires WellFormed(s) && Enabled(s, e)
    ensures WellFormed(Next(s, e))
  {
    StepOnPublications(s, e);
    StepOnRefreshes(s, e);
    hide Next;
  }

  lemma EarlierAreSettled(s: State, e: Step)
    requires Chained(s) && Enabled(s, e) && (e.Start? || e.StoreReturns?)
    ensures forall j :: 0 <= j < e.publication ==> s.publications[j].phase.Settled?
  {
  }

  lemma StepKeepsChained(s: State, e: Step)
    requires Chained(s) && Enabled(s, e)
    ensures Chained(Next(s, e))
  {
    StepOnPublications(s, e);
    if e.Start? || e.StoreReturns? {
      EarlierAreSettled(s, e);
    }
    hide Next;
  }

  lemma ChainedIsExclusive(s: State)
    requires Chained(s)
    ensures Exclusive(s)
  {
  }

  lemma StillEnded(log: seq<Effect>, longer: seq<Effect>, from: int, to: int, i: nat)
    requires log <= longer && EndedBetween(log, from, to, i)
    ensures forall until :: to <= until <= |longer| ==> EndedBetween(longer, from, until, i)
  {
    var m :| from < m < to <= |log| && 0 <= m && log[m] == MutationEnded(i);
    assert longer[m] == MutationEnded(i);
  }

  lemma StepKeepsLog(s: State, e: Step)
    requires Chained(s) && Serialized(s.log) && LogMatchesPhases(s) && Enabled(s, e)
    ensures Serialized(Next(s, e).log) && LogMatchesPhases(Next(s, e))
  {
    StepOnPublications(s, e);
    StepOnLog(s, e);
    var t := Next(s, e);
    if e.Start? || e.StoreReturns? {
      EarlierAreSettled(s, e);
    }
    hide Next;
    forall k | 0 <= k < |t.log| && t.log[k].MutationStarted?
      ensures t.log[k].publication < |t.publications|
      ensures t.publications[t.log[k].publication].phase != Queued
      ensures SettledAt(t, t.log[k].publication) ==> EndedBetween(t.log, k, |t.log|, t.log[k].publication)
    {
      if k < |s.log| {
        var i := s.log[k].publication;
        if SettledAt(s, i) {
          StillEnded(s.log, t.log, k, |s.log|, i);
        } else if SettledAt(t, i) {
          assert e.StoreReturns? && t.log[|s.log|] == MutationEnded(i);
        }
      }
    }
    forall k, m | 0 <= k < m < |t.log| && t.log[k].MutationStarted? && t.log[m].MutationStarted?
      ensures t.log[k].publication < t.log[m].publication
      ensures EndedBetween(t.log, k, m, t.log[k].publication)
    {
      if m < |s.log| {
        StillEnded(s.log, t.log, k, m, s.log[k].publication);
      } else {
        var i := s.log[k].publication;
        assert e.Start? && s.publications[i].phase != Queued && i != e.publication;
        assert i < e.publication && SettledAt(s, i);
        StillEnded(s.log, t.log, k, |s.log|, i);
      }
    }
  }

  lemma StepKeepsOrder(s: State, e: Step)
    requires PersistedFirst(s) && GenerationsGrow(s) && Enabled(s, e)
    ensures PersistedFirst(Next(s, e)) && GenerationsGrow(Next(s, e))
  {
    StepOnPublications(s, e);
    StepOnLog(s, e);
    var t := Next(s, e);
    hide Next;
    forall k | 0 <= k < |t.log| && t.log[k].Updated?
      ensures t.log[k].publication < |t.publications| && SettledAt(t, t.log[k].publication)
      ensures t.publications[t.log[k].publication].persist != Keep ==>
                exists m :: 0 <= m < k && t.log[m] == MutationEnded(t.log[k].publication)
    {
      if k < |s.log| {
        var i := s.log[k].publication;
        if s.publications[i].persist != Keep {
          var m :| 0 <= m < k && s.log[m] == MutationEnded(i);
          assert t.log[m] == MutationEnded(i);
        }
      } else if e.StoreReturns? {
        assert t.log[|s.log|] == MutationEnded(e.publication);
      }
    }
  }

  lemma InitialChain(stored: Option<Catalogue>)
    ensures ChainInv(Initial(stored))
  {
  }

  /** In every run, at every moment: at most one store mutation is in flight, mutations start in
      publish order and each only after the one before it returned, updates that come with a mutation
      follow it, and the generations of effective updates never decrease. */
  lemma {:induction false} EveryRunKeepsTheChain(ss: seq<State>, es: seq<Step>, n: nat)
    requires Run(ss, es) && n < |ss|
    ensures ChainInv(ss[n]) && Exclusive(ss[n])
  {
    if n == 0 {
      var stored :| ss[0] == Initial(stored);
      InitialChain(stored);
    } else {
      EveryRunKeepsTheChain(ss, es, n - 1);
      var s, e := ss[n - 1], es[n - 1];
      StepKeepsWellFormed(s, e);
      StepKeepsChained(s, e);
      StepKeepsLog(s, e);
      StepKeepsOrder(s, e);
      hide Next;
    }
    ChainedIsExclusive(ss[n]);
  }

  // ---------------------------------------------------------------------------------------
  // Nothing stale takes effect

  predicate IsEffect(f: Effect) {
    f.MutationStarted? || f.Updated?
  }

  /** The generation of the refresh that published what a log entry is about. */
  function GenerationOf(s: State, i: nat): nat {
    if i < |s.publications| && s.publications[i].refresh < |s.refreshes|
    then s.refreshes[s.publications[i].refresh].generation else 0
  }

  /** From s on, only publications of the generation current in s or of a later one take effect. */
  ghost predicate OnlyFreshEffects(s: State, t: State) {
    && s.generation <= t.generation
    && |s.refreshes| <= |t.refreshes| && |s.publications| <= |t.publications|
    && (forall r :: 0 <= r < |s.refreshes| ==> t.refreshes[r].generation == s.refreshes[r].generation)
    && (forall i :: 0 <= i < |s.publications| ==> t.publications[i].refresh == s.publications[i].refresh)
    && s.log <= t.log
    && (forall k :: |s.log| <= k < |t.log| && IsEffect(t.log[k]) ==>
          t.log[k].publication < |t.publications| && GenerationOf(t, t.log[k].publication) >= s.generation)
  }

  lemma OneStepIsFresh(s: State, e: Step)
    requires WellFormed(s) && Enabled(s, e)
    ensures OnlyFreshEffects(s, Next(s, e))
  {
    StepOnPublications(s, e);
    StepOnLog(s, e);
    StepOnRefreshes(s, e);
    var t := Next(s, e);
    hide Next;
    forall k | |s.log| <= k < |t.log| && IsEffect(t.log[k])
      ensures t.log[k].publication < |t.publications| && GenerationOf(t, t.log[k].publication) >= s.generation
    {
      assert (e.Start? || e.StoreReturns?) && t.log[k].publication == e.publication && MayTakeEffect(s, e.publication);
    }
  }

  lemma FreshnessComposes(s: State, t: State, u: State)
    requires WellFormed(s) && WellFormed(t) && OnlyFreshEffects(s, t) && OnlyFreshEffects(t, u)
    ensures OnlyFreshEffects(s, u)
  {
    forall k | |s.log| <= k < |u.log| && IsEffect(u.log[k])
      ensures u.log[k].publication < |u.publications| && GenerationOf(u, u.log[k].publication) >= s.generation
    {
      if k < |t.log| {
        assert u.log[k] == t.log[k];
        assert GenerationOf(u, t.log[k].publication) == GenerationOf(t, t.log[k].publication);
      }
    }
  }

  lemma {:induction false} RunIsFresh(ss: seq<State>, es: seq<Step>, m: nat, n: nat)
    requires Run(ss, es) && m <= n < |ss|
    ensures OnlyFreshEffects(ss[m], ss[n])
    decreases n - m
  {
    EveryRunKeepsTheChain(ss, es, m);
    if m < n {
      RunIsFresh(ss, es, m, n - 1);
      EveryRunKeepsTheChain(ss, es, n - 1);
      OneStepIsFresh(ss[n - 1], es[n - 1]);
      FreshnessComposes(ss[m], ss[n - 1], ss[n]);
    }
  }

  /** Once a refresh is superseded, none of its publications ever starts a store mutation or updates
      the catalogue again, in any continuation of the run. */
  lemma NothingStaleTakesEffect(ss: seq<State>, es: seq<Step>, m: nat, n: nat, refresh: nat)
    requires Run(ss, es) && m <= n < |ss|
    requires refresh < |ss[m].refreshes| && ss[m].refreshes[refresh].generation < ss[m].generation
    ensures ss[m].log <= ss[n].log
    ensures forall k :: |ss[m].log| <= k < |ss[n].log| && IsEffect(ss[n].log[k]) ==>
              && ss[n].log[k].publication < |ss[n].publications|
              && ss[n].publications[ss[n].log[k].publication].refresh != refresh
  {
    RunIsFresh(ss, es, m, n);
    EveryRunKeepsTheChain(ss, es, n);
  }

  // ---------------------------------------------------------------------------------------
  // What takes effect

  /** The refresh has begun, and since then nothing has superseded or cancelled it. */
  ghost predicate CurrentSince(ss: seq<State>, es: seq<Step>, n: nat, refresh: nat)
    requires n <= |es| < |ss|
  {
    exists b :: 0 <= b < n && es[b] == BeginRefresh && |ss[b].refreshes| == refresh && forall l :: b < l < n ==> !Stops(es[l], refresh)
  }

  predicate Stops(e: Step, refresh: nat) {
    e.SetProvider? || e == DeleteProvider || e == BeginRefresh || e == Cancel(refresh)
  }

  predicate Current(s: State, refresh: nat) {
    && refresh < |s.refreshes| && s.refreshes[refresh].generation == s.generation
    && !s.refreshes[refresh].superseded && !s.refreshes[refresh].cancelled
  }

  lemma CurrentStep(s: State, e: Step, refresh: nat)
    requires WellFormed(s) && Enabled(s, e)
    ensures Current(Next(s, e), refresh) <==>
            (e == BeginRefresh && refresh == |s.refreshes|) || (Current(s, refresh) && !Stops(e, refresh))
  {
  }

  lemma CurrentOneMore(ss: seq<State>, es: seq<Step>, n: nat, refresh: nat)
    requires n < |es| < |ss|
    ensures CurrentSince(ss, es, n + 1, refresh) <==>
            (es[n] == BeginRefresh && refresh == |ss[n].refreshes|) || (CurrentSince(ss, es, n, refresh) && !Stops(es[n], refresh))
  {
    hide Stops;
    if es[n] == BeginRefresh && refresh == |ss[n].refreshes| {
      assert 0 <= n < n + 1 && es[n] == BeginRefresh && |ss[n].refreshes| == refresh;
    }
    if CurrentSince(ss, es, n, refresh) && !Stops(es[n], refresh) {
      var b :| 0 <= b < n && es[b] == BeginRefresh && |ss[b].refreshes| == refresh && forall l :: b < l < n ==> !Stops(es[l], refresh);
      assert 0 <= b < n + 1 && es[b] == BeginRefresh && |ss[b].refreshes| == refresh;
    }
  }

  lemma {:induction false} CurrentMeans(ss: seq<State>, es: seq<Step>, n: nat, refresh: nat)
    requires Run(ss, es) && n < |ss|
    ensures Current(ss[n], refresh) <==> CurrentSince(ss, es, n, refresh)
  {
    hide Next, Enabled, Current, CurrentSince, Stops, ChainInv;
    if n == 0 {
      NothingIsCurrent(ss, es, refresh);
    } else {
      CurrentMeans(ss, es, n - 1, refresh);
      EveryRunKeepsTheChain(ss, es, n - 1);
      ChainIsWellFormed(ss[n - 1]);
      CurrentStep(ss[n - 1], es[n - 1], refresh);
      CurrentOneMore(ss, es, n - 1, refresh);
    }
  }

  lemma ChainIsWellFormed(s: State)
    requires ChainInv(s)
    ensures WellFormed(s)
  {
  }

  lemma NothingIsCurrent(ss: seq<State>, es: seq<Step>, refresh: nat)
    requires |es| < |ss| && exists stored :: ss[0] == Initial(stored)
    ensures !Current(ss[0], refresh) && !CurrentSince(ss, es, 0, refresh)
  {
  }

  /** A provider is registered under the id, with the last object that was set, until it is deleted; a refresh belongs to
      the object that is registered when it begins, and begins uncancelled. */
  lemma RegistrationLeadsTo(ss: seq<State>, es: seq<Step>, n: nat)
    requires Run(ss, es) && n < |es|
    ensures ss[n + 1].registered == if es[n].SetProvider? then Some(es[n].instance) else if es[n] == DeleteProvider then None
                                    else ss[n].registered
    ensures es[n] == BeginRefresh ==>
              && ss[n].registered.Some? && |ss[n + 1].refreshes| == |ss[n].refreshes| + 1
              && var r := ss[n + 1].refreshes[|ss[n].refreshes|];
                 r.instance == ss[n].registered.value && !r.cancelled && !r.superseded
  {
    assert Enabled(ss[n], es[n]) && ss[n + 1] == Next(ss[n], es[n]);
    hide Run;
  }

  predicate Supersedes(e: Step) {
    e.SetProvider? || e == DeleteProvider || e == BeginRefresh
  }

  /** Setting or deleting a provider and beginning a refresh abort the refresh that is under way, raise the generation, and
      leave none under way but the one that begins. A refresh that ends is under way no more, and takes no other with it. */
  lemma SupersedingLeadsTo(ss: seq<State>, es: seq<Step>, n: nat)
    requires Run(ss, es) && n < |es|
    ensures ss[n + 1].generation == ss[n].generation + if Supersedes(es[n]) then 1 else 0
    ensures ss[n + 1].controller ==
            if es[n] == BeginRefresh then Some(|ss[n].refreshes|)
            else if Supersedes(es[n]) || (es[n].EndRefresh? && ss[n].controller == Some(es[n].refresh)) then None
            else ss[n].controller
  {
    assert Enabled(ss[n], es[n]) && ss[n + 1] == Next(ss[n], es[n]);
    hide Run, ApplyPersist, MayTakeEffect;
  }

  /** A refresh is aborted when it is superseded while under way or cancelled, and reads the store as it is then. */
  lemma AbortingLeadsTo(ss: seq<State>, es: seq<Step>, n: nat, r: nat)
    requires Run(ss, es) && n < |es| && r < |ss[n].refreshes|
    ensures r < |ss[n + 1].refreshes|
    ensures ss[n + 1].refreshes[r].superseded <==>
            ss[n].refreshes[r].superseded || (Supersedes(es[n]) && ss[n].controller == Some(r))
    ensures ss[n + 1].refreshes[r].cancelled <==> ss[n].refreshes[r].cancelled || es[n] == Cancel(r)
    ensures es[n] == ReadStore(r) ==> ss[n + 1].refreshes[r].read == ss[n].stored
  {
    assert Enabled(ss[n], es[n]) && ss[n + 1] == Next(ss[n], es[n]);
    hide Run, ApplyPersist, MayTakeEffect;
  }

  /** A publication queues up behind the last one that is still awaited, and is the last one then, until its own turn is
      over. */
  lemma PublishingLeadsTo(ss: seq<State>, es: seq<Step>, n: nat)
    requires Run(ss, es) && n < |es|
    ensures forall r: nat, persist, update :: es[n] == Publish(r, persist, update) ==>
              && ss[n + 1].publications == ss[n].publications + [Publication(r, persist, update, ss[n].tail, Queued)]
              && ss[n + 1].tail == Some(|ss[n].publications|)
    ensures forall i: nat :: es[n] == DropTail(i) ==>
              && ss[n + 1].tail == (if ss[n].tail == Some(i) then None else ss[n].tail)
              && i < |ss[n].publications| && ss[n].publications[i].phase.Settled?
    ensures forall i: nat :: es[n] == Start(i) ==>
              && i < |ss[n].publications| && ss[n].publications[i].phase == Queued
              && forall k :: 0 <= k < i ==> ss[n].publications[k].phase.Settled?
  {
    EveryRunKeepsTheChain(ss, es, n);
    assert Enabled(ss[n], es[n]) && ss[n + 1] == Next(ss[n], es[n]);
    StepOnPublications(ss[n], es[n]);
    if es[n].Start? {
      EarlierAreSettled(ss[n], es[n]);
    }
    hide Run, Next, Exclusive, WellFormed, Serialized, LogMatchesPhases, PersistedFirst, GenerationsGrow;
  }

  /** When a publication's turn comes, it takes effect if and only if nothing has superseded or cancelled its refresh
      since that began: it updates the catalogue of the registered provider, or first has the store called. The check is
      made again when the store has answered. */
  lemma TakesEffectIff(ss: seq<State>, es: seq<Step>, n: nat, i: nat)
    requires Run(ss, es) && n < |es| && i < |ss[n].publications|
    ensures i < |ss[n + 1].publications|
    ensures es[n] == Start(i) ==>
              var p, current := ss[n].publications[i], CurrentSince(ss, es, n, ss[n].publications[i].refresh);
              && ss[n + 1].publications[i].phase == (if !current then Settled(Skipped) else if p.persist == Keep then Settled(Published)
                                                     else Mutating)
              && ss[n + 1].overlays == Updates(ss[n], p.update, current && p.persist == Keep)
    ensures forall ok, applied :: es[n] == StoreReturns(i, ok, applied) ==>
              var p, current := ss[n].publications[i], CurrentSince(ss, es, n, ss[n].publications[i].refresh);
              && ss[n + 1].publications[i].phase == Settled(if !ok then Errored else if current then Published else Skipped)
              && ss[n + 1].overlays == Updates(ss[n], p.update, ok && current)
  {
    CurrentMeans(ss, es, n, ss[n].publications[i].refresh);
    EveryRunKeepsTheChain(ss, es, n);
    ChainIsWellFormed(ss[n]);
    assert Enabled(ss[n], es[n]) && ss[n + 1] == Next(ss[n], es[n]);
    hide Run, ChainInv, CurrentSince, Next, WellFormed, Current, Enabled;
    SlotStays(ss[n], es[n], i);
    if es[n] == Start(i) {
      StartEffect(ss[n], i);
    }
    forall ok, applied | es[n] == StoreReturns(i, ok, applied)
      ensures ss[n + 1].publications[i].phase
           == Settled(if !ok then Errored else if CurrentSince(ss, es, n, ss[n].publications[i].refresh) then Published else Skipped)
      ensures ss[n + 1].overlays
           == Updates(ss[n], ss[n].publications[i].update, ok && CurrentSince(ss, es, n, ss[n].publications[i].refresh))
    {
      ReturnEffect(ss[n], i, ok, applied);
    }
  }

  lemma SlotStays(s: State, e: Step, i: nat)
    requires Enabled(s, e) && i < |s.publications|
    ensures i < |Next(s, e).publications|
  {
    StepOnPublications(s, e);
    hide Next;
  }

  /** The catalogues that are visible once the update, if it takes effect, has been made. */
  function Updates(s: State, update: Option<Catalogue>, effective: bool): map<nat, Catalogue> {
    if effective && update.Some? && s.registered.Some? then s.overlays[s.registered.value := update.value] else s.overlays
  }

  lemma StartEffect(s: State, i: nat)
    requires WellFormed(s) && Enabled(s, Start(i)) && i < |s.publications|
    ensures i < |Next(s, Start(i)).publications|
    ensures var p, current, t := s.publications[i], Current(s, s.publications[i].refresh), Next(s, Start(i));
            && t.publications[i].phase == (if !current then Settled(Skipped) else if p.persist == Keep then Settled(Published)
                                           else Mutating)
            && t.overlays == Updates(s, p.update, current && p.persist == Keep)
  {
    hide ApplyPersist;
    assert MayTakeEffect(s, i) <==> Current(s, s.publications[i].refresh);
  }

  lemma ReturnEffect(s: State, i: nat, ok: bool, applied: bool)
    requires WellFormed(s) && Enabled(s, StoreReturns(i, ok, applied)) && i < |s.publications|
    ensures i < |Next(s, StoreReturns(i, ok, applied)).publications|
    ensures var p, current, t := s.publications[i], Current(s, s.publications[i].refresh), Next(s, StoreReturns(i, ok, applied));
            && t.publications[i].phase == Settled(if !ok then Errored else if current then Published else Skipped)
            && t.overlays == Updates(s, p.update, ok && current)
  {
    assert MayTakeEffect(s, i) <==> Current(s, s.publications[i].refresh);
    var t := (if ok || applied then ApplyPersist(s, s.publications[i].persist) else s).(log := s.log + [MutationEnded(i)]);
    assert MayTakeEffect(t, i) <==> MayTakeEffect(s, i);
    assert t.overlays == s.overlays && t.publications == s.publications && t.refreshes == s.refreshes && t.registered == s.registered;
    hide ApplyPersist, MayTakeEffect, Current;
  }

  // ---------------------------------------------------------------------------------------
  // What was superseded can still be stored

  /** The store call of publication i returns, and what it persists has reached the store. */
  predicate Stores(e: Step, i: nat) {
    e.StoreReturns? && e.publication == i && (e.ok || e.applied)
  }

  /** What the store holds afterwards. */
  function Persisted(stored: Option<Catalogue>, persist: Persist): Option<Catalogue> {
    match persist
    case Keep => stored
    case Delete => None
    case Put(c) => Some(c)
  }

  ghost predicate MutatesFor(s: State, i: nat, refresh: nat) {
    i < |s.publications| && s.publications[i].phase == Mutating && s.publications[i].refresh == refresh
  }

  lemma OnlyStoringStores(s: State, e: Step)
    requires Enabled(s, e)
    ensures Next(s, e).stored == if e.StoreReturns? && Stores(e, e.publication)
                                 then Persisted(s.stored, s.publications[e.publication].persist) else s.stored
  {
  }

  lemma MutatingFrom(s: State, e: Step, i: nat, refresh: nat)
    requires WellFormed(s) && Enabled(s, e) && MutatesFor(Next(s, e), i, refresh)
    ensures refresh < |s.refreshes|
    ensures MutatesFor(s, i, refresh) || s.refreshes[refresh].generation == s.generation
  {
  }

  predicate Stale(s: State, refresh: nat) {
    refresh < |s.refreshes| && s.refreshes[refresh].generation < s.generation
  }

  lemma StaysStale(ss: seq<State>, es: seq<Step>, m: nat, n: nat, refresh: nat)
    requires Run(ss, es) && m <= n < |ss| && Stale(ss[m], refresh)
    ensures WellFormed(ss[n]) && Stale(ss[n], refresh)
  {
    hide Next, Enabled, Run;
    EveryRunKeepsTheChain(ss, es, n);
    RunIsFresh(ss, es, m, n);
  }

  lemma {:induction false} StaleWasMutating(ss: seq<State>, es: seq<Step>, m: nat, n: nat, i: nat, refresh: nat)
    requires Run(ss, es) && m <= n < |ss| && Stale(ss[m], refresh) && MutatesFor(ss[n], i, refresh)
    ensures MutatesFor(ss[m], i, refresh)
    decreases n
  {
    hide Next, Enabled, MutatesFor, WellFormed;
    if m < n {
      StaysStale(ss, es, m, n - 1, refresh);
      MutatingFrom(ss[n - 1], es[n - 1], i, refresh);
      StaleWasMutating(ss, es, m, n - 1, i, refresh);
    }
  }

  /** A later step stores what publication i of the refresh persists, in some continuation of the run from step m. */
  ghost predicate StoredLater(ss: seq<State>, es: seq<Step>, m: nat, i: nat, refresh: nat)
    requires m < |ss| && m <= |es|
  {
    exists longer, steps, n: nat :: Continues(ss, es, m, longer, steps) && StoresAt(longer, steps, m, n, i, refresh)
  }

  ghost predicate Continues(ss: seq<State>, es: seq<Step>, m: nat, longer: seq<State>, steps: seq<Step>)
    requires m < |ss| && m <= |es|
  {
    Run(longer, steps) && ss[..m + 1] <= longer && es[..m] <= steps
  }

  ghost predicate StoresAt(ss: seq<State>, es: seq<Step>, m: nat, n: nat, i: nat, refresh: nat) {
    m <= n < |es| < |ss| && Stores(es[n], i) && i < |ss[n].publications| && ss[n].publications[i].refresh == refresh
  }

  lemma MutatingStores(ss: seq<State>, es: seq<Step>, m: nat, i: nat, refresh: nat)
    requires Run(ss, es) && m < |ss| && MutatesFor(ss[m], i, refresh)
    ensures StoredLater(ss, es, m, i, refresh)
  {
    var e := StoreReturns(i, true, true);
    var longer, steps := ss[..m + 1] + [Next(ss[m], e)], es[..m] + [e];
    forall k | 0 <= k < |steps| ensures Enabled(longer[k], steps[k]) && longer[k + 1] == Next(longer[k], steps[k]) {
      if k < m {
        assert longer[k] == ss[k] && longer[k + 1] == ss[k + 1] && steps[k] == es[k];
      }
      hide Next;
    }
    assert Continues(ss, es, m, longer, steps) && StoresAt(longer, steps, m, m, i, refresh);
    hide Next;
  }

  /** Once a refresh is superseded, what a publication of it persists can still reach the store if and only if its
      store call was under way at that moment. */
  lemma StaleReachesTheStoreIff(ss: seq<State>, es: seq<Step>, m: nat, i: nat, refresh: nat)
    requires Run(ss, es) && m < |ss| && Stale(ss[m], refresh)
    ensures StoredLater(ss, es, m, i, refresh) <==> MutatesFor(ss[m], i, refresh)
  {
    if MutatesFor(ss[m], i, refresh) {
      MutatingStores(ss, es, m, i, refresh);
    }
    forall longer, steps, n: nat | Continues(ss, es, m, longer, steps) && StoresAt(longer, steps, m, n, i, refresh)
      ensures MutatesFor(ss[m], i, refresh)
    {
      assert longer[m] == ss[..m + 1][m] == ss[m];
      assert Enabled(longer[n], steps[n]);
      StaleWasMutating(longer, steps, m, n, i, refresh);
    }
    hide Next;
  }

  /** When such a call returns with its write applied, it was under way since that moment, and the store then holds
      what was superseded. The store changes in no other way. */
  lemma StaleStoresWereUnderWay(ss: seq<State>, es: seq<Step>, m: nat, n: nat, i: nat, refresh: nat)
    requires Run(ss, es) && m <= n < |es| && Stale(ss[m], refresh)
    requires i < |ss[n].publications| && ss[n].publications[i].refresh == refresh
    ensures Stores(es[n], i) ==> MutatesFor(ss[m], i, refresh)
    ensures Stores(es[n], i) ==> ss[n + 1].stored == Persisted(ss[n].stored, ss[n].publications[i].persist)
    ensures ss[n + 1].stored != ss[n].stored ==> es[n].StoreReturns? && Stores(es[n], es[n].publication)
  {
    assert Enabled(ss[n], es[n]);
    OnlyStoringStores(ss[n], es[n]);
    if Stores(es[n], i) {
      StaleWasMutating(ss, es, m, n, i, refresh);
    }
    hide Next;
  }

  /** What is visible changes only together with a logged update, and then only on the provider object
      registered at that moment. */
  lemma UpdatesLandOnTheRegisteredProvider(s: State, e: Step, instance: nat)
    requires WellFormed(s) && Enabled(s, e)
    requires Overlay(Next(s, e), instance) != Overlay(s, instance)
    ensures s.registered == Some(instance)
    ensures |Next(s, e).log| > 0 && Next(s, e).log[|Next(s, e).log| - 1] == Updated(e.publication, s.generation)
  {
    assert e.Start? || e.StoreReturns?;
    assert MayTakeEffect(s, e.publication);
  }

  // ---------------------------------------------------------------------------------------
  // Providers built by createProvider

  /** The stored models that belong to the provider. */
  function Restored(models: Catalogue, id: string): Catalogue {
    if models == [] then []
    else (if models[0].provider == id then [models[0]] else []) + Restored(models[1..], id)
  }

  /** createProvider publishes what it read from the store, without persisting it, any number of times,
      and then at most one fetched catalogue, which it also persists. */
  predicate BuiltStep(id: string, s: State, e: Step)
    requires Enabled(s, e)
  {
    match e
    case Publish(r, persist, update) =>
      && !s.refreshes[r].fetched
      && (|| (persist == Keep && s.refreshes[r].read.Some? && update == Some(Restored(s.refreshes[r].read.value, id)))
          || (persist.Put? && update == Some(persist.catalogue)))
    case _ => true
  }

  ghost predicate BuiltRun(id: string, ss: seq<State>, es: seq<Step>) {
    Run(ss, es) && forall k :: 0 <= k < |es| ==> BuiltStep(id, ss[k], es[k])
  }

  ghost predicate WasStored(id: string, ever: set<Catalogue>, visible: Catalogue) {
    visible == [] || visible in ever || exists c :: c in ever && visible == Restored(c, id)
  }

  ghost predicate OneFetchPerRefresh(s: State) {
    && WellFormed(s)
    && (forall i :: 0 <= i < |s.publications| && s.publications[i].persist.Put? ==>
          s.publications[i].update == Some(s.publications[i].persist.catalogue)
          && s.refreshes[s.publications[i].refresh].fetched)
    && (forall i :: 0 <= i < |s.publications| ==> s.publications[i].persist != Delete)
    && (forall i, j :: 0 <= i < j < |s.publications| && s.publications[i].persist.Put? ==>
          s.publications[j].refresh != s.publications[i].refresh)
  }

  ghost predicate VisibleWasStored(id: string, s: State) {
    && (s.stored.Some? ==> s.stored.value in s.everStored)
    && (forall r :: 0 <= r < |s.refreshes| && s.refreshes[r].read.Some? ==> s.refreshes[r].read.value in s.everStored)
    && (forall i :: 0 <= i < |s.publications| && s.publications[i].update.Some? && s.publications[i].persist == Keep ==>
          WasStored(id, s.everStored, s.publications[i].update.value))
    && (forall p :: p in s.overlays ==> WasStored(id, s.everStored, s.overlays[p]))
  }

  ghost predicate PublishedPut(s: State, i: nat) {
    && i < |s.publications| && s.publications[i].phase == Settled(Published) && s.publications[i].persist.Put?
  }

  /** A later mutation belongs to the same generation or a later one. */
  ghost predicate LaterMutations(s: State) {
    forall i, j :: 0 <= i < j < |s.publications| && PublishedPut(s, i) && s.publications[j].phase == Mutating ==>
      GenerationOf(s, i) <= GenerationOf(s, j)
  }

  /** A fetched catalogue of the current generation that was published is both stored and visible. */
  ghost predicate StoreAgrees(s: State) {
    forall i: nat :: PublishedPut(s, i) && GenerationOf(s, i) == s.generation ==>
      && s.stored == Some(s.publications[i].persist.catalogue)
      && s.registered.Some?
      && Overlay(s, s.registered.value) == s.publications[i].persist.catalogue
  }

  ghost predicate BuiltInv(id: string, s: State) {
    Chained(s) && OneFetchPerRefresh(s) && VisibleWasStored(id, s) && LaterMutations(s) && StoreAgrees(s)
  }

  lemma StepKeepsOneFetch(id: string, s: State, e: Step)
    requires OneFetchPerRefresh(s) && Enabled(s, e) && BuiltStep(id, s, e)
    ensures OneFetchPerRefresh(Next(s, e))
  {
    StepKeepsWellFormed(s, e);
    StepOnPublications(s, e);
    FetchedStays(s, e);
    hide Next;
  }

  lemma FetchedStays(s: State, e: Step)
    requires Enabled(s, e)
    ensures |s.refreshes| <= |Next(s, e).refreshes|
    ensures forall r :: 0 <= r < |s.refreshes| && s.refreshes[r].fetched ==> Next(s, e).refreshes[r].fetched
    ensures e.Publish? && e.persist.Put? ==> Next(s, e).refreshes[e.refresh].fetched
  {
  }

  lemma StillStored(id: string, ever: set<Catalogue>, more: set<Catalogue>, visible: Catalogue)
    requires WasStored(id, ever, visible) && ever <= more
    ensures WasStored(id, more, visible)
  {
  }

  lemma StepOnOverlays(s: State, e: Step)
    requires Enabled(s, e)
    ensures var t := Next(s, e);
            && s.everStored <= t.everStored
            && (t.stored.Some? ==> t.stored == s.stored || t.stored.value in t.everStored)
            && (e.Publish? ==> t.overlays == s.overlays && |t.refreshes| == |s.refreshes|)
            && (e.StoreReturns? && e.ok && s.publications[e.publication].persist.Put? ==>
                  s.publications[e.publication].persist.catalogue in t.everStored)
  {
    if e.StoreReturns? {
      ReturnOnStored(s, e);
    }
    hide ApplyPersist, ApplyUpdate;
    assert e.Start? ==> Next(s, e).everStored == s.everStored && Next(s, e).stored == s.stored by {
      StartOnStored(s, e);
    }
  }

  lemma StartOnStored(s: State, e: Step)
    requires Enabled(s, e)
    ensures e.Start? ==> Next(s, e).everStored == s.everStored && Next(s, e).stored == s.stored
  {
  }

  lemma ReturnOnStored(s: State, e: Step)
    requires Enabled(s, e) && e.StoreReturns?
    ensures var t, p := Next(s, e), s.publications[e.publication].persist;
            && t.everStored == (if (e.ok || e.applied) && p.Put? then s.everStored + {p.catalogue} else s.everStored)
            && (t.stored == s.stored || t.stored == None || (p.Put? && (e.ok || e.applied) && t.stored == Some(p.catalogue)))
  {
  }

  lemma StepOnVisible(s: State, e: Step)
    requires Enabled(s, e)
    ensures forall p :: p in Next(s, e).overlays ==>
              || (p in s.overlays && Next(s, e).overlays[p] == s.overlays[p])
              || (((e.Start? && s.publications[e.publication].persist == Keep) || (e.StoreReturns? && e.ok))
                  && s.publications[e.publication].update == Some(Next(s, e).overlays[p]))
  {
  }

  lemma StepOnReads(s: State, e: Step)
    requires Enabled(s, e)
    ensures forall r :: 0 <= r < |Next(s, e).refreshes| ==>
              Next(s, e).refreshes[r].read == if r < |s.refreshes| && e != ReadStore(r) then s.refreshes[r].read
                                              else if r < |s.refreshes| then s.stored else None
  {
  }

  lemma StepKeepsVisible(id: string, s: State, e: Step)
    requires OneFetchPerRefresh(s) && VisibleWasStored(id, s) && Enabled(s, e) && BuiltStep(id, s, e)
    ensures VisibleWasStored(id, Next(s, e))
  {
    StepOnPublications(s, e);
    StepOnOverlays(s, e);
    StepOnVisible(s, e);
    StepOnReads(s, e);
    var t := Next(s, e);
    hide Next;
    forall i | 0 <= i < |t.publications| && t.publications[i].update.Some? && t.publications[i].persist == Keep
      ensures WasStored(id, t.everStored, t.publications[i].update.value)
    {
      if i < |s.publications| {
        StillStored(id, s.everStored, t.everStored, s.publications[i].update.value);
      } else {
        assert e.Publish? && s.refreshes[e.refresh].read.value in t.everStored;
      }
    }
    forall p | p in t.overlays ensures WasStored(id, t.everStored, t.overlays[p]) {
      if p in s.overlays && t.overlays[p] == s.overlays[p] {
        StillStored(id, s.everStored, t.everStored, s.overlays[p]);
      } else if s.publications[e.publication].persist == Keep {
        StillStored(id, s.everStored, t.everStored, t.overlays[p]);
      }
    }
  }

  lemma GenerationsDiffer(s: State, q: nat, r: nat)
    requires WellFormed(s) && q < |s.refreshes| && r < |s.refreshes| && q != r
    ensures s.refreshes[q].generation != s.refreshes[r].generation
  {
    var lo, hi := Min(q, r), Max(q, r);
    assert s.refreshes[lo].generation < s.refreshes[hi].generation;
  }

  /** While a publication can still have an effect, no fetched catalogue of this generation was published. */
  lemma NothingPublishedYet(s: State, e: Step)
    requires Chained(s) && OneFetchPerRefresh(s) && LaterMutations(s) && Enabled(s, e)
    requires (e.Start? && MayTakeEffect(s, e.publication)) || e.StoreReturns?
    ensures forall k: nat :: PublishedPut(s, k) ==> GenerationOf(s, k) != s.generation
  {
    var i := e.publication;
    forall k: nat | PublishedPut(s, k) ensures GenerationOf(s, k) != s.generation {
      assert k < i;
      GenerationsDiffer(s, s.publications[k].refresh, s.publications[i].refresh);
    }
  }

  lemma StepOnStore(s: State, e: Step)
    requires Enabled(s, e)
    ensures var t := Next(s, e);
            && (!e.Start? && !e.StoreReturns? ==> t.stored == s.stored && t.overlays == s.overlays)
            && (e.Start? && !MayTakeEffect(s, e.publication) ==> t.stored == s.stored && t.overlays == s.overlays)
    ensures (e.Start? || e.StoreReturns?) && PublishedPut(Next(s, e), e.publication) ==>
              && e.StoreReturns?
              && MayTakeEffect(s, e.publication)
              && Next(s, e).stored == Some(s.publications[e.publication].persist.catalogue)
    ensures (e.Start? || e.StoreReturns?) && Next(s, e).publications[e.publication].phase == Settled(Published)
            && s.publications[e.publication].update.Some? ==>
              Overlay(Next(s, e), s.refreshes[s.publications[e.publication].refresh].instance)
              == s.publications[e.publication].update.value
    ensures (e.Start? || e.StoreReturns?) && Next(s, e).publications[e.publication].phase == Mutating ==>
              MayTakeEffect(s, e.publication)
  {
  }

  lemma GenerationsStay(s: State, e: Step, i: nat)
    requires WellFormed(s) && Enabled(s, e) && i < |s.publications|
    ensures GenerationOf(Next(s, e), i) == GenerationOf(s, i) <= s.generation
  {
    StepOnPublications(s, e);
    StepOnRefreshes(s, e);
    hide Next;
  }

  lemma StepKeepsLaterMutations(s: State, e: Step)
    requires Chained(s) && WellFormed(s) && LaterMutations(s) && Enabled(s, e)
    ensures LaterMutations(Next(s, e))
  {
    StepOnPublications(s, e);
    StepOnStore(s, e);
    var t := Next(s, e);
    if e.Start? || e.StoreReturns? {
      EarlierAreSettled(s, e);
    }
    hide Next;
    forall i, j | 0 <= i < j < |t.publications| && PublishedPut(t, i) && t.publications[j].phase == Mutating
      ensures GenerationOf(t, i) <= GenerationOf(t, j)
    {
      assert j < |s.publications|;
      GenerationsStay(s, e, i);
      GenerationsStay(s, e, j);
      assert s.publications[j].phase != Mutating ==> e == Start(j);
    }
  }

  lemma StepKeepsAgreement(s: State, e: Step)
    requires Chained(s) && OneFetchPerRefresh(s) && LaterMutations(s) && StoreAgrees(s) && Enabled(s, e)
    ensures StoreAgrees(Next(s, e))
  {
    StepOnPublications(s, e);
    StepOnStore(s, e);
    StepOnRefreshes(s, e);
    var t := Next(s, e);
    if (e.Start? && MayTakeEffect(s, e.publication)) || e.StoreReturns? {
      NothingPublishedYet(s, e);
    }
    hide Next;
    forall i: nat | PublishedPut(t, i) && GenerationOf(t, i) == t.generation
      ensures t.stored == Some(t.publications[i].persist.catalogue)
      ensures t.registered.Some? && Overlay(t, t.registered.value) == t.publications[i].persist.catalogue
    {
      assert i < |s.publications|;
      GenerationsStay(s, e, i);
      if !PublishedPut(s, i) {
        assert e == StoreReturns(i, e.ok, e.applied);
      }
    }
  }

  lemma {:induction false} BuiltRunsKeepInv(id: string, ss: seq<State>, es: seq<Step>, n: nat)
    requires BuiltRun(id, ss, es) && n < |ss|
    ensures BuiltInv(id, ss[n])
  {
    if n == 0 {
      var stored :| ss[0] == Initial(stored);
      assert BuiltInv(id, Initial(stored));
    } else {
      BuiltRunsKeepInv(id, ss, es, n - 1);
      var s, e := ss[n - 1], es[n - 1];
      StepKeepsChained(s, e);
      StepKeepsOneFetch(id, s, e);
      StepKeepsVisible(id, s, e);
      StepKeepsLaterMutations(s, e);
      StepKeepsAgreement(s, e);
      hide Next;
    }
  }

  /** In every run of a provider built by createProvider: what is visible was stored before, and once a
      fetched catalogue of the current generation was published, the registered provider shows exactly
      that catalogue and so does the store. */
  lemma OverlayFollowsStore(id: string, ss: seq<State>, es: seq<Step>, n: nat)
    requires BuiltRun(id, ss, es) && n < |ss|
    ensures forall instance :: WasStored(id, ss[n].everStored, Overlay(ss[n], instance))
    ensures forall i: nat :: PublishedPut(ss[n], i) && GenerationOf(ss[n], i) == ss[n].generation ==>
              && ss[n].registered.Some?
              && ss[n].stored == Some(Overlay(ss[n], ss[n].registered.value))
              && ss[n].stored == Some(ss[n].publications[i].persist.catalogue)
  {
    BuiltRunsKeepInv(id, ss, es, n);
  }
}
