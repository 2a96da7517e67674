/** The imperative code of refresh and publication, one method per stretch between two awaits, each
    proved to be the step of ModelPublication that bears its name. */
module ModelsImpl {
  import opened Results
  import opened ModelOverlay
  import opened ModelPublication

  /** The entries that the maps of the source hold for one provider id, and the objects they lead to. */
  class ProviderRefreshes {
    var refreshGeneration: nat
    var refreshController: Option<nat>
    var publicationChain: Option<nat>
    var provider: Option<nat>
    var refreshes: seq<Refresh>
    var queued: seq<Publication>
    var dynamicModels: map<nat, Catalogue>
    var modelsStore: Option<Catalogue>
    ghost var everStored: set<Catalogue>
    ghost var log: seq<Effect>

    ghost function Abs(): State
      reads this
    {
      State(refreshGeneration, refreshController, provider, publicationChain, refreshes, queued, dynamicModels,
            modelsStore, everStored, log)
    }

    constructor (stored: Option<Catalogue>)
      ensures Abs() == Initial(stored)
    {
      refreshGeneration, refreshController, publicationChain, provider := 0, None, None, None;
      refreshes, queued, dynamicModels, modelsStore := [], [], map[], stored;
      everStored := if stored.Some? then {stored.value} else {};
      log := [];
    }

    /** The models getModels() answers with; an unknown provider has none. */
    method GetModels(baseline: map<nat, Catalogue>) returns (models: Catalogue)
      ensures provider.None? ==> models == []
      ensures provider.Some? ==>
                models == Merge(if provider.value in baseline then baseline[provider.value] else [],
                                Overlay(Abs(), provider.value))
    {
      if provider == None {
        return [];
      }
      var instance := provider.value;
      models := CurrentModels(if instance in baseline then baseline[instance] else [],
                              if instance in dynamicModels then dynamicModels[instance] else []);
    }

    method SetProvider(instance: nat)
      modifies this
      ensures Abs() == Next(old(Abs()), Step.SetProvider(instance))
    {
      var _ := SupersedeProviderRefresh();
      provider := Some(instance);
    }

    method DeleteProvider()
      modifies this
      ensures Abs() == Next(old(Abs()), Step.DeleteProvider)
    {
      var _ := SupersedeProviderRefresh();
      provider := None;
    }

    method SupersedeProviderRefresh() returns (generation: nat)
      modifies this
      ensures Abs() == Superseded(old(Abs())) && generation == refreshGeneration
    {
      generation := refreshGeneration + 1;
      refreshGeneration := generation;
      var previous := refreshController;
      if previous.Some? {
        refreshController := None;
        if previous.value < |refreshes| {
          refreshes := refreshes[previous.value := refreshes[previous.value].(superseded := true)];
        }
      }
    }

    method BeginProviderRefresh() returns (refresh: nat)
      requires provider.Some?
      modifies this
      ensures Abs() == Next(old(Abs()), BeginRefresh) && refresh == |old(refreshes)|
    {
      var generation := SupersedeProviderRefresh();
      refresh := |refreshes|;
      refreshes := refreshes + [Refresh(generation, provider.value, false, false, None, false)];
      refreshController := Some(refresh);
    }

    method EndProviderRefresh(refresh: nat)
      requires refresh < |refreshes|
      modifies this
      ensures Abs() == Next(old(Abs()), EndRefresh(refresh))
    {
      if refreshController == Some(refresh) {
        refreshController := None;
      }
    }

    /** Queues the publication behind the current end of the chain. */
    method PublishProviderModels(refresh: nat, persist: Persist, update: Option<Catalogue>) returns (publication: nat)
      requires refresh < |refreshes|
      modifies this
      ensures Abs() == Next(old(Abs()), Publish(refresh, persist, update)) && publication == |old(queued)|
    {
      var previous := publicationChain;
      publication := |queued|;
      queued := queued + [Publication(refresh, persist, update, previous, Queued)];
      publicationChain := Some(publication);
      refreshes := refreshes[refresh := refreshes[refresh].(fetched := refreshes[refresh].fetched || persist.Put?)];
    }

    method IsCurrent(publication: nat) returns (current: bool)
      requires publication < |queued|
      ensures current <==> MayTakeEffect(Abs(), publication)
    {
      var refresh := queued[publication].refresh;
      if refresh >= |refreshes| || refreshes[refresh].superseded || refreshes[refresh].cancelled {
        return false;
      }
      current := refreshGeneration == refreshes[refresh].generation;
    }

    method Settle(publication: nat, outcome: Outcome)
      requires publication < |queued|
      modifies this`queued
      ensures Abs() == SetPhase(old(Abs()), publication, Settled(outcome))
    {
      queued := queued[publication := queued[publication].(phase := Settled(outcome))];
    }

    method ApplyPublication(publication: nat)
      requires publication < |queued| && queued[publication].refresh < |refreshes|
      modifies this
      ensures Abs() == ApplyUpdate(old(Abs()), publication)
    {
      var update := queued[publication].update;
      if update.Some? {
        dynamicModels := dynamicModels[refreshes[queued[publication].refresh].instance := update.value];
        log := log + [Updated(publication, refreshGeneration)];
      }
      Settle(publication, Published);
    }

    /** The awaited predecessor has settled: check, and either finish or go to the store. */
    method Resume(publication: nat)
      requires Enabled(Abs(), Start(publication))
      modifies this
      ensures Abs() == Next(old(Abs()), Start(publication))
    {
      var current := IsCurrent(publication);
      if !current {
        Settle(publication, Skipped);
        return;
      }
      if queued[publication].persist != Keep {
        queued := queued[publication := queued[publication].(phase := Mutating)];
        log := log + [MutationStarted(publication)];
        return;
      }
      ApplyPublication(publication);
    }

    /** The awaited store call has come back; `applied` says whether a failed call had its effect. */
    method StoreReturned(publication: nat, ok: bool, applied: bool)
      requires Enabled(Abs(), StoreReturns(publication, ok, applied))
      modifies this
      ensures Abs() == Next(old(Abs()), StoreReturns(publication, ok, applied))
    {
      if ok || applied {
        match queued[publication].persist
        case Keep =>
        case Delete => modelsStore := None;
        case Put(c) =>
          modelsStore := Some(c);
          everStored := everStored + {c};
      }
      log := log + [MutationEnded(publication)];
      if !ok {
        Settle(publication, Errored);
        return;
      }
      var current := IsCurrent(publication);
      if !current {
        Settle(publication, Skipped);
        return;
      }
      ApplyPublication(publication);
    }

    method ForgetTail(publication: nat)
      requires Enabled(Abs(), DropTail(publication))
      modifies this
      ensures Abs() == Next(old(Abs()), DropTail(publication))
    {
      if publicationChain == Some(publication) {
        publicationChain := None;
      }
    }
  }
}
