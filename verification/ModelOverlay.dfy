/** The model list of a provider: a static baseline with a dynamic overlay on top. */
module ModelOverlay {
  import opened Results

  /** `info` stands for everything the overlay never looks at. */
  datatype Model = Model(id: string, provider: string, info: nat)

  type Catalogue = seq<Model>

  /** The first entry with the id, as find() and findIndex() look it up. */
  function IndexOf(models: Catalogue, id: string): (r: Option<nat>)
    ensures r.Some? ==> r.value < |models| && models[r.value].id == id
    ensures r.Some? ==> forall k :: 0 <= k < r.value ==> models[k].id != id
    ensures r.None? ==> forall k :: 0 <= k < |models| ==> models[k].id != id
  {
    if models == [] then None
    else if models[0].id == id then Some(0)
    else
      match IndexOf(models[1..], id)
      case None => None
      case Some(k) => Some(k + 1)
  }

  function Lookup(models: Catalogue, id: string): Option<Model> {
    match IndexOf(models, id)
    case None => None
    case Some(k) => Some(models[k])
  }

  function LastWith(models: Catalogue, id: string): Option<Model> {
    if models == [] then None
    else if models[|models| - 1].id == id then Some(models[|models| - 1])
    else LastWith(models[..|models| - 1], id)
  }

  function Upsert(merged: Catalogue, model: Model): Catalogue {
    match IndexOf(merged, model.id)
    case Some(k) => merged[k := model]
    case None => merged + [model]
  }

  function Merge(baseline: Catalogue, overlay: Catalogue): Catalogue {
    if overlay == [] then baseline
    else Upsert(Merge(baseline, overlay[..|overlay| - 1]), overlay[|overlay| - 1])
  }

  ghost predicate UniqueIds(models: Catalogue) {
    forall i, j :: 0 <= i < j < |models| ==> models[i].id != models[j].id
  }

  method FindIndex(models: Catalogue, id: string) returns (index: int)
    ensures index == match IndexOf(models, id) case Some(k) => k case None => -1
  {
    for k := 0 to |models|
      invariant forall j :: 0 <= j < k ==> models[j].id != id
    {
      if models[k].id == id {
        return k;
      }
    }
    index := -1;
  }

  /** currentModels() of createProvider. */
  method CurrentModels(baselineModels: Catalogue, dynamicModels: Catalogue) returns (merged: Catalogue)
    ensures merged == Merge(baselineModels, dynamicModels)
  {
    merged := baselineModels;
    for k := 0 to |dynamicModels|
      invariant merged == Merge(baselineModels, dynamicModels[..k])
    {
      var model := dynamicModels[k];
      var index := FindIndex(merged, model.id);
      assert dynamicModels[..k + 1][..k] == dynamicModels[..k];
      if index >= 0 {
        merged := merged[index := model];
      } else {
        merged := merged + [model];
      }
    }
    assert dynamicModels[..|dynamicModels|] == dynamicModels;
  }

  /** Overlaying never moves, drops or duplicates a baseline entry; it only replaces entries by ones
      with the same id and appends. */
  lemma {:induction false} MergeKeepsBaselineOrder(baseline: Catalogue, overlay: Catalogue)
    ensures |baseline| <= |Merge(baseline, overlay)|
    ensures forall k :: 0 <= k < |baseline| ==> Merge(baseline, overlay)[k].id == baseline[k].id
    ensures forall k :: |baseline| <= k < |Merge(baseline, overlay)| ==>
              exists j :: 0 <= j < |overlay| && overlay[j].id == Merge(baseline, overlay)[k].id
  {
    if overlay != [] {
      var n := |overlay| - 1;
      MergeKeepsBaselineOrder(baseline, overlay[..n]);
      var before, after := Merge(baseline, overlay[..n]), Merge(baseline, overlay);
      forall k | |baseline| <= k < |after|
        ensures exists j :: 0 <= j < |overlay| && overlay[j].id == after[k].id
      {
        if k < |before| {
          var j :| 0 <= j < n && overlay[..n][j].id == before[k].id;
          assert overlay[j].id == after[k].id;
        } else {
          assert overlay[n].id == after[k].id;
        }
      }
    }
  }

  lemma {:induction false} MergeKeepsIdsUnique(baseline: Catalogue, overlay: Catalogue)
    requires UniqueIds(baseline)
    ensures UniqueIds(Merge(baseline, overlay))
  {
    if overlay != [] {
      MergeKeepsIdsUnique(baseline, overlay[..|overlay| - 1]);
    }
  }

  /** For each id the merged list holds the last overlay entry if there is one, else the baseline's. */
  lemma {:induction false} MergeLookup(baseline: Catalogue, overlay: Catalogue, id: string)
    ensures Lookup(Merge(baseline, overlay), id)
         == if LastWith(overlay, id).Some? then LastWith(overlay, id) else Lookup(baseline, id)
  {
    if overlay != [] {
      var n := |overlay| - 1;
      MergeLookup(baseline, overlay[..n], id);
      UpsertLookup(Merge(baseline, overlay[..n]), overlay[n], id);
    }
  }

  lemma UpsertLookup(merged: Catalogue, model: Model, id: string)
    ensures Lookup(Upsert(merged, model), id) == if model.id == id then Some(model) else Lookup(merged, id)
  {
    var after := Upsert(merged, model);
    var first, now := IndexOf(merged, id), IndexOf(after, id);
    if model.id == id {
      assert first.Some? ==> after[first.value].id == id;
      assert first.None? ==> after[|merged|].id == id;
    } else {
      assert first.Some? ==> after[first.value] == merged[first.value];
      assert now.Some? ==> after[now.value].id == id && now.value < |merged|;
    }
  }
}
