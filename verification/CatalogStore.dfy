/** The routing tables, changed in place: a discovery result is compared and written in one transaction. */
module CatalogStore {
  import opened Domain
  import opened ModelRouting
  import R = Routing

  type Item = (string, Capability)

  predicate DistinctItems(items: seq<Item>) {
    forall i, j | 0 <= i < j < |items| :: items[i].0 != items[j].0
  }

  /** The discovered list as a map. */
  function AsMap(items: seq<Item>): map<string, Capability> {
    if items == [] then map[] else AsMap(items[..|items| - 1])[items[|items| - 1].0 := items[|items| - 1].1]
  }

  lemma {:induction false} AsMapHas(items: seq<Item>, m: string)
    ensures m in AsMap(items) <==> exists i :: 0 <= i < |items| && items[i].0 == m
  {
    if items != [] {
      AsMapHas(items[..|items| - 1], m);
      assert items[|items| - 1].0 == m ==> m in AsMap(items);
    }
  }

  lemma {:induction false} AsMapSize(items: seq<Item>)
    ensures |AsMap(items)| <= |items|
  {
    if items != [] {
      AsMapSize(items[..|items| - 1]);
    }
  }

  /** A listed model that is new or different from what is stored. */
  predicate Differs(was: map<string, R.Model>, listed: map<string, R.Model>) {
    exists m | m in listed :: !(m in was && was[m] == listed[m])
  }

  lemma DiffersGrows(was: map<string, R.Model>, listed: map<string, R.Model>, m: string, model: R.Model)
    requires m !in listed
    ensures Differs(was, listed[m := model]) <==> Differs(was, listed) || !(m in was && was[m] == model)
  {
    var more := listed[m := model];
    assert forall k | k in listed :: more[k] == listed[k];
    assert more[m] == model;
  }

  lemma AsModelsGrows(was: map<string, R.Model>, items: map<string, Capability>, m: string, capability: Capability)
    requires m !in items
    ensures R.AsModels(was, items[m := capability])
            == R.AsModels(was, items)[m := R.Model(m in was && was[m].enabled, true, true, capability)]
  {
  }

  lemma AsModelsKeys(was: map<string, R.Model>, items: map<string, Capability>)
    ensures R.AsModels(was, items).Keys == items.Keys
  {
  }

  class Store {
    var state: R.Sys

    constructor (state: R.Sys)
      ensures this.state == state
    {
      this.state := state;
    }

    /** Compares the list with what is stored, model by model, and sets one flag. */
    method Compare(known: seq<string>, was: map<string, R.Model>, items: seq<Item>)
      returns (changed: bool, models: map<string, R.Model>)
      requires DistinctItems(items) && (set m | m in known) == was.Keys
      ensures changed == R.Changed(was, AsMap(items))
      ensures models == R.Overlay(was, R.AsModels(was, AsMap(items)))
    {
      changed := false;
      var listed: map<string, R.Model> := map[];
      assert listed == R.AsModels(was, AsMap(items[..0]));
      for i := 0 to |items|
        invariant listed == R.AsModels(was, AsMap(items[..i]))
        invariant changed == Differs(was, listed)
      {
        hide R.AsModels, Differs;
        var (m, capability) := items[i];
        assert items[..i + 1][..i] == items[..i];
        assert m !in AsMap(items[..i]) by { AsMapHas(items[..i], m); }
        var model := R.Model(m in was && was[m].enabled, true, true, capability);
        AsModelsGrows(was, AsMap(items[..i]), m, capability);
        assert m !in listed by { AsModelsKeys(was, AsMap(items[..i])); }
        DiffersGrows(was, listed, m, model);
        if !(m in was && was[m] == model) { changed := true; }
        listed := listed[m := model];
      }
      assert items[..|items|] == items;
      AsModelsKeys(was, AsMap(items));
      var gone := Gone(known, was, listed.Keys);
      changed := changed || gone;
      models := (map m | m in was :: was[m].(present := false)) + listed;
    }

    /** Is a model that was present missing from the list? */
    method Gone(known: seq<string>, was: map<string, R.Model>, current: set<string>) returns (gone: bool)
      requires (set m | m in known) == was.Keys
      ensures gone <==> exists m | m in was :: was[m].present && m !in current
    {
      gone := false;
      for i := 0 to |known|
        invariant forall k | 0 <= k < |known| :: known[k] in was
        invariant gone <==> exists k :: 0 <= k < i && was[known[k]].present && known[k] !in current
      {
        if was[known[i]].present && known[i] !in current { gone := true; }
      }
      assert forall m | m in was :: m in known;
    }

    /** A refresh commits the catalogue; the revision and the routes move only with the flag. */
    method Refresh(n: string, version: nat, revision: nat, known: seq<string>, items: seq<Item>, error: bool, now: nat)
      returns (ok: bool)
      requires n in state.catalogs ==> (set m | m in known) == state.catalogs[n].models.Keys
      modifies this
      ensures var next := if |items| > 256 || (!error && !DistinctItems(items)) then None
                          else R.Refresh(old(state), n, version, revision, AsMap(items), error, now);
              ok == next.Some? && state == if ok then next.value else old(state)
    {
      hide R.Changed, R.Overlay, R.AsModels, R.SyncRoutes;
      if |items| > 256 || (!error && !DistinctItems(items)) { return false; }
      AsMapSize(items);
      if n !in state.nodes || state.nodes[n].deleted || state.nodes[n].version != version || n !in state.catalogs {
        return false;
      }
      var was := state.catalogs[n];
      if was.revision != revision || was.fingerprint != state.nodes[n].fingerprint || was.source != R.Discovered {
        return false;
      }
      if error { return true; }
      if exists m | m in AsMap(items) :: !R.ValidModelId(m) || AsMap(items)[m].modes == [] { return false; }
      var changed, models := Compare(known, was.models, items);
      var c := was.(revision := if changed then revision + 1 else revision, lastSuccess := now,
                    validUntil := now + 1800, models := models);
      state := state.(catalogs := state.catalogs[n := c]);
      if changed {
        state := R.SyncRoutes(state);
        state := R.Bump(state);
      }
      return true;
    }
  }
}
