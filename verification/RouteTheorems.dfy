/** How routes come and go: offered models get one, and only an administrator changes it. */
module RouteTheorems {
  import opened Domain
  import opened ModelRouting
  import opened Routing

  /** The route a model gets when it is first offered. */
  ghost predicate IsFirstRoute(r: Route, protocols: set<string>) {
    && r.version == 1 && protocols != {}
    && (r.mode == Auto || r.mode == Unresolved)
    && (forall p :: r == Route(p, Auto, 1) <==> protocols == {p})
    && (r.mode == Unresolved <==> r.protocol == "" && forall p :: protocols != {p})
  }

  lemma NewRouteIsFirst(s: Sys, model: string)
    requires Protocols(s, model) != {}
    ensures IsFirstRoute(NewRoute(s, model), Protocols(s, model))
  {
    hide Protocols;
    var protocols := Protocols(s, model);
    if exists p | p in protocols :: protocols == {p} {
      var p :| p in protocols && protocols == {p};
      assert NewRoute(s, model) == Route(p, Auto, 1);
    } else {
      forall p ensures protocols != {p} {
        assert p in {p};
      }
    }
  }

  lemma OfferedHasProtocol(s: Sys, model: string)
    ensures model in Offered(s) <==> Protocols(s, model) != {}
  {
    if model in Offered(s) {
      var n :| n in s.catalogs && model in s.catalogs[n].models && Offers(s, n, model);
      assert s.nodes[n].protocol in Protocols(s, model);
    } else {
      assert forall n :: !Offers(s, n, model);
    }
  }

  /** What synchronising does to one model's route. */
  lemma SyncRoute(s: Sys, model: string)
    ensures SyncRoutes(s).nodes == s.nodes && SyncRoutes(s).catalogs == s.catalogs
    ensures Protocols(SyncRoutes(s), model) == Protocols(s, model)
    ensures model in s.routes ==> model in SyncRoutes(s).routes && SyncRoutes(s).routes[model] == s.routes[model]
    ensures model !in s.routes ==>
              && (model in SyncRoutes(s).routes <==> Protocols(s, model) != {})
              && (model in SyncRoutes(s).routes ==> IsFirstRoute(SyncRoutes(s).routes[model], Protocols(s, model)))
  {
    hide Protocols, Offered, NewRoute, IsFirstRoute;
    OfferedHasProtocol(s, model);
    if model !in s.routes && Protocols(s, model) != {} {
      NewRouteIsFirst(s, model);
    }
    SameProtocols(s, SyncRoutes(s), model);
  }

  lemma SameProtocols(a: Sys, b: Sys, model: string)
    requires a.nodes == b.nodes && a.catalogs == b.catalogs
    ensures Protocols(a, model) == Protocols(b, model)
  {
    assert forall n :: Offers(a, n, model) == Offers(b, n, model);
  }

  /** Bound by an administrator in this step. */
  predicate Rebinds(s: Sys, step: Step, model: string) {
    step.Bind? && step.model == model && model in s.routes && Apply(s, step).routes != s.routes
  }

  /**
   One step: a route is there for good, it changes only by a binding of its model to a protocol that
   offers it, which raises its version by one; and a new one fits what is offered at that moment.
   */
  lemma RouteStep(s: Sys, step: Step, model: string)
    ensures var s' := Apply(s, step);
            && (model in s.routes ==>
                  && model in s'.routes
                  && if Rebinds(s, step, model)
                     then && s'.routes[model] == Route(step.protocol, ByHand, s.routes[model].version + 1)
                          && step.protocol in Protocols(s, model)
                     else s'.routes[model] == s.routes[model])
            && (model !in s.routes && model in s'.routes ==> IsFirstRoute(s'.routes[model], Protocols(s', model)))
  {
    hide SyncRoutes, Protocols, IsFirstRoute, Overlay, AsModels, Changed, HasEnabled, ItemsOk, Merge, StartCatalog;
    var s' := Apply(s, step);
    if step.Bind? || step.Delete? || s' == s {
    } else {
      var t := Unsynced(s, step);
      SyncRoute(t, model);
      SameProtocols(SyncRoutes(t), s', model);
    }
  }

  /** A catalogue is stored, the routes are synchronised, and the revision moves. */
  lemma WriteSyncs(s: Sys, n: string, given: Option<Catalog>, source: Source, builtin: Capability, now: nat)
    returns (t: Sys)
    requires n in s.nodes && WriteCatalog(s, n, given, source, builtin, now).Some?
    ensures t.routes == s.routes && t.nodes == s.nodes
    ensures WriteCatalog(s, n, given, source, builtin, now).value == Bump(SyncRoutes(t))
  {
    hide SyncRoutes, Overlay, HasEnabled, ItemsOk, Merge, StartCatalog;
    var node := s.nodes[n];
    var was := if n in s.catalogs then Some(s.catalogs[n]) else None;
    if given.None? && was.Some? && was.value.fingerprint == node.fingerprint {
      t := s;
    } else {
      var c := if given.Some? then Merge(given.value, was, node.fingerprint) else StartCatalog(source, builtin, now);
      var models := Overlay(if was.Some? then was.value.models else map[], c.models);
      t := s.(catalogs := s.catalogs[n := c.(revision := if was.Some? then was.value.revision + 1 else 1,
                                             fingerprint := node.fingerprint, models := models)]);
    }
  }

  /** The state a writer of catalogues has made before it synchronises the routes. */
  lemma Unsynced(s: Sys, step: Step) returns (t: Sys)
    requires Apply(s, step) != s && (step.Create? || step.Update? || step.Discover?)
    ensures t.routes == s.routes
    ensures var s' := Apply(s, step);
            || s' == Bump(SyncRoutes(t))
            || (step.Discover? && s' == t && ContentOf(s') == ContentOf(s))
  {
    hide SyncRoutes, Overlay, AsModels, Changed, WriteCatalog, ContentOf;
    match step
    case Create(n, node, given, source, builtin, now) =>
      t := WriteSyncs(s.(nodes := s.nodes[n := node.(version := 1, deleted := false)]), n, given, source, builtin, now);
    case Update(n, version, node, allowed, given, source, builtin, now) =>
      t := WriteSyncs(s.(nodes := s.nodes[n := node.(version := version + 1, deleted := false)]), n, given, source,
                      builtin, now);
    case Discover(n, version, revision, items, error, now) =>
      RevisionVersionsContent(s, step);
      var was := s.catalogs[n];
      var models := Overlay(was.models, AsModels(was.models, items));
      var changed := Changed(was.models, items);
      t := s.(catalogs := s.catalogs[n := was.(revision := if changed then revision + 1 else revision,
                                               lastSuccess := now, validUntil := now + 1800, models := models)]);
    case _ =>
  }

  /* ---------- Over whole runs ---------- */

  predicate LaterRoute(a: Route, b: Route) {
    && a.version <= b.version
    && (a.version == b.version ==> b == a)
    && (a.version < b.version ==> b.mode == ByHand)
  }

  lemma NextRoute(a: Sys, b: Sys, model: string)
    requires Next(a, b) && model in a.routes
    ensures model in b.routes && LaterRoute(a.routes[model], b.routes[model])
  {
    hide Apply, Protocols, IsFirstRoute;
    var step :| b == Apply(a, step);
    RouteStep(a, step, model);
  }

  /** A route is never lost, and as long as its version stands it is the same; what replaced it was bound by hand. */
  lemma {:induction false} RoutesStay(h: seq<Sys>, i: nat, j: nat, model: string)
    requires History(h) && i <= j < |h| && model in h[i].routes
    ensures model in h[j].routes && LaterRoute(h[i].routes[model], h[j].routes[model])
    decreases j - i
  {
    hide Next;
    if i < j {
      RoutesStay(h, i, j - 1, model);
      NextRoute(h[j - 1], h[j], model);
    }
  }

  /** Whatever is offered has a route. */
  ghost predicate AllRouted(s: Sys) {
    forall model :: Protocols(s, model) != {} ==> model in s.routes
  }

  lemma RoutedStep(s: Sys, step: Step)
    requires AllRouted(s)
    ensures AllRouted(Apply(s, step))
  {
    hide Apply, Protocols, SyncRoutes, ContentOf;
    var s' := Apply(s, step);
    forall model | Protocols(s', model) != {} ensures model in s'.routes {
      RouteStep(s, step, model);
      if s' == s {
      } else if step.Bind? || step.Delete? {
        NothingNew(s, step, model);
      } else {
        var t := Unsynced(s, step);
        SyncRoute(t, model);
        if s' == Bump(SyncRoutes(t)) {
          SameProtocols(SyncRoutes(t), s', model);
        } else {
          SameContentSameProtocols(s, s', model);
        }
      }
    }
  }

  lemma NothingNew(s: Sys, step: Step, model: string)
    requires step.Bind? || step.Delete?
    ensures Protocols(Apply(s, step), model) <= Protocols(s, model)
  {
    forall n | Offers(Apply(s, step), n, model)
      ensures Offers(s, n, model) && Apply(s, step).nodes[n].protocol == s.nodes[n].protocol
    {
    }
  }

  lemma SameContentSameProtocols(a: Sys, b: Sys, model: string)
    requires ContentOf(a) == ContentOf(b)
    ensures Protocols(a, model) == Protocols(b, model)
  {
    forall n | n in a.nodes || n in b.nodes
      ensures n in a.nodes && n in b.nodes && a.nodes[n].protocol == b.nodes[n].protocol
      ensures Offers(a, n, model) == Offers(b, n, model)
    {
      assert n in ContentOf(a).offers && n in ContentOf(b).offers;
      assert ContentOf(a).offers[n] == OfferOf(a, n) && ContentOf(b).offers[n] == OfferOf(b, n);
    }
  }

  /** In every run that starts with no nodes. */
  lemma {:induction false} OffersAreRouted(h: seq<Sys>, j: nat)
    requires History(h) && j < |h| && h[0].nodes == map[]
    ensures AllRouted(h[j])
    decreases j
  {
    hide Apply, AllRouted;
    if j == 0 {
      assert AllRouted(h[0]) by { NothingOffered(h[0]); }
    } else {
      OffersAreRouted(h, j - 1);
      assert Next(h[j - 1], h[j]);
      var step :| h[j] == Apply(h[j - 1], step);
      RoutedStep(h[j - 1], step);
    }
  }

  lemma NothingOffered(s: Sys)
    requires s.nodes == map[]
    ensures AllRouted(s)
  {
  }
}
