/** What a write to nodes, catalogues and routes achieves, and exactly when it takes effect. */
module CatalogTheorems {
  import opened Domain
  import opened ModelRouting
  import opened Routing

  /** The write is about the node as it is now. */
  predicate Current(s: Sys, n: string, version: nat) {
    n in s.nodes && !s.nodes[n].deleted && s.nodes[n].version == version
  }

  /** Some model of the catalogue can be asked for, and a discovered list was read and has not run out. */
  ghost predicate CanServe(c: Catalog, now: nat) {
    && (exists m | m in c.models :: c.models[m].enabled && c.models[m].present)
    && (c.source == Discovered ==> 0 < c.lastSuccess && now < c.validUntil)
  }

  predicate ValidItems(items: map<string, Model>) {
    |items| <= 256 && forall m | m in items :: ValidModelId(m) && |items[m].capability.modes| > 0
  }

  function StoredCatalog(s: Sys, n: string): Option<Catalog> {
    if n in s.catalogs then Some(s.catalogs[n]) else None
  }

  /** The connection the stored catalogue was made for is still the node's. */
  predicate SameConnection(s: Sys, n: string, node: Node) {
    n in s.catalogs && s.catalogs[n].fingerprint == node.fingerprint
  }

  /** The catalogue to be stored: the one handed in, with the later success of the same connection, or a start. */
  ghost predicate IsNew(c: Catalog, s: Sys, n: string, node: Node, given: Option<Catalog>, source: Source,
      builtin: Capability, now: nat)
  {
    match given
    case Some(g) =>
      && c == g.(lastSuccess := c.lastSuccess, validUntil := c.validUntil)
      && (if && g.source == Discovered && SameConnection(s, n, node) && g.lastSuccess < s.catalogs[n].lastSuccess
          then c.lastSuccess == s.catalogs[n].lastSuccess && c.validUntil == s.catalogs[n].validUntil
          else c == g)
    case None =>
      && c.source == source
      && (source == Discovered ==> c.models == map[] && c.lastSuccess == 0)
      && (source != Discovered ==>
            c.models == map["MiniMax-H3" := Model(true, true, source == Builtin, builtin)] && c.lastSuccess == now)
  }

  /** What stands against storing a node with its catalogue. */
  ghost predicate Storable(s: Sys, n: string, node: Node, given: Option<Catalog>, source: Source, builtin: Capability,
      now: nat)
  {
    if given.None? && SameConnection(s, n, node)
    then node.enabled ==> CanServe(s.catalogs[n], now)
    else
      && (given.Some? && n in s.catalogs ==> given.value.revision == s.catalogs[n].revision)
      && forall c | IsNew(c, s, n, node, given, source, builtin, now) ::
           ValidItems(c.models) && (node.enabled ==> CanServe(c, now))
  }

  /** What is listed is as it was given; what was known and is not listed stays, but is not present. */
  predicate Overlays(was: map<string, Model>, items: map<string, Model>, after: map<string, Model>) {
    && after.Keys == was.Keys + items.Keys
    && (forall m | m in items :: after[m] == items[m])
    && (forall m | m in was && m !in items :: after[m] == was[m].(present := false))
  }

  lemma OverlayOverlays(was: map<string, Model>, items: map<string, Model>)
    ensures Overlays(was, items, Overlay(was, items))
  {
  }

  /** The catalogue that `WriteCatalog` computes, and why it is the new one. */
  lemma Chosen(s: Sys, n: string, node: Node, given: Option<Catalog>, source: Source, builtin: Capability, now: nat)
    returns (c: Catalog)
    requires n in s.nodes && s.nodes[n] == node
    ensures c == if given.Some? then Merge(given.value, StoredCatalog(s, n), node.fingerprint)
                 else StartCatalog(source, builtin, now)
    ensures IsNew(c, s, n, node, given, source, builtin, now)
    ensures forall c' | IsNew(c', s, n, node, given, source, builtin, now) :: Alike(c, c')
  {
    c := if given.Some? then Merge(given.value, StoredCatalog(s, n), node.fingerprint)
         else StartCatalog(source, builtin, now);
  }

  /** Equal in everything the acceptance of a catalogue looks at. */
  predicate Alike(a: Catalog, b: Catalog) {
    && a.models == b.models && a.source == b.source
    && (a.source == Discovered ==>
        a.lastSuccess == b.lastSuccess && (a.validUntil == b.validUntil || a.lastSuccess == 0))
  }

  /**
   A node is stored with its catalogue exactly if nothing stands against it: an enabled node can serve
   something, what is handed in was made for the stored revision, and its items are valid.
   */
  lemma WritesExactly(s: Sys, n: string, given: Option<Catalog>, source: Source, builtin: Capability, now: nat)
    requires n in s.nodes
    ensures WriteCatalog(s, n, given, source, builtin, now).Some? <==>
            Storable(s, n, s.nodes[n], given, source, builtin, now)
  {
    hide Merge, StartCatalog, Overlay, SyncRoutes, ValidModelId, IsNew;
    var node := s.nodes[n];
    var c := Chosen(s, n, node, given, source, builtin, now);
    ServesAlike(c, now);
    if n in s.catalogs {
      ServesAlike(s.catalogs[n], now);
    }
    forall c' | IsNew(c', s, n, node, given, source, builtin, now) ensures CanServe(c', now) <==> CanServe(c, now) {
      assert Alike(c, c');
    }
  }

  lemma ServesAlike(c: Catalog, now: nat)
    ensures HasEnabled(c, now) <==> CanServe(c, now)
    ensures ItemsOk(c.models) <==> ValidItems(c.models)
  {
    hide ValidModelId;
  }

  /** And what is stored then. */
  lemma WritesMerge(s: Sys, n: string, given: Option<Catalog>, source: Source, builtin: Capability, now: nat)
    requires n in s.nodes && WriteCatalog(s, n, given, source, builtin, now).Some?
    ensures var s' := WriteCatalog(s, n, given, source, builtin, now).value;
            && s'.nodes == s.nodes && s'.revision == s.revision + 1 && n in s'.catalogs
            && s'.catalogs == s.catalogs[n := s'.catalogs[n]] && s'.catalogs[n].fingerprint == s.nodes[n].fingerprint
            && if given.None? && SameConnection(s, n, s.nodes[n]) then s'.catalogs == s.catalogs
               else
                 && s'.catalogs[n].revision == (if n in s.catalogs then s.catalogs[n].revision + 1 else 1)
                 && exists c :: IsNew(c, s, n, s.nodes[n], given, source, builtin, now)
                                && Overlays(if n in s.catalogs then s.catalogs[n].models else map[], c.models,
                                            s'.catalogs[n].models)
                                && s'.catalogs[n].source == c.source && s'.catalogs[n].lastSuccess == c.lastSuccess
                                && s'.catalogs[n].validUntil == c.validUntil
  {
    hide Merge, StartCatalog, Overlay, HasEnabled, ItemsOk, IsNew, Offered, NewRoute;
    var c := Chosen(s, n, s.nodes[n], given, source, builtin, now);
    OverlayOverlays(if n in s.catalogs then s.catalogs[n].models else map[], c.models);
    assert n in s.catalogs ==> s.catalogs[n := s.catalogs[n]] == s.catalogs;
  }

  /** A node is created only once, and edited only as it is now. */
  lemma NodesExactly(s: Sys, n: string, version: nat, node: Node, allowed: bool, given: Option<Catalog>, source: Source,
      builtin: Capability, now: nat)
    ensures var first := s.(nodes := s.nodes[n := node.(version := 1, deleted := false)]);
            Apply(s, Create(n, node, given, source, builtin, now)) != s <==>
              n !in s.nodes && Storable(s, n, first.nodes[n], given, source, builtin, now)
    ensures var next := s.(nodes := s.nodes[n := node.(version := version + 1, deleted := false)]);
            Apply(s, Update(n, version, node, allowed, given, source, builtin, now)) != s <==>
              Current(s, n, version) && allowed && Storable(s, n, next.nodes[n], given, source, builtin, now)
  {
    hide WriteCatalog, IsNew, CanServe, ValidItems;
    var first := s.(nodes := s.nodes[n := node.(version := 1, deleted := false)]);
    var next := s.(nodes := s.nodes[n := node.(version := version + 1, deleted := false)]);
    WritesExactly(first, n, given, source, builtin, now);
    WritesExactly(next, n, given, source, builtin, now);
    SameQuestion(s, first, n, first.nodes[n], given, source, builtin, now);
    SameQuestion(s, next, n, next.nodes[n], given, source, builtin, now);
    if WriteCatalog(first, n, given, source, builtin, now).Some? {
      WritesMerge(first, n, given, source, builtin, now);
    }
    if WriteCatalog(next, n, given, source, builtin, now).Some? {
      WritesMerge(next, n, given, source, builtin, now);
    }
  }

  /** The node itself is not looked at. */
  lemma SameQuestion(a: Sys, b: Sys, n: string, node: Node, given: Option<Catalog>, source: Source, builtin: Capability,
      now: nat)
    requires a.catalogs == b.catalogs
    ensures Storable(a, n, node, given, source, builtin, now) == Storable(b, n, node, given, source, builtin, now)
  {
    hide CanServe, ValidItems;
    forall c
      ensures IsNew(c, a, n, node, given, source, builtin, now) == IsNew(c, b, n, node, given, source, builtin, now)
    {
    }
  }

  /** A node is removed exactly while it is disabled; then it offers nothing any more. */
  lemma RemovesExactly(s: Sys, n: string, version: nat, allowed: bool, model: string)
    ensures var s' := Apply(s, Delete(n, version, allowed));
            if Current(s, n, version) && !s.nodes[n].enabled && allowed then
              && n in s'.nodes && s' == s.(nodes := s.nodes[n := s'.nodes[n]], revision := s.revision + 1)
              && s'.nodes[n].deleted && s'.nodes[n].version == version + 1 && !Offers(s', n, model)
            else s' == s
  {
  }

  /** The discovery is about the connection, the version and the catalogue as they are now, and its list is valid. */
  predicate Accepted(s: Sys, n: string, version: nat, revision: nat, items: map<string, Capability>) {
    && Current(s, n, version) && SameConnection(s, n, s.nodes[n])
    && s.catalogs[n].source == Discovered && s.catalogs[n].revision == revision
    && |items| <= 256 && forall m | m in items :: ValidModelId(m) && |items[m].modes| > 0
  }

  /** A discovered list is stored exactly if it is accepted and no error. */
  lemma RefreshesExactly(s: Sys, n: string, version: nat, revision: nat, items: map<string, Capability>, error: bool,
      now: nat)
    ensures var s' := Apply(s, Discover(n, version, revision, items, error, now));
            if Accepted(s, n, version, revision, items) && !error then
              && n in s'.catalogs && s'.catalogs == s.catalogs[n := s'.catalogs[n]] && s'.nodes == s.nodes
              && s'.catalogs[n].source == Discovered && s'.catalogs[n].lastSuccess == now
              && s'.catalogs[n].validUntil == now + 1800
              && s'.catalogs[n].models == Overlay(s.catalogs[n].models, AsModels(s.catalogs[n].models, items))
              && var moved := if s'.catalogs[n].models == s.catalogs[n].models then 0 else 1;
              s'.revision == s.revision + moved && s'.catalogs[n].revision == revision + moved
            else s' == s
  {
    hide Changed, SyncRoutes, ValidModelId, Overlay, AsModels;
    if n in s.catalogs {
      var was := s.catalogs[n];
      ChangedIsExact(was.models, items);
      var models := Overlay(was.models, AsModels(was.models, items));
      var changed := Changed(was.models, items);
      var c := was.(revision := if changed then revision + 1 else revision, lastSuccess := now,
                    validUntil := now + 1800, models := models);
      SyncKeeps(s.(catalogs := s.catalogs[n := c]));
    }
  }

  lemma SyncKeeps(s: Sys)
    ensures SyncRoutes(s) == s.(routes := SyncRoutes(s).routes)
  {
    hide Offered, NewRoute;
  }

  lemma ListedIsPresent(was: map<string, Model>, items: map<string, Capability>, model: string)
    ensures var after := Overlay(was, AsModels(was, items));
            && (model in after && after[model].enabled && after[model].present <==>
                  model in items && model in was && was[model].enabled)
            && (model in items ==> model in after && after[model].capability == items[model] && after[model].verified)
  {
  }

  /**
   It then serves for half an hour; on an enabled node exactly the listed models that an administrator
   has enabled are offered, with the capabilities just read.
   */
  lemma DiscoversExactly(s: Sys, n: string, version: nat, revision: nat, items: map<string, Capability>, now: nat,
      model: string)
    requires Accepted(s, n, version, revision, items)
    ensures var s' := Apply(s, Discover(n, version, revision, items, false, now));
            && (Offers(s', n, model) <==>
                  && s.nodes[n].enabled && model in items
                  && model in s.catalogs[n].models && s.catalogs[n].models[model].enabled)
            && n in s'.catalogs
            && (model in items ==>
                  && model in s'.catalogs[n].models && s'.catalogs[n].models[model].capability == items[model]
                  && s'.catalogs[n].models[model].verified)
            && forall t: nat :: Fresh(s'.catalogs[n], t) <==> 0 < now && t < now + 1800
  {
    hide Apply, Overlay, AsModels;
    RefreshesExactly(s, n, version, revision, items, false, now);
    ListedIsPresent(s.catalogs[n].models, items, model);
  }

  /** A route is bound by hand exactly as it is now, and to a protocol over which a node offers the model. */
  lemma BindsExactly(s: Sys, model: string, protocol: string, version: nat, revision: nat)
    ensures var s' := Apply(s, Bind(model, protocol, version, revision));
            if && model in s.routes && s.routes[model].version == version && s.revision == revision
               && exists n :: Offers(s, n, model) && s.nodes[n].protocol == protocol
            then s' == s.(routes := s.routes[model := Route(protocol, ByHand, version + 1)], revision := revision + 1)
            else s' == s
  {
    if n :| Offers(s, n, model) && s.nodes[n].protocol == protocol {
      assert protocol in Protocols(s, model);
    }
  }
}
