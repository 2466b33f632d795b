/**
 Nodes, their model catalogues, the routes chosen for models, and the one revision number that
 versions all of it.  Resolving a request reads these tables piece by piece, without a
 transaction; the revision is compared once, when the task is stored.
 */
module Routing {
  import opened Domain
  import opened ModelRouting

  datatype Model = Model(enabled: bool, present: bool, verified: bool, capability: Capability)

  datatype Source = Builtin | Manual | Discovered

  /** `fingerprint` stands for protocol, service address and key together. */
  datatype Node = Node(enabled: bool, protocol: string, fingerprint: string, version: nat, deleted: bool)

  datatype Catalog = Catalog(source: Source, revision: nat, fingerprint: string, lastSuccess: nat, validUntil: nat,
                             models: map<string, Model>)

  datatype Mode = Auto | Unresolved | ByHand
  datatype Route = Route(protocol: string, mode: Mode, version: nat)  // an empty protocol stands for NULL

  datatype Sys = Sys(revision: nat, nodes: map<string, Node>, catalogs: map<string, Catalog>,
                     routes: map<string, Route>)

  /** What the revision has to version: who is enabled and what it offers, and the routes. */
  datatype Offer = Offer(enabled: bool, protocol: string, deleted: bool, source: Option<Source>,
                         models: map<string, Model>)
  datatype Content = Content(offers: map<string, Offer>, routes: map<string, Route>)

  function ContentOf(s: Sys): Content {
    Content(map n | n in s.nodes :: OfferOf(s, n), s.routes)
  }

  function OfferOf(s: Sys, n: string): Offer
    requires n in s.nodes
  {
    var node := s.nodes[n];
    if n in s.catalogs
    then Offer(node.enabled, node.protocol, node.deleted, Some(s.catalogs[n].source), s.catalogs[n].models)
    else Offer(node.enabled, node.protocol, node.deleted, None, map[])
  }

  /* ---------- Routes follow the catalogues ---------- */

  predicate Offers(s: Sys, n: string, model: string) {
    && n in s.nodes && s.nodes[n].enabled && !s.nodes[n].deleted && n in s.catalogs
    && model in s.catalogs[n].models && s.catalogs[n].models[model].enabled && s.catalogs[n].models[model].present
  }

  function Protocols(s: Sys, model: string): set<string> {
    set n | n in s.nodes && Offers(s, n, model) :: s.nodes[n].protocol
  }

  function Offered(s: Sys): set<string> {
    set n, model | n in s.catalogs && model in s.catalogs[n].models && Offers(s, n, model) :: model
  }

  function NewRoute(s: Sys, model: string): Route {
    var protocols := Protocols(s, model);
    if exists p | p in protocols :: protocols == {p}
    then var p :| p in protocols && protocols == {p}; Route(p, Auto, 1)
    else Route("", Unresolved, 1)
  }

  /** Models that are offered and have no route yet get one; existing routes stay. */
  function SyncRoutes(s: Sys): Sys {
    s.(routes := (map model | model in Offered(s) :: NewRoute(s, model)) + s.routes)
  }

  function Bump(s: Sys): Sys {
    s.(revision := s.revision + 1)
  }

  /* ---------- The writers ---------- */

  predicate Fresh(c: Catalog, now: nat) {
    c.source == Discovered ==> c.lastSuccess > 0 && now < c.validUntil
  }

  predicate HasEnabled(c: Catalog, now: nat) {
    Fresh(c, now) && exists m | m in c.models :: c.models[m].enabled && c.models[m].present
  }

  /** Models the new list does not name stay on record, but not present. */
  function Overlay(was: map<string, Model>, items: map<string, Model>): map<string, Model> {
    (map m | m in was :: was[m].(present := false)) + items
  }

  /** The catalogue a protocol starts with; a discovering one starts empty. */
  function StartCatalog(source: Source, builtin: Capability, now: nat): Catalog {
    if source == Discovered then Catalog(Discovered, 0, "", 0, 0, map[])
    else Catalog(source, 0, "", now, 0, map["MiniMax-H3" := Model(true, true, source == Builtin, builtin)])
  }

  /** A catalogue handed in keeps the later of two successes of the same connection. */
  function Merge(c: Catalog, was: Option<Catalog>, fingerprint: string): Catalog {
    if was.Some? && c.source == Discovered && was.value.fingerprint == fingerprint
       && was.value.lastSuccess > c.lastSuccess
    then c.(lastSuccess := was.value.lastSuccess, validUntil := was.value.validUntil)
    else c
  }

  /** 1 to 128 visible characters and no asterisk. */
  predicate ValidModelId(m: string) {
    1 <= |m| <= 128 && '*' !in m && forall c | c in m :: c > ' ' && c != '\U{7F}'
  }

  predicate ItemsOk(items: map<string, Model>) {
    |items| <= 256 && forall m | m in items :: ValidModelId(m) && items[m].capability.modes != []
  }

  /** Storing a node's catalogue together with the node: the revision always moves. */
  function WriteCatalog(s: Sys, n: string, given: Option<Catalog>, source: Source, builtin: Capability,
      now: nat): Option<Sys>
    requires n in s.nodes
  {
    var node := s.nodes[n];
    var was := if n in s.catalogs then Some(s.catalogs[n]) else None;
    if given.None? && was.Some? && was.value.fingerprint == node.fingerprint then
      if node.enabled && !HasEnabled(was.value, now) then None else Some(Bump(SyncRoutes(s)))
    else if given.Some? && was.Some? && given.value.revision != was.value.revision then None
    else
      var c := if given.Some? then Merge(given.value, was, node.fingerprint) else StartCatalog(source, builtin, now);
      if !ItemsOk(c.models) || (node.enabled && !HasEnabled(c, now)) then None else
      var models := Overlay(if was.Some? then was.value.models else map[], c.models);
      var stored := c.(revision := if was.Some? then was.value.revision + 1 else 1, fingerprint := node.fingerprint,
                       models := models);
      Some(Bump(SyncRoutes(s.(catalogs := s.catalogs[n := stored]))))
  }

  function CreateNode(s: Sys, n: string, node: Node, given: Option<Catalog>, source: Source, builtin: Capability,
      now: nat): Option<Sys>
  {
    if n in s.nodes then None
    else WriteCatalog(s.(nodes := s.nodes[n := node.(version := 1, deleted := false)]), n, given, source, builtin, now)
  }

  /** `allowed` stands for the guards on running tasks. */
  function UpdateNode(s: Sys, n: string, version: nat, node: Node, allowed: bool, given: Option<Catalog>,
      source: Source, builtin: Capability, now: nat): Option<Sys>
  {
    if n !in s.nodes || s.nodes[n].deleted || s.nodes[n].version != version || !allowed then None
    else WriteCatalog(s.(nodes := s.nodes[n := node.(version := version + 1, deleted := false)]), n, given, source,
                      builtin, now)
  }

  function DeleteNode(s: Sys, n: string, version: nat, allowed: bool): Option<Sys> {
    if n !in s.nodes || s.nodes[n].deleted || s.nodes[n].version != version || s.nodes[n].enabled || !allowed then None
    else Some(Bump(s.(nodes := s.nodes[n := s.nodes[n].(deleted := true, version := version + 1)])))
  }

  /** A discovered list as models: present and verified, enabled as they were before. */
  function AsModels(was: map<string, Model>, items: map<string, Capability>): map<string, Model> {
    map m | m in items :: Model(m in was && was[m].enabled, true, true, items[m])
  }

  /** The test the program makes: a listed model is new or different, or a present one is no longer listed. */
  predicate Changed(was: map<string, Model>, items: map<string, Capability>) {
    || (exists m | m in items :: !(m in was && was[m] == AsModels(was, items)[m]))
    || (exists m | m in was :: was[m].present && m !in items)
  }

  /** It is exact: the stored models change if and only if the test says so. */
  lemma ChangedIsExact(was: map<string, Model>, items: map<string, Capability>)
    ensures Changed(was, items) <==> Overlay(was, AsModels(was, items)) != was
  {
    var next := Overlay(was, AsModels(was, items));
    if Changed(was, items) {
      if m :| m in items && !(m in was && was[m] == AsModels(was, items)[m]) {
        assert next[m] == AsModels(was, items)[m];
      } else {
        var m :| m in was && was[m].present && m !in items;
        assert !next[m].present;
      }
    } else {
      forall m | m in was ensures next[m] == was[m] {
        if m in items { assert was[m] == AsModels(was, items)[m]; }
      }
      assert forall m | m in items :: m in was;
    }
  }

  /** A discovery result: the revision moves only when the stored models change. */
  function Refresh(s: Sys, n: string, version: nat, revision: nat, items: map<string, Capability>, error: bool,
      now: nat): Option<Sys>
  {
    if |items| > 256 || n !in s.nodes || s.nodes[n].deleted || s.nodes[n].version != version || n !in s.catalogs
       then None else
    var was := s.catalogs[n];
    if was.revision != revision || was.fingerprint != s.nodes[n].fingerprint || was.source != Discovered then None
    else if error then Some(s)
    else if exists m | m in items :: !ValidModelId(m) || items[m].modes == [] then None
    else
      var models := Overlay(was.models, AsModels(was.models, items));
      var changed := Changed(was.models, items);
      var c := was.(revision := if changed then revision + 1 else revision, lastSuccess := now,
                    validUntil := now + 1800, models := models);
      var s' := s.(catalogs := s.catalogs[n := c]);
      Some(if changed then Bump(SyncRoutes(s')) else s')
  }

  function BindRoute(s: Sys, model: string, protocol: string, version: nat, revision: nat): Option<Sys> {
    if model !in s.routes || s.routes[model].version != version || s.revision != revision
       || protocol !in Protocols(s, model) then None
    else Some(Bump(s.(routes := s.routes[model := Route(protocol, ByHand, version + 1)])))
  }

  /* ---------- Runs ---------- */

  datatype Step =
    | Create(n: string, node: Node, given: Option<Catalog>, source: Source, builtin: Capability, now: nat)
    | Update(n: string, version: nat, node: Node, allowed: bool, given: Option<Catalog>, source: Source,
             builtin: Capability, now: nat)
    | Delete(n: string, version: nat, allowed: bool)
    | Discover(n: string, version: nat, revision: nat, items: map<string, Capability>, error: bool, now: nat)
    | Bind(model: string, protocol: string, version: nat, revision: nat)

  function Apply(s: Sys, step: Step): Sys {
    var result :=
      match step
      case Create(n, node, given, source, builtin, now) => CreateNode(s, n, node, given, source, builtin, now)
      case Update(n, version, node, allowed, given, source, builtin, now) => UpdateNode(s, n, version, node, allowed,
        given, source, builtin, now)
      case Delete(n, version, allowed) => DeleteNode(s, n, version, allowed)
      case Discover(n, version, revision, items, error, now) => Refresh(s, n, version, revision, items, error, now)
      case Bind(model, protocol, version, revision) => BindRoute(s, model, protocol, version, revision);
    if result.Some? then result.value else s
  }

  /** A step that leaves the revision where it was leaves the content as it was; otherwise the revision grows. */
  lemma RevisionVersionsContent(s: Sys, step: Step)
    ensures s.revision <= Apply(s, step).revision
    ensures Apply(s, step).revision == s.revision ==> ContentOf(Apply(s, step)) == ContentOf(s)
  {
    hide SyncRoutes, Overlay, AsModels, Changed, HasEnabled, ItemsOk, Protocols, Merge;
    SyncKeepsRevision();
    if step.Discover? && step.n in s.catalogs {
      ChangedIsExact(s.catalogs[step.n].models, step.items);
    }
  }

  lemma SyncKeepsRevision()
    ensures forall s: Sys :: SyncRoutes(s).revision == s.revision
  {
  }

  ghost predicate Next(a: Sys, b: Sys) {
    exists step :: b == Apply(a, step)
  }

  /** The states a run passes through. */
  ghost predicate History(h: seq<Sys>) {
    forall i | 0 < i < |h| :: Next(h[i - 1], h[i])
  }

  lemma NextVersions(a: Sys, b: Sys)
    requires Next(a, b)
    ensures a.revision <= b.revision && (a.revision == b.revision ==> ContentOf(a) == ContentOf(b))
  {
    hide Apply, ContentOf;
    var step :| b == Apply(a, step);
    RevisionVersionsContent(a, step);
  }

  /** Between two moments with the same revision nothing that routing reads has changed. */
  lemma {:induction false} SameRevisionSameContent(h: seq<Sys>, i: nat, j: nat)
    requires History(h) && i <= j < |h|
    ensures h[i].revision <= h[j].revision
    ensures h[i].revision == h[j].revision ==> ContentOf(h[i]) == ContentOf(h[j])
    decreases j - i
  {
    hide Next, ContentOf;
    if i < j {
      SameRevisionSameContent(h, i, j - 1);
      NextVersions(h[j - 1], h[j]);
    }
  }
}
