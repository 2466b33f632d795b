/** Resolving a request to a node and a capability from scattered reads, and the check when the task is stored. */
module Resolver {
  import opened Domain
  import opened ModelRouting
  import opened Routing
  import N = Normalizer

  const TK2SD := "tk2sd-v1"

  /** The route of a model as read: the row, the protocols that offer the model, the revision. */
  datatype RouteRead = RouteRead(route: Option<Route>, protocols: seq<string>, revision: nat)

  datatype NodeRead = NodeRead(id: string, enabled: bool, protocol: string)

  /** A catalogue as read: its header and its rows come from two queries, and either may fail. */
  datatype CatalogRead =
    | Unreadable
    | CatalogRead(source: Source, lastSuccess: nat, validUntil: nat, items: seq<(string, Model)>)

  /**
   What resolving depends on besides the tables.  `other` is what the protocols other than tk2sd
   make of the request before the capability is consulted.
   */
  datatype Question = Question(
    request: N.Request, checks: N.Checks, other: string -> Option<Requirements>,
    now: nat, known: set<string>, healthy: string -> bool)

  datatype Decision =
    | Decided(node: string, item: Model, route: Route, revision: nat, requirements: Requirements)
    | Unsupported | Ambiguous | Unavailable | BadInput | ReadFailed

  /** The protocol's normaliser on this request; each of them ends by asking the capability. */
  function Needs(q: Question, protocol: string, c: Capability): Option<Requirements> {
    if protocol == TK2SD then
      match N.Normal(q.request, c, q.checks)
      case Accepted(n) => Some(n.requirements)
      case _ => None
    else
      match q.other(protocol)
      case Some(needs) => if ModelRouting.Accepts(c, needs) then Some(needs) else None
      case None => None
  }

  lemma NeedsAreAccepted(q: Question, protocol: string, c: Capability)
    requires Needs(q, protocol, c).Some?
    ensures ModelRouting.Accepts(c, Needs(q, protocol, c).value)
  {
    hide ModelRouting.Accepts;
  }

  /* ---------- The scan ---------- */

  predicate Usable(q: Question, item: (string, Model)) {
    item.0 == q.request.model && item.1.enabled && item.1.present
  }

  predicate Passes(q: Question, protocol: string, item: (string, Model)) {
    Usable(q, item) && Needs(q, protocol, item.1.capability).Some?
  }

  /** The nodes whose catalogue is read at all. */
  predicate Asked(route: Route, n: NodeRead) {
    n.enabled && n.protocol == route.protocol
  }

  predicate Considered(q: Question, route: Route, n: NodeRead, c: CatalogRead) {
    && Asked(route, n) && c.CatalogRead?
    && (c.source == Discovered ==> q.now < c.validUntil && c.lastSuccess > 0)
  }

  /** The scan ends with an error at node `i`. */
  predicate Broken(route: Route, nodes: seq<NodeRead>, seen: seq<CatalogRead>, i: nat)
    requires |seen| == |nodes|
  {
    i < |nodes| && Asked(route, nodes[i]) && seen[i].Unreadable?
  }

  /** Some entry was looked at and passed, whatever the health of its node. */
  predicate Capable(q: Question, route: Route, nodes: seq<NodeRead>, seen: seq<CatalogRead>, i: nat, j: nat)
    requires |seen| == |nodes|
  {
    && i < |nodes| && Considered(q, route, nodes[i], seen[i]) && j < |seen[i].items|
    && Passes(q, route.protocol, seen[i].items[j])
  }

  /** Entry `j` of catalogue `i` is where the scan may stop. */
  predicate Hit(q: Question, route: Route, nodes: seq<NodeRead>, seen: seq<CatalogRead>, i: nat, j: nat)
    requires |seen| == |nodes|
  {
    Capable(q, route, nodes, seen, i, j) && q.healthy(nodes[i].id)
  }

  /** Some entry was looked at and its normalisation failed. */
  predicate Rejected(q: Question, route: Route, nodes: seq<NodeRead>, seen: seq<CatalogRead>, i: nat, j: nat)
    requires |seen| == |nodes|
  {
    && i < |nodes| && Considered(q, route, nodes[i], seen[i]) && j < |seen[i].items|
    && Usable(q, seen[i].items[j]) && !Passes(q, route.protocol, seen[i].items[j])
  }

  predicate Before(i: nat, j: nat, i': nat, j': nat) {
    i < i' || (i == i' && j < j')
  }

  /** The decision points at the first entry where the scan may stop, and no read failed on the way. */
  ghost predicate DecidedBy(q: Question, route: Route, nodes: seq<NodeRead>, seen: seq<CatalogRead>, d: Decision) {
    && |seen| == |nodes| && d.Decided? && d.route == route
    && exists i: nat, j: nat ::
         && Hit(q, route, nodes, seen, i, j)
         && d.node == nodes[i].id && d.item == seen[i].items[j].1
         && Needs(q, route.protocol, d.item.capability) == Some(d.requirements)
         && (forall i': nat, j': nat | Before(i', j', i, j) :: !Hit(q, route, nodes, seen, i', j'))
         && (forall i': nat | i' < i :: !Broken(route, nodes, seen, i'))
  }

  ghost predicate AnyHit(q: Question, route: Route, nodes: seq<NodeRead>, seen: seq<CatalogRead>)
    requires |seen| == |nodes|
  {
    exists i: nat, j: nat :: Hit(q, route, nodes, seen, i, j)
  }

  ghost predicate AnyBroken(route: Route, nodes: seq<NodeRead>, seen: seq<CatalogRead>)
    requires |seen| == |nodes|
  {
    exists i: nat :: Broken(route, nodes, seen, i)
  }

  /** Something was rejected and nothing passed: the request is to blame. */
  ghost predicate Blamed(q: Question, route: Route, nodes: seq<NodeRead>, seen: seq<CatalogRead>)
    requires |seen| == |nodes|
  {
    && (forall i: nat, j: nat :: !Capable(q, route, nodes, seen, i, j))
    && exists i: nat, j: nat :: Rejected(q, route, nodes, seen, i, j)
  }

  /** Which of the four ways out a scan takes. */
  ghost predicate Scanned(q: Question, route: Route, nodes: seq<NodeRead>, seen: seq<CatalogRead>, d: Decision)
    requires |seen| == |nodes|
  {
    match d
    case Decided(_, _, _, _, _) => DecidedBy(q, route, nodes, seen, d)
    case ReadFailed =>
      exists i: nat :: Broken(route, nodes, seen, i)
        && forall i': nat, j': nat | i' < i :: !Hit(q, route, nodes, seen, i', j')
    case BadInput => !AnyHit(q, route, nodes, seen) && !AnyBroken(route, nodes, seen) && Blamed(q, route, nodes, seen)
    case Unavailable => !AnyHit(q, route, nodes, seen) && !AnyBroken(route, nodes, seen)
      && !Blamed(q, route, nodes, seen)
    case _ => false
  }

  /** Stops at the first hit or failed read; without one it tells a bad request from an unavailable route. */
  method Scan(q: Question, route: Route, revision: nat, nodes: seq<NodeRead>, seen: seq<CatalogRead>)
    returns (d: Decision)
    requires |seen| == |nodes|
    ensures Scanned(q, route, nodes, seen, d) && (d.Decided? ==> d.revision == revision)
  {
    hide Considered, Passes, Usable, Needs;
    var hasCapability, failed := false, false;
    for i := 0 to |nodes|
      invariant forall i': nat, j': nat | i' < i :: !Hit(q, route, nodes, seen, i', j')
      invariant forall i': nat | i' < i :: !Broken(route, nodes, seen, i')
      invariant hasCapability <==> exists i': nat, j': nat :: i' < i && Capable(q, route, nodes, seen, i', j')
      invariant failed <==> exists i': nat, j': nat :: i' < i && Rejected(q, route, nodes, seen, i', j')
    {
      if !Asked(route, nodes[i]) {
        OnlyAsked(q, route, nodes[i], seen[i]);
        continue;
      }
      if seen[i].Unreadable? {
        assert Broken(route, nodes, seen, i);
        return ReadFailed;
      }
      if !Considered(q, route, nodes[i], seen[i]) { continue; }
      for j := 0 to |seen[i].items|
        invariant forall i': nat, j': nat | Before(i', j', i, j) :: !Hit(q, route, nodes, seen, i', j')
        invariant hasCapability <==>
                    exists i': nat, j': nat :: Before(i', j', i, j) && Capable(q, route, nodes, seen, i', j')
        invariant failed <==>
                    exists i': nat, j': nat :: Before(i', j', i, j) && Rejected(q, route, nodes, seen, i', j')
      {
        var item := seen[i].items[j];
        Narrow(q, route.protocol, item);
        if !Usable(q, item) { continue; }
        if !Passes(q, route.protocol, item) {
          assert Rejected(q, route, nodes, seen, i, j);
          failed := true;
          continue;
        }
        assert Capable(q, route, nodes, seen, i, j);
        hasCapability := true;
        if !q.healthy(nodes[i].id) { continue; }
        assert Hit(q, route, nodes, seen, i, j);
        return Decided(nodes[i].id, item.1, route, revision, Needs(q, route.protocol, item.1.capability).value);
      }
    }
    return if !hasCapability && failed then BadInput else Unavailable;
  }

  lemma Narrow(q: Question, protocol: string, item: (string, Model))
    ensures Passes(q, protocol, item) <==> Usable(q, item) && Needs(q, protocol, item.1.capability).Some?
  {
  }

  lemma OnlyAsked(q: Question, route: Route, n: NodeRead, c: CatalogRead)
    ensures Considered(q, route, n, c) ==> Asked(route, n)
  {
  }

  /* ---------- Resolving ---------- */

  predicate IsAmbiguous(route: Route, protocols: seq<string>) {
    || route.protocol == "" || route.mode == Unresolved
    || (route.mode != ByHand && exists p | p in protocols :: p != route.protocol)
  }

  /** Every answer exactly under its condition. */
  method Resolve(q: Question, read: RouteRead, nodes: seq<NodeRead>, seen: seq<CatalogRead>) returns (d: Decision)
    requires |seen| == |nodes|
    ensures d.Unsupported? <==> read.route.None?
    ensures d.Ambiguous? <==> read.route.Some? && IsAmbiguous(read.route.value, read.protocols)
    ensures read.route.Some? && !IsAmbiguous(read.route.value, read.protocols) ==>
              if read.route.value.protocol in q.known then Scanned(q, read.route.value, nodes, seen, d)
                 else d.Unavailable?
    ensures d.Decided? ==> d.revision == read.revision
  {
    hide Scanned;
    if read.route.None? { return Unsupported; }
    var route := read.route.value;
    if route.protocol == "" || route.mode == Unresolved { return Ambiguous; }
    if route.mode != ByHand {
      for i := 0 to |read.protocols|
        invariant forall p | p in read.protocols[..i] :: p == route.protocol
      {
        assert read.protocols[..i + 1] == read.protocols[..i] + [read.protocols[i]];
        if read.protocols[i] != route.protocol {
          assert read.protocols[i] in read.protocols;
          return Ambiguous;
        }
      }
      assert read.protocols[..|read.protocols|] == read.protocols;
    }
    if route.protocol !in q.known { return Unavailable; }
    d := Scan(q, route, read.revision, nodes, seen);
    ScanAnswers(q, route, nodes, seen, d);
  }

  lemma ScanAnswers(q: Question, route: Route, nodes: seq<NodeRead>, seen: seq<CatalogRead>, d: Decision)
    requires |seen| == |nodes| && Scanned(q, route, nodes, seen, d)
    ensures !d.Unsupported? && !d.Ambiguous?
  {
  }

  /** The four answers of a scan exclude one another, so each is given exactly under its condition. */
  lemma ScanIsDetermined(q: Question, route: Route, nodes: seq<NodeRead>, seen: seq<CatalogRead>, d: Decision,
      d': Decision)
    requires |seen| == |nodes| && Scanned(q, route, nodes, seen, d) && Scanned(q, route, nodes, seen, d')
    ensures d.Decided? == d'.Decided? && d.ReadFailed? == d'.ReadFailed?
    ensures d.BadInput? == d'.BadInput? && d.Unavailable? == d'.Unavailable?
    ensures d.Decided? ==> d'.(revision := d.revision) == d
  {
    hide Passes, Usable, Needs;
    if d.Decided? && d'.Decided? {
      var i: nat, j: nat :| Hit(q, route, nodes, seen, i, j) && d.node == nodes[i].id && d.item == seen[i].items[j].1
        && (forall i': nat, j': nat | Before(i', j', i, j) :: !Hit(q, route, nodes, seen, i', j'));
      var m: nat, n: nat :| Hit(q, route, nodes, seen, m, n) && d'.node == nodes[m].id && d'.item == seen[m].items[n].1
        && (forall i': nat, j': nat | Before(i', j', m, n) :: !Hit(q, route, nodes, seen, i', j'));
      assert !Before(i, j, m, n) && !Before(m, n, i, j);
    } else if d.Decided? {
      DecidedExcludes(q, route, nodes, seen, d, d');
    } else if d'.Decided? {
      DecidedExcludes(q, route, nodes, seen, d', d);
    }
  }

  lemma DecidedExcludes(q: Question, route: Route, nodes: seq<NodeRead>, seen: seq<CatalogRead>, d: Decision,
      d': Decision)
    requires |seen| == |nodes| && DecidedBy(q, route, nodes, seen, d) && Scanned(q, route, nodes, seen, d')
    ensures d'.Decided?
  {
    hide Capable;
    var i: nat, j: nat :| Hit(q, route, nodes, seen, i, j)
      && (forall i': nat | i' < i :: !Broken(route, nodes, seen, i'));
    if d'.ReadFailed? {
      var b: nat :| Broken(route, nodes, seen, b)
        && forall i': nat, j': nat | i' < b :: !Hit(q, route, nodes, seen, i', j');
      assert b == i;
      HitIsReadable(q, route, nodes, seen, i, j);
    }
  }

  lemma HitIsReadable(q: Question, route: Route, nodes: seq<NodeRead>, seen: seq<CatalogRead>, i: nat, j: nat)
    requires |seen| == |nodes| && Hit(q, route, nodes, seen, i, j)
    ensures !Broken(route, nodes, seen, i)
  {
  }

  /* ---------- The reads, and the states they came from ---------- */

  predicate ReadsRoute(s: Sys, model: string, read: RouteRead) {
    && read.revision == s.revision
    && read.route == (if model in s.routes then Some(s.routes[model]) else None)
    && (set p | p in read.protocols) == Protocols(s, model)
  }

  predicate ReadsNode(s: Sys, n: NodeRead) {
    && n.id in s.nodes && !s.nodes[n.id].deleted
    && s.nodes[n.id].enabled == n.enabled && s.nodes[n.id].protocol == n.protocol
  }

  /** The header query. */
  predicate ReadsHeader(s: Sys, n: string, c: CatalogRead) {
    && c.CatalogRead? && n in s.nodes && n in s.catalogs && s.catalogs[n].source == c.source
    && s.catalogs[n].lastSuccess == c.lastSuccess && s.catalogs[n].validUntil == c.validUntil
  }

  /** The query of the rows; only rows of this node, each as it is stored. */
  predicate ReadsItems(s: Sys, n: string, c: CatalogRead) {
    && c.CatalogRead? && n in s.nodes && n in s.catalogs
    && forall item | item in c.items :: item.0 in s.catalogs[n].models && s.catalogs[n].models[item.0] == item.1
  }

  /** The decision describes this state: route, node and capability are all there. */
  predicate Describes(q: Question, d: Decision, s: Sys) {
    && d.Decided? && q.request.model in s.routes && s.routes[q.request.model] == d.route
    && Offers(s, d.node, q.request.model) && s.nodes[d.node].protocol == d.route.protocol
    && s.catalogs[d.node].models[q.request.model] == d.item
    && Needs(q, d.route.protocol, d.item.capability) == Some(d.requirements)
    && (d.route.mode != ByHand ==> Protocols(s, q.request.model) == {d.route.protocol})
  }

  /**
   The reads of one resolution: the route first, then the list of nodes, then for each node that
   is considered the header and, by another query, the rows of its catalogue, at any moments up to `end`.
   */
  ghost predicate ReadsOf(h: seq<Sys>, routeAt: nat, listAt: nat, headerAt: seq<nat>, itemsAt: seq<nat>, end: nat,
                          q: Question, read: RouteRead, nodes: seq<NodeRead>, seen: seq<CatalogRead>)
  {
    && History(h) && routeAt <= listAt <= end < |h| && |headerAt| == |itemsAt| == |seen| == |nodes|
    && ReadsRoute(h[routeAt], q.request.model, read)
    && (forall i | 0 <= i < |nodes| :: ReadsNode(h[listAt], nodes[i]))
    && (read.route.Some? ==>
          forall i | 0 <= i < |nodes| && Considered(q, read.route.value, nodes[i], seen[i]) ::
            && listAt <= headerAt[i] <= itemsAt[i] <= end
            && ReadsHeader(h[headerAt[i]], nodes[i].id, seen[i])
            && ReadsItems(h[itemsAt[i]], nodes[i].id, seen[i]))
  }

  /**
   If the revision read first is still the stored one at the end, the decision made from reads
   scattered over the run describes the state at the end.
   */
  lemma DecisionIsCurrent(h: seq<Sys>, routeAt: nat, listAt: nat, headerAt: seq<nat>, itemsAt: seq<nat>, end: nat,
                          q: Question, read: RouteRead, nodes: seq<NodeRead>, seen: seq<CatalogRead>, d: Decision)
    requires ReadsOf(h, routeAt, listAt, headerAt, itemsAt, end, q, read, nodes, seen)
    requires read.route.Some? && !IsAmbiguous(read.route.value, read.protocols)
    requires DecidedBy(q, read.route.value, nodes, seen, d) && d.revision == read.revision
    requires h[end].revision == d.revision
    ensures Describes(q, d, h[end])
    ensures exists i :: 0 <= i < |nodes| && nodes[i].id == d.node && seen[i].CatalogRead?
                        && h[end].catalogs[d.node].source == seen[i].source
  {
    hide History, ContentOf, Protocols, Needs, ReadsRoute, ReadsNode, ReadsHeader, ReadsItems, Offers;
    var route := read.route.value;
    var i: nat, j: nat :|
      && Hit(q, route, nodes, seen, i, j) && d.node == nodes[i].id && d.item == seen[i].items[j].1
      && Needs(q, route.protocol, d.item.capability) == Some(d.requirements);
    assert h[routeAt].revision == d.revision by { RouteIsCurrent(h[routeAt], h[routeAt], q.request.model, read); }
    AllOneContent(h, routeAt, listAt, headerAt[i], itemsAt[i], end);
    RouteIsCurrent(h[routeAt], h[end], q.request.model, read);
    OfferIsCurrent(h[listAt], h[headerAt[i]], h[itemsAt[i]], h[end], nodes[i], seen[i], j);
    OfferedProtocols(h[end], d.node, q.request.model);
  }

  /** What the route read says still holds. */
  lemma RouteIsCurrent(was: Sys, now: Sys, model: string, read: RouteRead)
    requires ReadsRoute(was, model, read) && ContentOf(was) == ContentOf(now)
    ensures read.revision == was.revision
    ensures read.route == (if model in now.routes then Some(now.routes[model]) else None)
    ensures (set p | p in read.protocols) == Protocols(now, model)
  {
    hide ContentOf, Protocols;
    SameRoutes(was, now, model);
  }

  /** What the three reads about a node say still holds. */
  lemma OfferIsCurrent(list: Sys, header: Sys, items: Sys, now: Sys, n: NodeRead, c: CatalogRead, j: nat)
    requires ReadsNode(list, n) && ReadsHeader(header, n.id, c) && ReadsItems(items, n.id, c)
    requires ContentOf(list) == ContentOf(header) == ContentOf(items) == ContentOf(now)
    requires n.enabled && j < |c.items| && c.items[j].1.enabled && c.items[j].1.present
    ensures Offers(now, n.id, c.items[j].0) && now.nodes[n.id].protocol == n.protocol
    ensures now.catalogs[n.id].models[c.items[j].0] == c.items[j].1 && now.catalogs[n.id].source == c.source
  {
    hide ContentOf;
    SameOffer(list, now, n.id);
    SameOffer(header, now, n.id);
    SameOffer(items, now, n.id);
    assert c.items[j] in c.items;
  }

  lemma AllOneContent(h: seq<Sys>, a: nat, b: nat, c: nat, d: nat, e: nat)
    requires History(h) && a <= b <= c <= d <= e < |h| && h[a].revision == h[e].revision
    ensures ContentOf(h[a]) == ContentOf(h[b]) == ContentOf(h[c]) == ContentOf(h[d]) == ContentOf(h[e])
  {
    hide History, ContentOf;
    SameRevisionSameContent(h, a, e);
    SameRevisionSameContent(h, a, b);
    SameRevisionSameContent(h, b, e);
    SameRevisionSameContent(h, b, c);
    SameRevisionSameContent(h, c, e);
    SameRevisionSameContent(h, c, d);
    SameRevisionSameContent(h, d, e);
  }

  lemma SameOffer(a: Sys, b: Sys, n: string)
    requires ContentOf(a) == ContentOf(b) && n in a.nodes
    ensures n in b.nodes && b.nodes[n].enabled == a.nodes[n].enabled
            && b.nodes[n].protocol == a.nodes[n].protocol && b.nodes[n].deleted == a.nodes[n].deleted
    ensures n in a.catalogs ==>
              n in b.catalogs && b.catalogs[n].models == a.catalogs[n].models
                && b.catalogs[n].source == a.catalogs[n].source
  {
    assert ContentOf(a).offers[n] == ContentOf(b).offers[n];
  }

  lemma SameRoutes(a: Sys, b: Sys, model: string)
    requires ContentOf(a) == ContentOf(b)
    ensures a.routes == b.routes && Protocols(a, model) == Protocols(b, model)
  {
    forall n | n in a.nodes || n in b.nodes
      ensures n in a.nodes && n in b.nodes
      ensures Offers(a, n, model) == Offers(b, n, model) && a.nodes[n].protocol == b.nodes[n].protocol
    {
      assert n in ContentOf(a).offers && n in ContentOf(b).offers;
      SameOffer(a, b, n);
      SameOffer(b, a, n);
    }
  }

  lemma OfferedProtocols(s: Sys, n: string, model: string)
    requires Offers(s, n, model)
    ensures s.nodes[n].protocol in Protocols(s, model)
  {
  }

  /* ---------- Storing the task ---------- */

  /** A node that offers the model over the protocol, with a catalogue that has not run out. */
  predicate Routable(s: Sys, n: string, model: string, protocol: string, now: nat) {
    && Offers(s, n, model) && s.nodes[n].protocol == protocol
    && (s.catalogs[n].source == Discovered ==> now < s.catalogs[n].validUntil)
  }

  /** A node that could run the task now. */
  predicate Accepting(s: Sys, n: string, model: string, protocol: string, needs: Requirements, now: nat) {
    Routable(s, n, model, protocol, now) && ModelRouting.Accepts(s.catalogs[n].models[model].capability, needs)
  }

  datatype Verdict = Stored | RouteChanged | NoRoute | NoModel

  /** What the storing transaction has to answer. */
  ghost function Answer(s: Sys, model: string, protocol: string, revision: nat, needs: Requirements,
      now: nat): Verdict
  {
    if s.revision != revision then RouteChanged
    else if exists n :: Accepting(s, n, model, protocol, needs, now) then Stored
    else if exists n :: Routable(s, n, model, protocol, now) then NoModel
    else NoRoute
  }

  /** The check inside the storing transaction, with its loop over the nodes that offer the model. */
  method Recheck(s: Sys, order: seq<string>, model: string, protocol: string, revision: nat, needs: Requirements,
      now: nat)
    returns (v: Verdict)
    requires forall n | n in s.nodes :: n in order
    ensures v == Answer(s, model, protocol, revision, needs, now)
  {
    if s.revision != revision { return RouteChanged; }
    var any, eligible := false, false;
    for i := 0 to |order|
      invariant any <==> exists m :: 0 <= m < i && Routable(s, order[m], model, protocol, now)
      invariant eligible <==> exists m :: 0 <= m < i && Accepting(s, order[m], model, protocol, needs, now)
    {
      if Routable(s, order[i], model, protocol, now) {
        any := true;
        if ModelRouting.Accepts(s.catalogs[order[i]].models[model].capability, needs) {
          assert Accepting(s, order[i], model, protocol, needs, now);
          eligible := true;
        }
      }
    }
    assert forall n | Routable(s, n, model, protocol, now) :: n in order;
    assert forall n | Accepting(s, n, model, protocol, needs, now) :: n in order;
    if !any { return NoRoute; }
    if !eligible { return NoModel; }
    return Stored;
  }

  /**
   From end to end: what was resolved from scattered reads is stored, as long as the revision is
   unchanged and a discovered catalogue has not run out by then.
   */
  lemma ResolvedIsStored(h: seq<Sys>, routeAt: nat, listAt: nat, headerAt: seq<nat>, itemsAt: seq<nat>, end: nat,
                         q: Question, read: RouteRead, nodes: seq<NodeRead>, seen: seq<CatalogRead>, d: Decision,
                         now: nat)
    requires ReadsOf(h, routeAt, listAt, headerAt, itemsAt, end, q, read, nodes, seen)
    requires read.route.Some? && !IsAmbiguous(read.route.value, read.protocols)
    requires DecidedBy(q, read.route.value, nodes, seen, d) && d.revision == read.revision
    requires d.node in h[end].catalogs && h[end].catalogs[d.node].source == Discovered ==>
             now < h[end].catalogs[d.node].validUntil
    ensures Answer(h[end], q.request.model, d.route.protocol, d.revision, d.requirements, now)
            == if h[end].revision == d.revision then Stored else RouteChanged
  {
    hide ModelRouting.Accepts, Needs, History;
    if h[end].revision == d.revision {
      DecisionIsCurrent(h, routeAt, listAt, headerAt, itemsAt, end, q, read, nodes, seen, d);
      NeedsAreAccepted(q, d.route.protocol, d.item.capability);
      assert Accepting(h[end], d.node, q.request.model, d.route.protocol, d.requirements, now);
    }
  }
}
