/** What the answers of the resolver and of the storing transaction mean, in terms of what was read. */
module ResolverTheorems {
  import opened Domain
  import opened ModelRouting
  import opened Routing
  import opened Resolver
  import N = Normalizer
  import A = Acceptance

  /** The node is asked: it is enabled and speaks the protocol of the route. */
  predicate IsAsked(route: Route, n: NodeRead) {
    n.enabled && n.protocol == route.protocol
  }

  /** A catalogue that counts: read, and if it was discovered then successfully and not run out. */
  predicate Counts(c: CatalogRead, now: nat) {
    c.CatalogRead? && (c.source == Discovered ==> 0 < c.lastSuccess && now < c.validUntil)
  }

  /** Entry `j` of node `i` is about the model, on a node that is asked, in a catalogue that counts. */
  predicate Listed(q: Question, route: Route, nodes: seq<NodeRead>, seen: seq<CatalogRead>, i: nat, j: nat)
    requires |seen| == |nodes|
  {
    && i < |nodes| && IsAsked(route, nodes[i]) && Counts(seen[i], q.now) && j < |seen[i].items|
    && seen[i].items[j].0 == q.request.model && seen[i].items[j].1.enabled && seen[i].items[j].1.present
  }

  /** And it can do what is asked for. */
  predicate Serves(q: Question, route: Route, nodes: seq<NodeRead>, seen: seq<CatalogRead>, i: nat, j: nat)
    requires |seen| == |nodes|
  {
    Listed(q, route, nodes, seen, i, j) && Needs(q, route.protocol, seen[i].items[j].1.capability).Some?
  }

  /** The catalogue of a node that is asked could not be read. */
  predicate Fails(route: Route, nodes: seq<NodeRead>, seen: seq<CatalogRead>, i: nat)
    requires |seen| == |nodes|
  {
    i < |nodes| && IsAsked(route, nodes[i]) && seen[i].Unreadable?
  }

  /** Entry `j` of node `i` may be chosen. */
  predicate Choosable(q: Question, route: Route, nodes: seq<NodeRead>, seen: seq<CatalogRead>, i: nat, j: nat)
    requires |seen| == |nodes|
  {
    Serves(q, route, nodes, seen, i, j) && q.healthy(nodes[i].id)
  }

  /** The words the scan is specified in, entry by entry. */
  lemma SameWords(q: Question, route: Route, nodes: seq<NodeRead>, seen: seq<CatalogRead>, i: nat, j: nat)
    requires |seen| == |nodes|
    ensures Capable(q, route, nodes, seen, i, j) <==> Serves(q, route, nodes, seen, i, j)
    ensures Hit(q, route, nodes, seen, i, j) <==> Choosable(q, route, nodes, seen, i, j)
    ensures Rejected(q, route, nodes, seen, i, j) <==>
            Listed(q, route, nodes, seen, i, j) && !Serves(q, route, nodes, seen, i, j)
    ensures Broken(route, nodes, seen, i) <==> Fails(route, nodes, seen, i)
  {
    hide Needs;
  }

  /** A decision is the first entry that may be chosen, and every catalogue before it was read. */
  lemma DecidedIsFirst(q: Question, route: Route, nodes: seq<NodeRead>, seen: seq<CatalogRead>, d: Decision)
    requires DecidedBy(q, route, nodes, seen, d)
    ensures exists i: nat, j: nat ::
              && Choosable(q, route, nodes, seen, i, j) && d.node == nodes[i].id && d.item == seen[i].items[j].1
              && (forall i': nat, j': nat | Choosable(q, route, nodes, seen, i', j') :: i < i' || (i == i' && j <= j'))
              && (forall i': nat | Fails(route, nodes, seen, i') :: i <= i')
  {
    hide Needs;
    var i: nat, j: nat :|
      && Hit(q, route, nodes, seen, i, j) && d.node == nodes[i].id && d.item == seen[i].items[j].1
      && (forall i': nat, j': nat | Before(i', j', i, j) :: !Hit(q, route, nodes, seen, i', j'))
      && (forall i': nat | i' < i :: !Broken(route, nodes, seen, i'));
    SameWords(q, route, nodes, seen, i, j);
    forall i': nat, j': nat | Choosable(q, route, nodes, seen, i', j') ensures i < i' || (i == i' && j <= j') {
      SameWords(q, route, nodes, seen, i', j');
      assert !Before(i', j', i, j);
    }
    forall i': nat | Fails(route, nodes, seen, i') ensures i <= i' {
      SameWords(q, route, nodes, seen, i', 0);
    }
  }

  /** A route is ambiguous unless it names one protocol that a human chose or that nobody disputes. */
  lemma AmbiguousMeans(route: Route, protocols: seq<string>)
    ensures !IsAmbiguous(route, protocols) <==>
              && route.protocol != ""
              && (route.mode == ByHand || (route.mode == Auto && forall p | p in protocols :: p == route.protocol))
  {
  }

  /** The needs of a tk2sd task are those of an ordinary request that the capability accepts. */
  lemma NeedsExactly(q: Question, c: Capability)
    ensures Needs(q, TK2SD, c).Some? <==>
              A.Ordinary(q.request, q.checks) && Accepts(c, N.Needs(N.Prepared(q.request, c)))
    ensures Needs(q, TK2SD, c).Some? ==> Needs(q, TK2SD, c).value == N.Needs(N.Prepared(q.request, c))
    ensures forall protocol | protocol != TK2SD ::
              && (Needs(q, protocol, c).Some? <==> q.other(protocol).Some? && Accepts(c, q.other(protocol).value))
              && (Needs(q, protocol, c).Some? ==> Needs(q, protocol, c) == q.other(protocol))
  {
    hide Accepts, A.Ordinary;
    A.AnswersExactly(q.request, c, q.checks);
  }

  /** The node would take the model over this protocol at this time. */
  predicate Reachable(s: Sys, n: string, model: string, protocol: string, now: nat) {
    && n in s.nodes && s.nodes[n].enabled && !s.nodes[n].deleted && s.nodes[n].protocol == protocol
    && n in s.catalogs && (s.catalogs[n].source == Discovered ==> now < s.catalogs[n].validUntil)
    && model in s.catalogs[n].models && s.catalogs[n].models[model].enabled && s.catalogs[n].models[model].present
  }

  /** A task is stored exactly if nothing has changed and some node would take it as it is. */
  lemma StoresExactly(s: Sys, model: string, protocol: string, revision: nat, needs: Requirements, now: nat)
    ensures var answer := Answer(s, model, protocol, revision, needs, now);
            && (answer == RouteChanged <==> s.revision != revision)
            && (answer == Stored <==>
                  && s.revision == revision
                  && exists n :: && Reachable(s, n, model, protocol, now)
                                 && Accepts(s.catalogs[n].models[model].capability, needs))
            && (answer == NoRoute <==> s.revision == revision && forall n :: !Reachable(s, n, model, protocol, now))
  {
    hide Accepts;
    assert forall n :: Routable(s, n, model, protocol, now) <==> Reachable(s, n, model, protocol, now);
    assert forall n :: Accepting(s, n, model, protocol, needs, now) <==>
      Reachable(s, n, model, protocol, now) && Accepts(s.catalogs[n].models[model].capability, needs);
  }
}
