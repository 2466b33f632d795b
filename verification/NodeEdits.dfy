/** What may be done to a node while tasks run on it, and what may always be done. */
module NodeEdits {
  import opened Domain
  import opened NodeSlots

  /** A task is under way on the node. */
  predicate UnderWay(s: Sys, n: string) {
    exists t | t in s.tasks :: s.tasks[t].node == n && IsActive(s.tasks[t].status) && !s.tasks[t].deleted
  }

  lemma BusyMeans(s: Sys, n: string)
    ensures Busy(s, n) != {} <==> UnderWay(s, n)
  {
    if UnderWay(s, n) {
      var t :| t in s.tasks && s.tasks[t].node == n && IsActive(s.tasks[t].status) && !s.tasks[t].deleted;
      assert t in Busy(s, n);
    }
  }

  /** The edit is of the node as it is now, and nothing outside this model stands against it. */
  predicate Current(s: Sys, n: string, version: nat, permitted: bool) {
    n in s.nodes && !s.nodes[n].deleted && s.nodes[n].version == version && permitted
  }

  /** An edit that takes effect stores what was asked for, and counts. */
  predicate Stores(s: Sys, s': Sys, n: string, input: Node) {
    && n in s.nodes && n in s'.nodes && s' == s.(nodes := s.nodes[n := s'.nodes[n]])
    && s'.nodes[n] == input.(max := s'.nodes[n].max, version := s.nodes[n].version + 1, deleted := false)
    && (Direct(input.protocol) && input.max >= 1 ==> s'.nodes[n].max == input.max)
    && (!Direct(input.protocol) || input.max == 0 ==> s'.nodes[n].max == 1)
  }

  /** Only for the idle, and only as it is now: an edit of anything but the compatibility mark is stored. */
  lemma IdleEditsExactly(s: Sys, n: string, version: nat, input: Node, permitted: bool)
    requires !UnderWay(s, n)
    ensures var s' := Apply(s, UpdateNode(n, version, input, permitted));
            if Current(s, n, version, permitted) && (input.compat ==> s.nodes[n].compat)
            then Stores(s, s', n, input)
            else s' == s
  {
    BusyMeans(s, n);
  }

  /** Everything about the connection of a node. */
  predicate SameAddress(a: Node, b: Node) {
    a.url == b.url && a.protocol == b.protocol
  }

  /** An edit of a busy node that a maintainer would not think twice about. */
  predicate Routine(was: Node, input: Node) {
    && SameAddress(was, input) && was.settings == input.settings && was.compat == input.compat
    && (|| ((was.protocol == Legacy || (was.key == input.key && was.max == input.max))
            && (was.enabled || !input.enabled))
        || (was.key == input.key && was.enabled && input.enabled && Direct(was.protocol) && was.max < input.max)
        || (was.key != input.key && was.protocol == Tk2sd))
  }

  /** Doing nothing that matters, disabling, raising the concurrency and rotating a tk2sd key go through. */
  lemma RoutineEditsPass(s: Sys, n: string, version: nat, input: Node, permitted: bool)
    requires Current(s, n, version, permitted) && Routine(s.nodes[n], input)
    ensures Stores(s, Apply(s, UpdateNode(n, version, input, permitted)), n, input)
  {
  }

  /** An unchanged legacy node may also carry another key, protocol and all else being fixed. */
  predicate SameCredentials(a: Node, b: Node) {
    a.key == b.key || (a.protocol == Tk2sd && b.protocol == Tk2sd) || (a.protocol == Legacy && b.protocol == Legacy)
  }

  /**
   On a busy node an edit that takes effect keeps address, protocol and compatibility mark, never
   enables the node, keeps the key except of a tk2sd or legacy node and the settings except with a new
   tk2sd key, and never lowers the concurrency of a directly driven node except with a new key.
   */
  lemma BusyEditsKeep(s: Sys, n: string, version: nat, input: Node, permitted: bool)
    requires UnderWay(s, n)
    ensures var s' := Apply(s, UpdateNode(n, version, input, permitted));
            s' != s ==>
              && Current(s, n, version, permitted) && Stores(s, s', n, input)
              && var a, b := s.nodes[n], s'.nodes[n];
              && SameAddress(a, b) && a.compat == b.compat && (b.enabled && !Rotation(a, b) ==> a.enabled)
              && SameCredentials(a, b)
              && (a.settings == b.settings || Rotation(a, b))
              && (Direct(a.protocol) && !Rotation(a, b) ==> input.max >= a.max)
  {
    BusyMeans(s, n);
  }

  /** A node is removed exactly while it is disabled and idle. */
  lemma RemovesExactly(s: Sys, n: string, version: nat)
    ensures var s' := Apply(s, RemoveNode(n, version));
            if Current(s, n, version, true) && !s.nodes[n].enabled && !UnderWay(s, n)
            then n in s'.nodes && s'.nodes[n].deleted && s' == s.(nodes := s.nodes[n := s'.nodes[n]])
            else s' == s
  {
    BusyMeans(s, n);
  }

  /* ---------- Over whole runs ---------- */

  /** Every stored concurrency is usable, and one where only one task can run. */
  predicate MaxesOk(s: Sys) {
    forall n | n in s.nodes :: s.nodes[n].max >= 1 && (!Direct(s.nodes[n].protocol) ==> s.nodes[n].max == 1)
  }

  lemma {:induction false} MaxesStay(s: Sys, steps: seq<Step>)
    requires MaxesOk(s)
    ensures MaxesOk(Exec(s, steps))
    decreases |steps|
  {
    if steps != [] {
      assert MaxesOk(Apply(s, steps[0]));
      MaxesStay(Apply(s, steps[0]), steps[1..]);
    }
  }

  /** A removed node stays as it is; nothing is claimed for it, nothing brings it back. */
  lemma {:induction false} RemovedStays(s: Sys, steps: seq<Step>, n: string)
    requires n in s.nodes && s.nodes[n].deleted
    ensures n in Exec(s, steps).nodes && Exec(s, steps).nodes[n] == s.nodes[n]
    ensures Slots(Exec(s, steps), n) <= Slots(s, n)
    decreases |steps|
  {
    if steps != [] {
      var t := Apply(s, steps[0]);
      assert n in t.nodes && t.nodes[n] == s.nodes[n];
      assert Slots(t, n) <= Slots(s, n);
      RemovedStays(t, steps[1..], n);
    }
  }

  /** The end of generation frees the slot and says how it ended; nothing else ends a slot holder. */
  lemma EndsExactly(s: Sys, t: string, status: Status)
    ensures var s' := Apply(s, End(t, status));
            if t in s.tasks && s.tasks[t].slot && (IsTerminal(status) || status == Reconciling)
            then && t in s'.tasks && s' == s.(tasks := s.tasks[t := s'.tasks[t]])
                 && s'.tasks[t].status == status && !s'.tasks[t].slot && s'.tasks[t].node == s.tasks[t].node
            else s' == s
  {
  }
}
