/** Slots of directly driven nodes against their configured concurrency, across claims, completions and edits. */
module NodeSlots {
  import opened Domain

  datatype Protocol = H3 | MinimaxV2 | Tk2sd | Legacy

  /** `settings` stands for poll interval, timeout, upstream model and result replacement. */
  datatype Node = Node(
    protocol: Protocol, enabled: bool, max: nat, url: string, key: string, settings: string,
    compat: bool, version: nat, deleted: bool)

  datatype Task = Task(node: string, slot: bool, status: Status, deleted: bool)

  datatype Sys = Sys(nodes: map<string, Node>, tasks: map<string, Task>)

  function Slots(s: Sys, n: string): set<string> {
    set t | t in s.tasks && s.tasks[t].slot && s.tasks[t].node == n
  }

  /** What an edit of a node looks at: tasks under way, whether or not they hold a slot. */
  function Busy(s: Sys, n: string): set<string> {
    set t | t in s.tasks && s.tasks[t].node == n && IsActive(s.tasks[t].status) && !s.tasks[t].deleted
  }

  /* ---------- Claims and completions ---------- */

  /** Either directly driven protocol; `argument` is the caller's own limit. */
  function Claim(s: Sys, t: string, n: string, version: nat, argument: nat): Option<Sys> {
    if t in s.tasks && n in s.nodes && s.nodes[n].enabled && !s.nodes[n].deleted && s.nodes[n].version == version
       && (s.nodes[n].protocol == MinimaxV2 || s.nodes[n].protocol == Tk2sd)
       && argument >= 1 && |Slots(s, n)| < Min(argument, s.nodes[n].max)
       && IsQueued(s.tasks[t].status) && !s.tasks[t].deleted && !s.tasks[t].slot
    then Some(s.(tasks := s.tasks[t := Task(n, true, Dispatching, false)]))
    else None
  }

  /** Binding, observing and cancelling change the status of a task that holds its slot. */
  function Progress(s: Sys, t: string, status: Status): Option<Sys> {
    if t in s.tasks && s.tasks[t].slot && IsActive(status) && status != Reconciling
       && (s.tasks[t].node in s.nodes && s.nodes[s.tasks[t].node].protocol == MinimaxV2 ==> status == Running)
    then Some(s.(tasks := s.tasks[t := s.tasks[t].(status := status)]))
    else None
  }

  /** The end of generation frees the slot; a delivery may still keep the task reconciling. */
  function Freed(s: Sys, t: string, status: Status): Option<Sys> {
    if t in s.tasks && s.tasks[t].slot && (IsTerminal(status) || status == Reconciling)
    then Some(s.(tasks := s.tasks[t := s.tasks[t].(slot := false, status := status)]))
    else None
  }

  /**
   Everything that happens to a task without a slot: queueing and cancelling, staged and legacy
   execution, settling or retrying a delivery, deletion.  It may change anything but take a slot.
   */
  function Elsewhere(s: Sys, t: string, task: Task): Option<Sys> {
    if t in s.tasks && !s.tasks[t].slot && !task.slot then Some(s.(tasks := s.tasks[t := task])) else None
  }

  /* ---------- Editing a node ---------- */

  predicate Direct(p: Protocol) {
    p == MinimaxV2 || p == Tk2sd
  }

  predicate SameConnection(a: Node, b: Node) {
    if a.protocol == Legacy && b.protocol == Legacy then a.url == b.url && a.settings == b.settings
    else
      && a.url == b.url && a.protocol == b.protocol && a.key == b.key && a.settings == b.settings
      && (Direct(a.protocol) || Direct(b.protocol) ==> a.max == b.max)
  }

  predicate SameButCapacity(a: Node, b: Node) {
    a.url == b.url && a.protocol == b.protocol && a.key == b.key && a.settings == b.settings
  }

  /** A tk2sd node gets a new key, and with it whatever concurrency and settings. */
  predicate Rotation(was: Node, input: Node) {
    && was.protocol == Tk2sd && input.protocol == Tk2sd
    && input.url == was.url && input.compat == was.compat && input.key != was.key
  }

  /** The edits allowed while tasks are under way. */
  predicate Harmless(was: Node, input: Node) {
    || (was.enabled && !input.enabled && SameConnection(was, input))
    || (SameConnection(was, input) && was.enabled == input.enabled && was.compat == input.compat)
    || Rotation(was, input)
    || (was.enabled && input.enabled && Direct(was.protocol) && SameButCapacity(was, input) && input.max > was.max)
  }

  /** The concurrency that is stored: fixed to one unless the node is driven directly, never zero. */
  function StoredMax(input: Node): nat {
    if !Direct(input.protocol) || input.max == 0 then 1 else input.max
  }

  function Update(s: Sys, n: string, version: nat, input: Node, permitted: bool): Option<Sys> {
    if n !in s.nodes || s.nodes[n].deleted || s.nodes[n].version != version || !permitted then None else
    var was := s.nodes[n];
    if Busy(s, n) != {} && !Harmless(was, input) then None
    else if was.compat && !input.compat && Busy(s, n) != {} then None
    else if !was.compat && input.compat then None
    else Some(s.(nodes := s.nodes[n := input.(max := StoredMax(input), version := version + 1, deleted := false)]))
  }

  function Create(s: Sys, n: string, input: Node): Option<Sys> {
    if n in s.nodes then None
    else Some(s.(nodes := s.nodes[n := input.(max := StoredMax(input), version := 1, deleted := false)]))
  }

  function Remove(s: Sys, n: string, version: nat): Option<Sys> {
    if n in s.nodes && !s.nodes[n].deleted && s.nodes[n].version == version && !s.nodes[n].enabled && Busy(s, n) == {}
    then Some(s.(nodes := s.nodes[n := s.nodes[n].(deleted := true, version := version + 1)]))
    else None
  }

  function Waiting(): Task {
    Task("", false, QueuedOpen, false)
  }

  datatype Step =
    | Enqueue(t: string)
    | ClaimTask(t: string, n: string, version: nat, argument: nat)
    | Advance(t: string, status: Status)
    | End(t: string, status: Status)
    | Drift(t: string, task: Task)
    | CreateNode(n: string, input: Node)
    | UpdateNode(n: string, version: nat, input: Node, permitted: bool)
    | RemoveNode(n: string, version: nat)

  function Apply(s: Sys, step: Step): Sys {
    var result :=
      match step
      case Enqueue(t) => if t in s.tasks then None else Some(s.(tasks := s.tasks[t := Waiting()]))
      case ClaimTask(t, n, version, argument) => Claim(s, t, n, version, argument)
      case Advance(t, status) => Progress(s, t, status)
      case End(t, status) => Freed(s, t, status)
      case Drift(t, task) => Elsewhere(s, t, task)
      case CreateNode(n, input) => Create(s, n, input)
      case UpdateNode(n, version, input, permitted) => Update(s, n, version, input, permitted)
      case RemoveNode(n, version) => Remove(s, n, version);
    if result.Some? then result.value else s
  }

  function Exec(s: Sys, steps: seq<Step>): Sys
    decreases |steps|
  {
    if steps == [] then s else Exec(Apply(s, steps[0]), steps[1..])
  }

  /* ---------- The bound ---------- */

  predicate TaskOk(s: Sys, t: Task) {
    t.slot ==>
      && IsActive(t.status) && t.status != Reconciling && !t.deleted
      && t.node in s.nodes && Direct(s.nodes[t.node].protocol)
  }

  predicate TasksOk(s: Sys) {
    forall t | t in s.tasks :: TaskOk(s, s.tasks[t])
  }

  predicate Bounded(s: Sys) {
    forall n | n in s.nodes && s.nodes[n].protocol == MinimaxV2 :: |Slots(s, n)| <= s.nodes[n].max
  }

  /** Holding a slot means being under way, so an idle node has no slots taken. */
  lemma SlotsAreBusy(s: Sys, n: string)
    requires TasksOk(s)
    ensures Slots(s, n) <= Busy(s, n)
  {
    forall t | t in Slots(s, n) ensures t in Busy(s, n) {
      assert TaskOk(s, s.tasks[t]);
    }
  }

  lemma TasksStep(s: Sys, step: Step)
    requires TasksOk(s)
    ensures TasksOk(Apply(s, step))
  {
    hide Slots, SameConnection;
    var s' := Apply(s, step);
    forall t | t in s'.tasks ensures TaskOk(s', s'.tasks[t]) {
      if t in s.tasks {
        assert TaskOk(s, s.tasks[t]);
        if step.UpdateNode? && s.tasks[t].slot && s.tasks[t].node == step.n {
          assert t in Busy(s, step.n);
          if step.n in s.nodes && Harmless(s.nodes[step.n], step.input) {
            HarmlessKeepsProtocol(s.nodes[step.n], step.input);
          }
        }
        if step.RemoveNode? && s.tasks[t].slot && s.tasks[t].node == step.n {
          assert t in Busy(s, step.n);
        }
      }
    }
  }

  lemma HarmlessKeepsProtocol(was: Node, input: Node)
    requires Harmless(was, input)
    ensures input.protocol == was.protocol
  {
  }

  /** Whatever is claimed, only this node's slots grow, and by one. */
  lemma SlotsStep(s: Sys, step: Step, n: string)
    ensures (step.ClaimTask? && step.n == n && Claim(s, step.t, n, step.version, step.argument).Some?
               && Slots(Apply(s, step), n) == Slots(s, n) + {step.t})
            || Slots(Apply(s, step), n) <= Slots(s, n)
  {
  }

  lemma BoundStep(s: Sys, step: Step)
    requires TasksOk(s) && Bounded(s)
    ensures Bounded(Apply(s, step))
  {
    hide TasksOk, SameConnection;
    var s' := Apply(s, step);
    forall n | n in s'.nodes && s'.nodes[n].protocol == MinimaxV2 ensures |Slots(s', n)| <= s'.nodes[n].max {
      SlotsStep(s, step, n);
      SlotsAreBusy(s, n);
      if Slots(s', n) <= Slots(s, n) {
        SubsetSize(Slots(s', n), Slots(s, n));
        NodeStep(s, step, n);
      }
    }
  }

  lemma NoSlotsElsewhere(s: Sys, n: string)
    requires TasksOk(s) && n !in s.nodes
    ensures Slots(s, n) == {}
  {
    forall t | t in s.tasks ensures t !in Slots(s, n) {
      assert TaskOk(s, s.tasks[t]);
    }
  }

  /** An edit never stores less than the slots taken, and a node is new, or idle, or keeps its protocol. */
  lemma NodeStep(s: Sys, step: Step, n: string)
    requires Bounded(s) && TasksOk(s) && n in Apply(s, step).nodes && Apply(s, step).nodes[n].protocol == MinimaxV2
    requires Slots(Apply(s, step), n) <= Slots(s, n)
    ensures |Slots(s, n)| <= Apply(s, step).nodes[n].max
  {
    SlotsAreBusy(s, n);
    if n !in s.nodes {
      NoSlotsElsewhere(s, n);
    } else if step.UpdateNode? && step.n == n && Apply(s, step) != s {
      if Busy(s, n) == {} {
        assert Slots(s, n) == {};
      } else {
        HarmlessKeepsProtocol(s.nodes[n], step.input);
      }
    }
  }

  /** In every reachable state: a minimax-v2 node never holds more slots than its stored concurrency. */
  lemma {:induction false} SlotsStayBounded(s: Sys, steps: seq<Step>)
    requires TasksOk(s) && Bounded(s)
    ensures TasksOk(Exec(s, steps)) && Bounded(Exec(s, steps))
    decreases |steps|
  {
    hide TasksOk, Bounded, Apply;
    if steps != [] {
      TasksStep(s, steps[0]);
      BoundStep(s, steps[0]);
      SlotsStayBounded(Apply(s, steps[0]), steps[1..]);
    }
  }

  /* ---------- tk2sd nodes ---------- */

  /** Both kinds of directly driven nodes within their concurrency. */
  predicate AllBounded(s: Sys) {
    forall n | n in s.nodes && Direct(s.nodes[n].protocol) :: |Slots(s, n)| <= s.nodes[n].max
  }

  /** The guard of the edit that fails: a key rotation that would store less than the slots taken. */
  predicate Leaks(s: Sys, step: Step) {
    && step.UpdateNode? && step.permitted && step.n in s.nodes
    && var was := s.nodes[step.n];
    && !was.deleted && was.version == step.version && Rotation(was, step.input)
    && StoredMax(step.input) < |Slots(s, step.n)|
  }

  /** What the nodes other than the edited one, and the edited one when the guard is not met, keep. */
  lemma NodeKeeps(s: Sys, step: Step, n: string)
    requires TasksOk(s) && AllBounded(s) && !Leaks(s, step)
    requires n in Apply(s, step).nodes && Direct(Apply(s, step).nodes[n].protocol)
    ensures |Slots(Apply(s, step), n)| <= Apply(s, step).nodes[n].max
  {
    hide TasksOk;
    var s' := Apply(s, step);
    SlotsStep(s, step, n);
    SlotsAreBusy(s, n);
    if Slots(s', n) <= Slots(s, n) {
      SubsetSize(Slots(s', n), Slots(s, n));
      if n !in s.nodes {
        NoSlotsElsewhere(s, n);
      } else if Busy(s, n) == {} {
        assert Slots(s, n) == {};
      } else if step.UpdateNode? && step.n == n && s' != s {
        HarmlessKeepsProtocol(s.nodes[n], step.input);
      }
    }
  }

  /** One step keeps every directly driven node within bounds if and only if it does not meet that guard. */
  lemma RotationIsTheOnlyLeak(s: Sys, step: Step)
    requires TasksOk(s) && AllBounded(s)
    ensures AllBounded(Apply(s, step)) <==> !Leaks(s, step)
  {
    hide TasksOk, SameConnection, SameButCapacity;
    var s' := Apply(s, step);
    if Leaks(s, step) {
      assert Slots(s', step.n) == Slots(s, step.n);
      assert s'.nodes[step.n].max == StoredMax(step.input) && s'.nodes[step.n].protocol == Tk2sd;
    } else {
      forall n | n in s'.nodes && Direct(s'.nodes[n].protocol) ensures |Slots(s', n)| <= s'.nodes[n].max {
        NodeKeeps(s, step, n);
      }
    }
  }

  predicate NeverLeaks(s: Sys, steps: seq<Step>)
    decreases |steps|
  {
    steps == [] || (!Leaks(s, steps[0]) && NeverLeaks(Apply(s, steps[0]), steps[1..]))
  }

  /** Over whole runs: without such an edit tk2sd nodes are bounded like the others. */
  lemma {:induction false} AllStayBounded(s: Sys, steps: seq<Step>)
    requires TasksOk(s) && AllBounded(s) && NeverLeaks(s, steps)
    ensures TasksOk(Exec(s, steps)) && AllBounded(Exec(s, steps))
    decreases |steps|
  {
    hide TasksOk, AllBounded, Apply, Leaks;
    if steps != [] {
      TasksStep(s, steps[0]);
      RotationIsTheOnlyLeak(s, steps[0]);
      AllStayBounded(Apply(s, steps[0]), steps[1..]);
    }
  }

  const FRESH := Node(Tk2sd, true, 2, "u", "k", "", false, 1, false)
  const ROTATED := FRESH.(key := "l", max := 1)

  /** From nothing: a node for two tasks, both slots taken, then a new key for a node of one. */
  const ROTATING := [CreateNode("n", FRESH), Enqueue("a"), Enqueue("b"),
                     ClaimTask("a", "n", 1, 2), ClaimTask("b", "n", 1, 2), UpdateNode("n", 1, ROTATED, true)]

  function Taken(): Task {
    Task("n", true, Dispatching, false)
  }

  lemma BothTaken()
    ensures var s := Sys(map["n" := FRESH], map["a" := Waiting(), "b" := Waiting()]);
            Apply(Apply(s, ROTATING[3]), ROTATING[4]) == Sys(map["n" := FRESH], map["a" := Taken(), "b" := Taken()])
  {
    assert "a"[0] != "b"[0];
    var s := Sys(map["n" := FRESH], map["a" := Waiting(), "b" := Waiting()]);
    assert Slots(s, "n") == {};
    var s1 := Apply(s, ROTATING[3]);
    assert Slots(s1, "n") == {"a"};
  }

  /** The bound does fail for tk2sd, in a run that starts with empty tables. */
  lemma KeyRotationOvercommits()
    ensures var s := Exec(Sys(map[], map[]), ROTATING);
            "n" in s.nodes && s.nodes["n"].protocol == Tk2sd && |Slots(s, "n")| == 2 && s.nodes["n"].max == 1
  {
    assert "a"[0] != "b"[0] && "k"[0] != "l"[0];
    var s1 := Apply(Sys(map[], map[]), ROTATING[0]);
    var s3 := Apply(Apply(s1, ROTATING[1]), ROTATING[2]);
    assert s3 == Sys(map["n" := FRESH], map["a" := Waiting(), "b" := Waiting()]);
    BothTaken();
    var s5 := Sys(map["n" := FRESH], map["a" := Taken(), "b" := Taken()]);
    var s6 := Apply(s5, ROTATING[5]);
    assert s6.nodes["n"].max == 1;
    assert Slots(s6, "n") == {"a", "b"};
    hide Apply;
    var s0 := Sys(map[], map[]);
    assert Exec(s0, ROTATING) == Exec(s1, ROTATING[1..]) == Exec(Apply(s1, ROTATING[1]), ROTATING[2..]);
    assert Exec(Apply(s1, ROTATING[1]), ROTATING[2..]) == Exec(s3, ROTATING[3..])
        == Exec(Apply(s3, ROTATING[3]), ROTATING[4..]);
    assert Exec(Apply(s3, ROTATING[3]), ROTATING[4..]) == Exec(s5, ROTATING[5..]) == Exec(s6, []);
  }

  /* ---------- The rows, changed in place ---------- */

  /** The task table in queue order. */
  type Rows = seq<(string, Task)>

  predicate DistinctRows(rows: Rows) {
    forall i, j | 0 <= i < j < |rows| :: rows[i].0 != rows[j].0
  }

  function AsMap(rows: Rows): map<string, Task> {
    if rows == [] then map[] else AsMap(rows[..|rows| - 1])[rows[|rows| - 1].0 := rows[|rows| - 1].1]
  }

  lemma {:induction false} AsMapHas(rows: Rows, t: string)
    ensures t in AsMap(rows) <==> exists i :: 0 <= i < |rows| && rows[i].0 == t
  {
    if rows != [] {
      AsMapHas(rows[..|rows| - 1], t);
      assert rows[|rows| - 1].0 == t ==> t in AsMap(rows);
    }
  }

  lemma {:induction false} AsMapAt(rows: Rows, i: nat)
    requires DistinctRows(rows) && i < |rows|
    ensures rows[i].0 in AsMap(rows) && AsMap(rows)[rows[i].0] == rows[i].1
  {
    if i < |rows| - 1 {
      AsMapAt(rows[..|rows| - 1], i);
    }
  }

  lemma {:induction false} AsMapPut(rows: Rows, i: nat, task: Task)
    requires DistinctRows(rows) && i < |rows|
    ensures AsMap(rows[i := (rows[i].0, task)]) == AsMap(rows)[rows[i].0 := task]
  {
    var n := |rows| - 1;
    var put := rows[i := (rows[i].0, task)];
    if i == n {
      assert put[..n] == rows[..n];
    } else {
      assert put[..n] == rows[..n][i := (rows[i].0, task)];
      AsMapPut(rows[..n], i, task);
    }
  }

  /** The slots of a node among the first `k` rows. */
  function SlotsIn(rows: Rows, k: nat, n: string): set<string>
    requires k <= |rows|
  {
    set i | 0 <= i < k && rows[i].1.slot && rows[i].1.node == n :: rows[i].0
  }

  lemma SlotsInGrows(rows: Rows, k: nat, n: string)
    requires DistinctRows(rows) && k < |rows|
    ensures var here := if rows[k].1.slot && rows[k].1.node == n then 1 else 0;
            |SlotsIn(rows, k + 1, n)| == |SlotsIn(rows, k, n)| + here
  {
    assert rows[k].0 !in SlotsIn(rows, k, n);
    if rows[k].1.slot && rows[k].1.node == n {
      assert SlotsIn(rows, k + 1, n) == SlotsIn(rows, k, n) + {rows[k].0};
    } else {
      assert SlotsIn(rows, k + 1, n) == SlotsIn(rows, k, n);
    }
  }

  lemma SlotsInAll(rows: Rows, nodes: map<string, Node>, n: string)
    requires DistinctRows(rows)
    ensures SlotsIn(rows, |rows|, n) == Slots(Sys(nodes, AsMap(rows)), n)
  {
    forall t ensures t in SlotsIn(rows, |rows|, n) <==> t in Slots(Sys(nodes, AsMap(rows)), n) {
      AsMapHas(rows, t);
      if t in AsMap(rows) {
        var i :| 0 <= i < |rows| && rows[i].0 == t;
        AsMapAt(rows, i);
      }
    }
  }

  datatype ClaimResult = Claimed(t: string) | Full | Stale | Empty

  class Store {
    var nodes: map<string, Node>
    var rows: Rows

    constructor ()
      ensures Valid() && State() == Sys(map[], map[])
    {
      nodes, rows := map[], [];
    }

    ghost predicate Valid()
      reads this
    {
      DistinctRows(rows)
    }

    function State(): Sys
      reads this
    {
      Sys(nodes, AsMap(rows))
    }

    /** A queued task without a slot that the node may run. */
    predicate Takes(row: (string, Task), eligible: string -> bool) {
      IsQueued(row.1.status) && !row.1.deleted && !row.1.slot && eligible(row.0)
    }

    predicate Usable(n: string, version: nat)
      reads this`nodes
    {
      && n in nodes && nodes[n].version == version && nodes[n].enabled && !nodes[n].deleted
      && nodes[n].protocol == MinimaxV2
    }

    /** How many slots of the node are taken: one pass over the rows. */
    method CountSlots(n: string) returns (active: nat)
      requires Valid()
      ensures active == |Slots(State(), n)|
    {
      active := 0;
      for k := 0 to |rows|
        invariant active == |SlotsIn(rows, k, n)|
      {
        SlotsInGrows(rows, k, n);
        if rows[k].1.slot && rows[k].1.node == n { active := active + 1; }
      }
      SlotsInAll(rows, nodes, n);
    }

    /** Claims the first task in the queue that the node may run, below both capacities. */
    method ClaimNextOfficial(n: string, version: nat, argument: nat, eligible: string -> bool)
      returns (out: ClaimResult)
      requires Valid()
      modifies this`rows
      ensures Valid()
      ensures out.Claimed? ==>
                && Claim(old(State()), out.t, n, version, argument) == Some(State())
                && Usable(n, version)
                && exists k :: 0 <= k < |old(rows)| && old(rows)[k].0 == out.t && Takes(old(rows)[k], eligible)
                               && forall m | 0 <= m < k :: !Takes(old(rows)[m], eligible)
      ensures !out.Claimed? ==> rows == old(rows)
      ensures out.Empty? ==> forall k | 0 <= k < |rows| :: !Takes(rows[k], eligible)
      ensures out.Stale? <==> argument >= 1 && !Usable(n, version)
      ensures out.Full? <==> || argument < 1
                             || (Usable(n, version) && |old(Slots(State(), n))| >= Min(argument, nodes[n].max))
    {
      if argument < 1 { return Full; }
      if !Usable(n, version) { return Stale; }
      var capacity := Min(argument, nodes[n].max);
      var active := CountSlots(n);
      if active >= capacity { return Full; }
      for k := 0 to |rows|
        invariant rows == old(rows)
        invariant forall m | 0 <= m < k :: !Takes(rows[m], eligible)
      {
        if Takes(rows[k], eligible) {
          AsMapAt(rows, k);
          AsMapPut(rows, k, Task(n, true, Dispatching, false));
          rows := rows[k := (rows[k].0, Task(n, true, Dispatching, false))];
          return Claimed(rows[k].0);
        }
      }
      return Empty;
    }

    /** Which edits of a busy node are let through, decided in the order the program asks. */
    method UpdateNode(n: string, version: nat, input: Node, permitted: bool) returns (ok: bool)
      modifies this`nodes
      ensures var next := Update(old(State()), n, version, input, permitted);
              ok == next.Some? && State() == if ok then next.value else old(State())
    {
      hide AsMap;
      if n !in nodes || nodes[n].deleted || nodes[n].version != version || !permitted { return false; }
      var was := nodes[n];
      var busy := |Busy(State(), n)|;
      var allowed := was.enabled && !input.enabled && SameConnection(was, input);
      if busy > 0 && SameConnection(was, input) && was.enabled == input.enabled && was.compat == input.compat {
        allowed := true;
      }
      if busy > 0 && Rotation(was, input) { allowed := true; }
      if busy > 0 && was.enabled && input.enabled && Direct(was.protocol) && SameButCapacity(was, input)
         && input.max > was.max {
        allowed := true;
      }
      if busy > 0 && !allowed { return false; }
      var rollback := nodes;
      nodes := nodes[n := input.(max := StoredMax(input), version := version + 1, deleted := false)];
      if (was.compat && !input.compat && busy > 0) || (!was.compat && input.compat) {
        nodes := rollback;
        return false;
      }
      return true;
    }
  }
}
