/**
 Deletion jobs and their items.  A job keeps running totals beside the items they count, and a
 status that must follow from them, through claims, failures, completions and retries.
 */
module Deletion {
  import opened Domain

  datatype ItemStatus = Pending | RetryWait | Deleting | Deleted | AlreadyAbsent | Skipped | ItemFailed
  datatype JobStatus = Preview | Waiting | InProgress | AllDeleted | PartialFailed | JobFailed

  /** What is to be removed from where; an empty token and zero times stand for NULL. */
  datatype Candidate = Candidate(task: string, artifact: string, location: string, node: string, size: nat)
  datatype Item = Item(target: Candidate, status: ItemStatus, attempts: nat, next: nat, token: string, expires: nat,
                       bytes: nat)

  /** `shown` is what the preview's digest stands for. */
  datatype Job = Job(status: JobStatus, total: nat, succeeded: nat, failed: nat, bytes: nat, shown: seq<Candidate>,
                     items: seq<Item>)

  predicate IsDone(s: ItemStatus) { s == Deleted || s == AlreadyAbsent }
  predicate IsOpen(s: ItemStatus) { s == Pending || s == RetryWait || s == Deleting }

  datatype Group = Done | Broken | Open

  predicate InGroup(s: ItemStatus, g: Group) {
    match g
    case Done => IsDone(s)
    case Broken => s == ItemFailed
    case Open => !IsDone(s) && s != ItemFailed && s != Skipped
  }

  function Count(items: seq<Item>, g: Group): (n: nat)
    ensures n <= |items|
  {
    if items == [] then 0 else Count(items[..|items| - 1], g) + if InGroup(items[|items| - 1].status, g) then 1 else 0
  }

  function Bytes(items: seq<Item>): nat {
    if items == [] then 0 else Bytes(items[..|items| - 1]) + items[|items| - 1].bytes
  }

  /* ---------- The transactions ---------- */

  function NewItem(c: Candidate): Item {
    Item(c, Pending, 0, 0, "", 0, 0)
  }

  function NewItems(cs: seq<Candidate>): (items: seq<Item>)
    ensures |items| == |cs| && forall i | 0 <= i < |cs| :: items[i] == NewItem(cs[i])
  {
    seq(|cs|, i requires 0 <= i < |cs| => NewItem(cs[i]))
  }

  /** Deleting a task: one item for each place its artifacts are kept. */
  function Request(cs: seq<Candidate>): Job {
    Job(if cs == [] then AllDeleted else Waiting, |cs|, 0, 0, 0, cs, NewItems(cs))
  }

  function PreviewJob(cs: seq<Candidate>): Job {
    Job(Preview, |cs|, 0, 0, 0, cs, [])
  }

  /** A preview is confirmed only if the candidates are still the ones that were shown. */
  function Confirm(j: Job, now: seq<Candidate>): Option<Job> {
    if j.status != Preview || now != j.shown then None
    else Some(j.(status := if now == [] then AllDeleted else Waiting, items := NewItems(now)))
  }

  predicate Claimable(x: Item, node: string, now: nat) {
    x.target.node == node && IsOpen(x.status) && x.next <= now && x.expires <= now
  }

  function Claim(j: Job, i: nat, node: string, token: string, now: nat, ttl: nat): Option<Job> {
    if i >= |j.items| || token == "" || !Claimable(j.items[i], node, now) then None else
    var x := j.items[i];
    Some(j.(items := j.items[i := x.(status := Deleting, token := token, expires := now + ttl,
                                     attempts := x.attempts + 1)],
            status := if j.status == Waiting then InProgress else j.status))
  }

  predicate Held(j: Job, i: nat, token: string) {
    i < |j.items| && token != "" && j.items[i].token == token && j.items[i].status == Deleting
  }

  function Fail(j: Job, i: nat, token: string, next: nat, terminal: bool): Option<Job> {
    if !Held(j, i, token) then None else
    var items := j.items[i := j.items[i].(status := if terminal then ItemFailed else RetryWait,
                                          next := if terminal then 0 else next, token := "", expires := 0)];
    var status := if !terminal || Count(items, Open) > 0 then InProgress
                  else if Count(items, Done) > 0 then PartialFailed
                  else JobFailed;
    Some(j.(items := items, status := status, failed := Count(items, Broken)))
  }

  function Complete(j: Job, i: nat, token: string, absent: bool, bytes: nat): Option<Job> {
    if !Held(j, i, token) then None else
    var items := j.items[i := j.items[i].(status := if absent then AlreadyAbsent else Deleted, bytes := bytes,
                                          token := "", expires := 0)];
    var succeeded, failed := Count(items, Done), Count(items, Broken);
    var status := if succeeded + failed != |items| then InProgress else if failed > 0 then PartialFailed
        else AllDeleted;
    Some(j.(items := items, status := status, succeeded := succeeded, failed := failed, bytes := j.bytes + bytes))
  }

  /** An administrator retries the failed items, of the given nodes or of all. */
  predicate Retried(x: Item, nodes: set<string>) {
    x.status == ItemFailed && (nodes == {} || x.target.node in nodes)
  }

  function RetryItem(x: Item, nodes: set<string>): Item {
    if Retried(x, nodes) then x.(status := Pending, next := 0, token := "", expires := 0) else x
  }

  function RetryItems(items: seq<Item>, nodes: set<string>): (r: seq<Item>)
    ensures |r| == |items| && forall i | 0 <= i < |items| :: r[i] == RetryItem(items[i], nodes)
  {
    seq(|items|, i requires 0 <= i < |items| => RetryItem(items[i], nodes))
  }

  function Retry(j: Job, nodes: set<string>): Option<Job> {
    if "" in nodes || !exists x | x in j.items :: Retried(x, nodes) then None else
    var items := RetryItems(j.items, nodes);
    Some(j.(items := items, status := Waiting, failed := Count(items, Broken)))
  }

  /* ---------- Runs ---------- */

  datatype Step =
    | Ask(id: string, cs: seq<Candidate>)
    | Look(id: string, cs: seq<Candidate>)
    | Agree(id: string, cs: seq<Candidate>)
    | Take(id: string, i: nat, node: string, token: string, now: nat, ttl: nat)
    | Break(id: string, i: nat, token: string, next: nat, terminal: bool)
    | Finish(id: string, i: nat, token: string, absent: bool, bytes: nat)
    | Again(id: string, nodes: set<string>)

  type Jobs = map<string, Job>

  function JobStep(j: Job, step: Step): Option<Job> {
    match step
    case Ask(_, _) => None
    case Look(_, _) => None
    case Agree(_, cs) => Confirm(j, cs)
    case Take(_, i, node, token, now, ttl) => Claim(j, i, node, token, now, ttl)
    case Break(_, i, token, next, terminal) => Fail(j, i, token, next, terminal)
    case Finish(_, i, token, absent, bytes) => Complete(j, i, token, absent, bytes)
    case Again(_, nodes) => Retry(j, nodes)
  }

  function Apply(s: Jobs, step: Step): Jobs {
    if step.id in s then
      (if JobStep(s[step.id], step).Some? then s[step.id := JobStep(s[step.id], step).value] else s)
    else if step.Ask? then s[step.id := Request(step.cs)]
    else if step.Look? then s[step.id := PreviewJob(step.cs)]
    else s
  }

  function Exec(s: Jobs, steps: seq<Step>): Jobs
    decreases |steps|
  {
    if steps == [] then s else Exec(Apply(s, steps[0]), steps[1..])
  }

  /* ---------- The books balance ---------- */

  function FinalStatus(succeeded: nat, failed: nat): JobStatus {
    if failed == 0 then AllDeleted else if succeeded == 0 then JobFailed else PartialFailed
  }

  predicate IsFinal(s: JobStatus) {
    s == AllDeleted || s == PartialFailed || s == JobFailed
  }

  predicate ItemOk(x: Item) {
    && x.status != Skipped && (x.token != "" <==> x.status == Deleting) && (!IsDone(x.status) ==> x.bytes == 0)
    && (x.token == "" ==> x.expires == 0)
  }

  predicate Balanced(j: Job) {
    && (forall i | 0 <= i < |j.items| :: ItemOk(j.items[i]))
    && j.succeeded == Count(j.items, Done) && j.failed == Count(j.items, Broken) && j.bytes == Bytes(j.items)
    && (j.status == Preview ==> j.items == [] && j.total == |j.shown|)
    && (j.status != Preview ==>
          && j.total == |j.items|
          && (IsFinal(j.status) <==> Count(j.items, Open) == 0)
          && (IsFinal(j.status) ==> j.status == FinalStatus(j.succeeded, j.failed)))
  }

  /* ---------- Counting with one item changed ---------- */

  function One(b: bool): nat { if b then 1 else 0 }

  lemma {:induction false} CountUpdate(items: seq<Item>, i: nat, x: Item, g: Group)
    requires i < |items|
    ensures Count(items[i := x], g) == Count(items, g) - One(InGroup(items[i].status, g)) + One(InGroup(x.status, g))
  {
    var n := |items| - 1;
    if i == n {
      assert items[i := x][..n] == items[..n];
    } else {
      assert items[i := x][..n] == items[..n][i := x];
      CountUpdate(items[..n], i, x, g);
    }
  }

  lemma {:induction false} CountPositive(items: seq<Item>, i: nat, g: Group)
    requires i < |items| && InGroup(items[i].status, g)
    ensures Count(items, g) > 0
  {
    if i < |items| - 1 {
      CountPositive(items[..|items| - 1], i, g);
    }
  }

  lemma {:induction false} BytesUpdate(items: seq<Item>, i: nat, x: Item)
    requires i < |items|
    ensures Bytes(items[i := x]) == Bytes(items) - items[i].bytes + x.bytes
  {
    var n := |items| - 1;
    if i == n {
      assert items[i := x][..n] == items[..n];
    } else {
      assert items[i := x][..n] == items[..n][i := x];
      BytesUpdate(items[..n], i, x);
    }
  }

  /** Every item is done, failed or open. */
  lemma {:induction false} GroupsPartition(items: seq<Item>)
    requires forall i | 0 <= i < |items| :: ItemOk(items[i])
    ensures Count(items, Done) + Count(items, Broken) + Count(items, Open) == |items|
  {
    if items != [] {
      GroupsPartition(items[..|items| - 1]);
    }
  }

  lemma {:induction false} NewItemsCount(cs: seq<Candidate>)
    ensures Count(NewItems(cs), Done) == Count(NewItems(cs), Broken) == 0 && Bytes(NewItems(cs)) == 0
    ensures Count(NewItems(cs), Open) == |cs|
  {
    if cs != [] {
      var n := |cs| - 1;
      assert NewItems(cs)[..n] == NewItems(cs[..n]);
      NewItemsCount(cs[..n]);
    }
  }

  lemma {:induction false} RetryCounts(items: seq<Item>, nodes: set<string>)
    ensures Count(RetryItems(items, nodes), Done) == Count(items, Done)
            && Bytes(RetryItems(items, nodes)) == Bytes(items)
  {
    if items != [] {
      var n := |items| - 1;
      assert RetryItems(items, nodes)[..n] == RetryItems(items[..n], nodes);
      RetryCounts(items[..n], nodes);
    }
  }

  lemma RetryOpens(items: seq<Item>, nodes: set<string>)
    requires exists x | x in items :: Retried(x, nodes)
    ensures Count(RetryItems(items, nodes), Open) > 0
  {
    var x :| x in items && Retried(x, nodes);
    var i :| 0 <= i < |items| && items[i] == x;
    CountPositive(RetryItems(items, nodes), i, Open);
  }

  /* ---------- Each transaction ---------- */

  lemma RequestBalances(cs: seq<Candidate>)
    ensures Balanced(Request(cs)) && Balanced(PreviewJob(cs))
  {
    NewItemsCount(cs);
  }

  lemma ConfirmBalances(j: Job, cs: seq<Candidate>)
    requires Balanced(j) && Confirm(j, cs).Some?
    ensures Balanced(Confirm(j, cs).value)
  {
    NewItemsCount(cs);
  }

  lemma ClaimBalances(j: Job, i: nat, node: string, token: string, now: nat, ttl: nat)
    requires Balanced(j) && Claim(j, i, node, token, now, ttl).Some?
    ensures Balanced(Claim(j, i, node, token, now, ttl).value)
  {
    var x := Claim(j, i, node, token, now, ttl).value.items[i];
    CountUpdate(j.items, i, x, Done);
    CountUpdate(j.items, i, x, Broken);
    CountUpdate(j.items, i, x, Open);
    BytesUpdate(j.items, i, x);
  }

  lemma FailBalances(j: Job, i: nat, token: string, next: nat, terminal: bool)
    requires Balanced(j) && Fail(j, i, token, next, terminal).Some?
    ensures Balanced(Fail(j, i, token, next, terminal).value)
  {
    var x := Fail(j, i, token, next, terminal).value.items[i];
    if !terminal {
      CountPositive(j.items, i, Open);
    }
    CountUpdate(j.items, i, x, Done);
    CountUpdate(j.items, i, x, Broken);
    CountUpdate(j.items, i, x, Open);
    BytesUpdate(j.items, i, x);
  }

  lemma CompleteBalances(j: Job, i: nat, token: string, absent: bool, bytes: nat)
    requires Balanced(j) && Complete(j, i, token, absent, bytes).Some?
    ensures Balanced(Complete(j, i, token, absent, bytes).value)
  {
    var j' := Complete(j, i, token, absent, bytes).value;
    CountUpdate(j.items, i, j'.items[i], Done);
    CountUpdate(j.items, i, j'.items[i], Broken);
    CountUpdate(j.items, i, j'.items[i], Open);
    BytesUpdate(j.items, i, j'.items[i]);
    GroupsPartition(j'.items);
  }

  lemma RetryBalances(j: Job, nodes: set<string>)
    requires Balanced(j) && Retry(j, nodes).Some?
    ensures Balanced(Retry(j, nodes).value)
  {
    RetryCounts(j.items, nodes);
    RetryOpens(j.items, nodes);
  }

  predicate AllBalanced(s: Jobs) {
    forall id | id in s :: Balanced(s[id])
  }

  lemma StepBalances(s: Jobs, step: Step)
    requires AllBalanced(s)
    ensures AllBalanced(Apply(s, step))
  {
    hide Balanced, Request, PreviewJob, Confirm, Claim, Fail, Complete, Retry;
    if step.id in s {
      var j := s[step.id];
      if JobStep(j, step).Some? {
        match step
        case Agree(_, cs) => ConfirmBalances(j, cs);
        case Take(_, i, node, token, now, ttl) => ClaimBalances(j, i, node, token, now, ttl);
        case Break(_, i, token, next, terminal) => FailBalances(j, i, token, next, terminal);
        case Finish(_, i, token, absent, bytes) => CompleteBalances(j, i, token, absent, bytes);
        case Again(_, nodes) => RetryBalances(j, nodes);
      }
    } else if step.Ask? || step.Look? {
      RequestBalances(step.cs);
    }
  }

  /** In every reachable state of every job. */
  lemma {:induction false} BooksBalance(s: Jobs, steps: seq<Step>)
    requires AllBalanced(s)
    ensures AllBalanced(Exec(s, steps))
    decreases |steps|
  {
    hide AllBalanced, Apply;
    if steps != [] {
      StepBalances(s, steps[0]);
      BooksBalance(Apply(s, steps[0]), steps[1..]);
    }
  }

  /** A preview has no items yet; once it is confirmed the items are the candidates that were shown. */
  predicate AsShown(j: Job) {
    && (j.status == Preview ==> j.items == [])
    && (j.status != Preview ==>
          && |j.items| == |j.shown|
          && forall i | 0 <= i < |j.items| :: j.items[i].target == j.shown[i])
  }

  lemma ShownStep(j: Job, step: Step)
    requires AsShown(j) && JobStep(j, step).Some?
    ensures AsShown(JobStep(j, step).value) && JobStep(j, step).value.shown == j.shown
  {
    hide Count, Bytes;
  }

  lemma {:induction false} ShownStays(s: Jobs, steps: seq<Step>, id: string)
    requires id in s && AsShown(s[id])
    ensures id in Exec(s, steps) && AsShown(Exec(s, steps)[id]) && Exec(s, steps)[id].shown == s[id].shown
    decreases |steps|
  {
    hide AsShown, JobStep;
    if steps != [] {
      if steps[0].id == id && JobStep(s[id], steps[0]).Some? {
        ShownStep(s[id], steps[0]);
      }
      ShownStays(Apply(s, steps[0]), steps[1..], id);
    }
  }

  lemma NewIsAsShown(s: Jobs, step: Step, id: string)
    requires id !in s && id in Apply(s, step)
    ensures AsShown(Apply(s, step)[id])
  {
  }

  lemma {:induction false} EveryJobIsAsShown(s: Jobs, steps: seq<Step>, id: string)
    requires id in Exec(s, steps) && (id in s ==> AsShown(s[id]))
    ensures AsShown(Exec(s, steps)[id])
    decreases |steps|
  {
    hide AsShown, Apply;
    if id in s {
      ShownStays(s, steps, id);
    } else if steps != [] {
      if id in Apply(s, steps[0]) {
        NewIsAsShown(s, steps[0], id);
      }
      EveryJobIsAsShown(Apply(s, steps[0]), steps[1..], id);
    }
  }

  /** What the administrator was shown is what gets deleted, for every job of every run. */
  lemma ShownIsDeleted(before: seq<Step>, after: seq<Step>, id: string)
    requires id in Exec(map[], before)
    ensures var s := Exec(map[], before);
            var t := Exec(s, after);
            AsShown(s[id]) && id in t && AsShown(t[id]) && t[id].shown == s[id].shown
  {
    hide AsShown, Apply, Exec;
    EveryJobIsAsShown(map[], before, id);
    ShownStays(Exec(map[], before), after, id);
  }

  /** An item that is done stays done with its bytes, so no bytes are counted twice. */
  lemma {:induction false} DoneStaysDone(s: Jobs, steps: seq<Step>, id: string, i: nat)
    requires id in s && i < |s[id].items| && IsDone(s[id].items[i].status)
    requires s[id].status != Preview
    ensures id in Exec(s, steps) && i < |Exec(s, steps)[id].items| && Exec(s, steps)[id].items[i] == s[id].items[i]
    ensures Exec(s, steps)[id].status != Preview
    decreases |steps|
  {
    hide Count, Bytes;
    if steps != [] {
      var t := Apply(s, steps[0]);
      assert id in t && t[id].status != Preview && i < |t[id].items| && t[id].items[i] == s[id].items[i];
      DoneStaysDone(t, steps[1..], id, i);
    }
  }

  /* ---------- Leases ---------- */

  /** An item is claimed exactly if it is neither done nor failed, its time has come and no lease on it runs. */
  lemma ClaimableExactly(x: Item, node: string, now: nat)
    requires ItemOk(x)
    ensures Claimable(x, node, now) <==>
              && x.target.node == node && !IsDone(x.status) && x.status != ItemFailed
              && x.next <= now && (x.token == "" || x.expires <= now)
  {
  }

  /** Taken by another worker, and not after the lease has run out. */
  predicate Outside(step: Step, id: string, i: nat, token: string, expires: nat) {
    && ((step.Break? || step.Finish?) && step.id == id && step.i == i ==> step.token != token)
    && (step.Take? && step.id == id && step.i == i ==> step.now < expires)
  }

  predicate HeldItem(s: Jobs, id: string, i: nat) {
    id in s && s[id].status != Preview && i < |s[id].items| && s[id].items[i].status == Deleting
  }

  lemma UntouchedItem(s: Jobs, step: Step, id: string, i: nat)
    requires HeldItem(s, id, i) && Outside(step, id, i, s[id].items[i].token, s[id].items[i].expires)
    ensures HeldItem(Apply(s, step), id, i) && Apply(s, step)[id].items[i] == s[id].items[i]
  {
    hide Count, Bytes;
  }

  /** As long as a lease runs nobody but its holder changes the item. */
  lemma {:induction false} LeaseExcludes(s: Jobs, steps: seq<Step>, id: string, i: nat)
    requires HeldItem(s, id, i)
    requires forall step | step in steps :: Outside(step, id, i, s[id].items[i].token, s[id].items[i].expires)
    ensures HeldItem(Exec(s, steps), id, i) && Exec(s, steps)[id].items[i] == s[id].items[i]
    decreases |steps|
  {
    hide Outside, Apply;
    if steps != [] {
      UntouchedItem(s, steps[0], id, i);
      LeaseExcludes(Apply(s, steps[0]), steps[1..], id, i);
    }
  }
}
