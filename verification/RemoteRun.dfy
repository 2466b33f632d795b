/**
 One tk2sd task as the store sees it: its row in `video_tasks` and, once claimed,
 its row in `task_remote_runs`.  Every store operation of the remote protocol is a
 guarded transaction on that pair; `None` stands for a conflict, after which the
 transaction has been rolled back.
 */
module RemoteRun {
  import opened Domain

  datatype Phase = Preparing | Prepared | SubmitIntent | Submitted | Terminal
  datatype CancelState = NoCancel | Requested | Rejected | Confirmed
  datatype Upstream = NoStatus | UQueued | URunning | USucceeded | UFailed | UCancelled
  datatype ErrorCode = NoError | InputFailed | SubmitRejected | GenerationFailed

  /** The JSON document sent upstream; only its model field is looked into. */
  datatype Body = NoBody | Body(model: string, payload: string)

  /** A digest is collision free, so it is represented by what it digests. */
  datatype Digest = NoDigest | Sha256(of: Body)

  datatype Run = Run(
    node: string, phase: Phase, key: string,
    body: Body, hash: Digest,
    upstream: string, upstreamStatus: Upstream,
    cancel: CancelState, reconcile: bool, attempts: nat,
    token: string, expires: nat)  // an empty token and a zero expiry stand for NULL

  datatype Task = Task(
    model: string, status: Status, node: string, slot: bool, deleted: bool, delivery: bool,
    job: string, internalUrl: string, publicUrl: string, error: ErrorCode)

  datatype Row = Row(task: Task, run: Option<Run>)

  datatype Completion = Completion(status: Upstream, url: string, error: ErrorCode, upload: bool)

  function Rank(p: Phase): nat {
    match p
    case Preparing => 0
    case Prepared => 1
    case SubmitIntent => 2
    case Submitted => 3
    case Terminal => 4
  }

  function CancelRank(c: CancelState): nat {
    match c
    case NoCancel => 0
    case Requested => 1
    case Rejected => 2
    case Confirmed => 3
  }

  /** The lease condition every fenced statement carries. */
  predicate Holds(r: Run, node: string, token: string, now: nat) {
    token != "" && r.token == token && r.node == node && now < r.expires
  }

  /* ---------- The operations ---------- */

  function FreshRun(node: string, key: string): Run {
    Run(node, Preparing, key, NoBody, NoDigest, "", NoStatus, NoCancel, false, 0, "", 0)
  }

  predicate Claimable(row: Row) {
    IsQueued(row.task.status) && !row.task.deleted && !row.task.slot && row.run.None?
  }

  function Claim(row: Row, node: string, key: string, delivery: bool): Row
    requires Claimable(row)
  {
    Row(row.task.(status := Dispatching, node := node, slot := true, delivery := delivery),
        Some(FreshRun(node, key)))
  }

  function Acquire(row: Row, node: string, token: string, now: nat, ttl: int): Option<Row> {
    if token == "" || ttl < 1 || row.run.None? then None else
    var r := row.run.value;
    if r.node == node && r.phase != Terminal && !r.reconcile && r.expires <= now
       && row.task.node == r.node && row.task.slot && !row.task.deleted
    then Some(row.(run := Some(r.(token := token, expires := now + ttl))))
    else None
  }

  function Renew(row: Row, node: string, token: string, now: nat, ttl: int): Option<Row> {
    if ttl < 1 || row.run.None? then None else
    var r := row.run.value;
    if Holds(r, node, token, now) && r.phase != Terminal
    then Some(row.(run := Some(r.(expires := now + ttl))))
    else None
  }

  function Release(row: Row, node: string, token: string, now: nat, reconcile: bool): Option<Row> {
    if row.run.None? then None else
    var r := row.run.value;
    if Holds(r, node, token, now) && r.phase != Terminal
    then Some(row.(run := Some(r.(token := "", expires := 0, reconcile := reconcile))))
    else None
  }

  function Prepare(row: Row, node: string, token: string, now: nat, body: Body): Option<Row> {
    if body == NoBody || row.run.None? then None else
    var r := row.run.value;
    if Holds(r, node, token, now) && r.phase == Preparing && r.cancel == NoCancel
    then Some(row.(run := Some(r.(phase := Prepared, body := body, hash := Sha256(body)))))
    else None
  }

  function Begin(row: Row, node: string, token: string, now: nat): Option<Row> {
    if row.run.None? then None else
    var r := row.run.value;
    if Holds(r, node, token, now) && !r.reconcile
       && (r.phase == SubmitIntent || (r.phase == Prepared && r.cancel == NoCancel))
    then Some(row.(run := Some(r.(phase := SubmitIntent, attempts := r.attempts + 1))))
    else None
  }

  function Bind(row: Row, node: string, token: string, now: nat, id: string): Option<Row> {
    if id == "" || row.run.None? then None else
    var r, t := row.run.value, row.task;
    if Holds(r, node, token, now) && r.phase == SubmitIntent
       && t.node == node && t.slot && IsActive(t.status)
    then Some(Row(t.(job := id, status := if t.status == Cancelling then Cancelling else Running),
                  Some(r.(phase := Submitted, upstream := id, upstreamStatus := UQueued))))
    else None
  }

  function Observe(row: Row, node: string, token: string, now: nat, status: Upstream,
      cancel: CancelState): Option<Row>
  {
    if (status != UQueued && status != URunning) || cancel == Confirmed || row.run.None? then None else
    var r, t := row.run.value, row.task;
    if Holds(r, node, token, now) && r.phase == Submitted
    then Some(Row(if cancel == Rejected && t.status == Cancelling then t.(status := Running) else t,
                  Some(r.(upstreamStatus := status, cancel := if cancel == Rejected then Rejected else r.cancel))))
    else None
  }

  datatype CancelOutcome = Recorded(row: Row) | AlreadyCancelled | NotCancellable | NotFound | Conflict

  function RequestCancel(row: Row): CancelOutcome {
    if row.run.None? then NotFound else
    var r, t := row.run.value, row.task;
    if r.phase == Terminal then
      (if r.upstreamStatus == UCancelled then AlreadyCancelled else NotCancellable)
    else if r.upstreamStatus == URunning || r.cancel == Rejected then NotCancellable
    else if !t.slot || t.deleted || !IsActive(t.status) then Conflict
    else Recorded(Row(t.(status := Cancelling), Some(r.(cancel := Requested))))
  }

  function Complete(row: Row, node: string, token: string, now: nat, c: Completion): Option<Row> {
    if (c.status != USucceeded && c.status != UFailed && c.status != UCancelled)
       || (c.status == USucceeded && c.url == "") || row.run.None? then None else
    var r, t := row.run.value, row.task;
    if Holds(r, node, token, now) && r.phase != Terminal
       && t.node == node && t.slot && !t.deleted && IsActive(t.status)
    then
      var deferred := c.upload && c.status == USucceeded;
      var status := if deferred then Reconciling
                    else if c.status == USucceeded then Succeeded
                    else if c.status == UFailed then Failed
                    else Cancelled;
      var cancel := if c.status == UCancelled then Confirmed
                    else if r.cancel == Requested then Rejected
                    else r.cancel;
      Some(Row(
        t.(status := status, slot := false, error := c.error,
           internalUrl := if t.internalUrl != "" then t.internalUrl else c.url,
           publicUrl := if deferred then "" else c.url),
        Some(r.(phase := Terminal, upstreamStatus := c.status, cancel := cancel, token := "", expires := 0))))
    else None
  }

  /**
   The administrator's cancel after it has found the task without an active slot.
   That finding and this transaction are separate, so the slot may be active by now.
   */
  function AdminCancelCommit(row: Row): Option<Row> {
    var t := row.task;
    if t.deleted then None
    else if IsQueued(t.status) then Some(row.(task := t.(status := Cancelled)))
    else if t.status == Dispatching || t.status == Running || t.status == Reconciling then
      (if t.node == "" then Some(row.(task := t.(status := Cancelled)))
       else Some(row.(task := t.(status := Cancelling))))
    else if t.status == Cancelling && t.node != "" then Some(row)
    else None
  }

  function SoftDelete(row: Row): Option<Row> {
    if IsTerminal(row.task.status) && !row.task.deleted
    then Some(row.(task := row.task.(deleted := true)))
    else None
  }

  /* ---------- What every operation keeps ---------- */

  predicate RunOk(r: Run, key: string, model: string) {
    && r.key == key
    && r.node != ""
    && (r.phase == Preparing || r.phase == Prepared ==>
        r.attempts == 0 && r.upstream == "" && r.upstreamStatus == NoStatus)
    && (r.phase == Preparing ==> r.body == NoBody)
    && (r.phase == SubmitIntent ==> r.attempts > 0 && r.upstream == "")
    && (r.phase == Submitted ==> r.attempts > 0 && r.upstream != "")
    && (r.phase == Prepared || r.attempts > 0 ==> r.body != NoBody)
    && (r.body != NoBody ==> r.hash == Sha256(r.body) && r.body.model == model)
    && (r.upstream != "" ==> r.attempts > 0)
    && (r.reconcile || r.phase == Terminal ==> r.token == "")
    && (r.token == "" ==> r.expires == 0)
    && (r.cancel == Rejected ==> r.phase == Submitted || r.phase == Terminal)
    && (r.cancel == Confirmed ==> r.phase == Terminal)
  }

  /** The slot is held exactly while the run is live, and a recorded request shows in the task. */
  predicate RowInv(key: string, row: Row) {
    var t := row.task;
    match row.run
    case None =>
      !t.slot && t.node == "" && t.error == NoError && !IsActive(t.status)
    case Some(r) =>
      && RunOk(r, key, t.model)
      && (t.slot <==> r.phase != Terminal)
      && (r.phase != Terminal ==>
            && t.node == r.node && !t.deleted && t.error == NoError
            && (t.status == Dispatching || t.status == Running || t.status == Cancelling)
            && (r.cancel == Requested ==> t.status == Cancelling))
      && (r.phase == Terminal ==> !IsQueued(t.status))
      && (t.error == SubmitRejected ==> r.attempts == 1 && r.upstream == "")
  }

  /** How a run may change over any number of steps. */
  predicate Evolves(a: Run, b: Run) {
    && b.node == a.node && b.key == a.key
    && Rank(a.phase) <= Rank(b.phase)
    && a.attempts <= b.attempts
    && (a.phase == Terminal ==> b == a)
    && (a.body != NoBody ==> b.body == a.body && b.hash == a.hash)
    && (a.upstream != "" ==> b.upstream == a.upstream)
    && (a.upstream == "" && b.upstream != "" ==> Rank(b.phase) >= 3)
    && (a.reconcile ==> b.reconcile && b.token == "" && b.attempts == a.attempts)
    && CancelRank(a.cancel) <= CancelRank(b.cancel)
  }

  predicate RowEvolves(a: Row, b: Row) {
    && b.task.model == a.task.model
    && (a.run.Some? ==> b.run.Some? && Evolves(a.run.value, b.run.value))
  }

  /** Whoever is left holding the lease without having acted finds it as it was. */
  predicate Fenced(actor: string, a: Row, b: Row) {
    b.run.Some? && b.run.value.token != "" && b.run.value.token != actor ==>
      && a.run.Some?
      && b.run.value.token == a.run.value.token
      && b.run.value.attempts == a.run.value.attempts
      && b.run.value.phase == a.run.value.phase
  }

  /** The guarantee of one atomic step taken by `actor`; the empty actor is the environment. */
  predicate RowStep(actor: string, key: string, a: Row, b: Row) {
    RowInv(key, b) && RowEvolves(a, b) && Fenced(actor, a, b)
  }

  /** Nothing about the upstream is learnt: neither an id nor a refusal to cancel. */
  predicate Quiet(a: Row, b: Row) {
    b.run.Some? ==>
      && b.run.value.upstream == (if a.run.Some? then a.run.value.upstream else "")
      && (b.run.value.cancel == Rejected && b.run.value.phase != Terminal ==>
            a.run.Some? && a.run.value.cancel == Rejected && a.run.value.phase != Terminal)
  }

  lemma EvolvesTransitive(a: Row, b: Row, c: Row)
    requires RowEvolves(a, b) && RowEvolves(b, c)
    ensures RowEvolves(a, c)
  {
  }

  lemma ClaimStep(key: string, a: Row, node: string, delivery: bool)
    requires RowInv(key, a) && Claimable(a) && node != ""
    ensures RowStep("", key, a, Claim(a, node, key, delivery)) && Quiet(a, Claim(a, node, key, delivery))
  {
  }

  lemma AcquireStep(key: string, a: Row, node: string, token: string, now: nat, ttl: int)
    requires RowInv(key, a) && Acquire(a, node, token, now, ttl).Some?
    ensures RowStep(token, key, a, Acquire(a, node, token, now, ttl).value)
            && Quiet(a, Acquire(a, node, token, now, ttl).value)
  {
  }

  lemma RenewStep(key: string, a: Row, node: string, token: string, now: nat, ttl: int)
    requires RowInv(key, a) && Renew(a, node, token, now, ttl).Some?
    ensures RowStep(token, key, a, Renew(a, node, token, now, ttl).value)
            && Quiet(a, Renew(a, node, token, now, ttl).value)
  {
  }

  lemma RequestCancelStep(key: string, a: Row)
    requires RowInv(key, a) && RequestCancel(a).Recorded?
    ensures RowStep("", key, a, RequestCancel(a).row) && Quiet(a, RequestCancel(a).row)
  {
  }

  lemma AdminCancelStep(key: string, a: Row)
    requires RowInv(key, a) && AdminCancelCommit(a).Some?
    ensures RowStep("", key, a, AdminCancelCommit(a).value) && Quiet(a, AdminCancelCommit(a).value)
  {
  }

  lemma SoftDeleteStep(key: string, a: Row)
    requires RowInv(key, a) && SoftDelete(a).Some?
    ensures RowStep("", key, a, SoftDelete(a).value) && Quiet(a, SoftDelete(a).value)
  {
  }
}
