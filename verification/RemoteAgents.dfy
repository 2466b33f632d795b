/**
 The tk2sd processors around the store.  Every call of ProcessTask is an agent named by
 the lease token it drew; agents interleave freely, may stop for ever at any point, and
 may go on long after their lease was taken over.  A run of the system is a sequence of
 steps; everything the world decides (clock, upstream answers, prepared bodies, the
 interleaving itself) is data in the step, so a statement about every sequence of steps
 is a statement about every run.
 */
module RemoteAgents {
  import opened Domain
  import opened RemoteRun

  /* ---------- Answers of the outside world ---------- */

  datatype PrepareAnswer = Ready(payload: string) | BadInput | InputPending
  datatype SubmitAnswer =
    | Accepted(job: string)      // a job exists and its id reached us
    | AcceptedLost(job: string)  // a job exists, the answer was lost
    | Unreachable | EmptyId | Conflict409 | Refused4xx
  datatype QueryAnswer = QueryFailed | Mismatch | Answer(status: Upstream)
  datatype CancelAnswer = CancelDone | Cancel409 | CancelFailed

  datatype World = World(
    now: nat, prepare: PrepareAnswer, submit: SubmitAnswer,
    query: QueryAnswer, cancel: CancelAnswer, confirm: QueryAnswer,
    url: string)  // the result address; empty when it fails validation

  /* ---------- The program of an agent ---------- */

  datatype Pc =
    | Deciding | Materialising | Saving(body: Body) | Reloading(bound: bool)
    | Checking | Beginning | Submitting | Binding(id: string)
    | Polling | Rereading(answer: Upstream) | Judging(answer: Upstream)
    | Observing(status: Upstream, cancel: CancelState)
    | Finishing(completion: Completion) | Releasing(reconcile: bool) | Done

  /** `local` is the copy of the run that the Go code passes around. */
  datatype Agent = Agent(task: string, node: string, local: Run, pc: Pc)

  /** A job is identified upstream by the node and the idempotency key. */
  datatype JobKey = JobKey(node: string, key: string)

  datatype Submission = Submission(task: string, node: string, key: string, body: Body, created: bool)

  /** What one agent step does: its row, itself, and what the upstream sees. */
  datatype Effect = Effect(row: Row, agent: Agent, sent: Option<Submission>, jobs: map<JobKey, string>, running: bool)

  function Stay(row: Row, a: Agent, jobs: map<JobKey, string>, pc: Pc): Effect {
    Effect(row, a.(pc := pc), None, jobs, false)
  }

  /** Go on at `ok` when the store accepted the transaction, otherwise give the lease back. */
  function Commit(result: Option<Row>, row: Row, a: Agent, jobs: map<JobKey, string>, ok: Pc): Effect {
    match result
    case None => Stay(row, a, jobs, Releasing(false))
    case Some(next) => Stay(next, a, jobs, ok)
  }

  /** An upstream that deduplicates: a known key keeps its job, a new one gets a new id. */
  predicate CanCreate(jobs: map<JobKey, string>, k: JobKey, job: string) {
    job != "" && forall k' | k' in jobs :: k'.node == k.node ==> jobs[k'] != job
  }

  function Submit(row: Row, a: Agent, jobs: map<JobKey, string>, answer: SubmitAnswer): Effect {
    var l := a.local;
    var k := JobKey(a.node, l.key);
    var create := (answer.Accepted? || answer.AcceptedLost?) && k !in jobs && CanCreate(jobs, k, answer.job);
    var jobs' := if create then jobs[k := answer.job] else jobs;
    var pc :=
      match answer
      case Accepted(_) => if k in jobs' then Binding(jobs'[k]) else Releasing(false)
      case AcceptedLost(_) => Releasing(false)
      case Unreachable => Releasing(false)
      case EmptyId => Releasing(false)
      case Conflict409 => Releasing(true)
      case Refused4xx =>
        if l.attempts > 0 then Releasing(true)
        else Finishing(Completion(UFailed, "", SubmitRejected, false));
    Effect(row, a.(pc := pc), Some(Submission(a.task, a.node, l.key, l.body, create)), jobs', false)
  }

  predicate EvidenceOk(l: Run, model: string) {
    l.body.Body? && l.hash == Sha256(l.body) && l.body.model == model
  }

  /** The terminal answer of the upstream, turned into a completion. */
  function Conclude(row: Row, status: Upstream, url: string): Pc {
    match status
    case USucceeded =>
      if url == "" then Releasing(false)
      else Finishing(Completion(USucceeded, url, NoError, row.task.delivery))
    case UFailed => Finishing(Completion(UFailed, "", GenerationFailed, false))
    case UCancelled => Finishing(Completion(UCancelled, "", NoError, false))
    case _ => Releasing(false)
  }

  predicate IsConclusive(status: Upstream) {
    status == USucceeded || status == UFailed || status == UCancelled
  }

  /** The poll result is known and the run has been read again. */
  function Judge(row: Row, a: Agent, jobs: map<JobKey, string>, answer: Upstream, w: World): Effect {
    if answer == UQueued || answer == URunning then
      if a.local.cancel != Requested then Stay(row, a, jobs, Observing(answer, a.local.cancel))
      else if answer == URunning then Stay(row, a, jobs, Observing(URunning, Rejected))
      else match w.cancel
        case CancelDone => Stay(row, a, jobs, Finishing(Completion(UCancelled, "", NoError, false)))
        case CancelFailed => Stay(row, a, jobs, Observing(UQueued, Requested))
        case Cancel409 =>
          if w.confirm.Answer? && IsConclusive(w.confirm.status) then
            Stay(row, a, jobs, Conclude(row, w.confirm.status, w.url))
          else if w.confirm == Answer(URunning) then
            Stay(row, a, jobs, Observing(URunning, Rejected)).(running := true)
          else Stay(row, a, jobs, Observing(UQueued, Requested))
    else Stay(row, a, jobs, Conclude(row, answer, w.url))
  }

  /** Read the run again; an agent whose lease is gone stops. */
  function Reload(row: Row, tok: string, a: Agent, jobs: map<JobKey, string>, next: Pc): Effect {
    if row.run.Some? && row.run.value.token == tok && row.run.value.node == a.node
    then Stay(row, a.(local := row.run.value), jobs, next)
    else Stay(row, a, jobs, Releasing(false))
  }

  function Work(row: Row, tok: string, a: Agent, jobs: map<JobKey, string>, w: World): Effect {
    var l := a.local;
    match a.pc
    case Deciding =>
      if l.reconcile then Stay(row, a, jobs, Releasing(true))
      else if l.cancel == Requested && (l.phase == Preparing || l.phase == Prepared) then
        Stay(row, a, jobs, Finishing(Completion(UCancelled, "", NoError, false)))
      else if l.phase == Preparing then Stay(row, a, jobs, Materialising)
      else Stay(row, a, jobs, Checking)
    case Materialising =>
      Stay(row, a, jobs,
        match w.prepare
        case Ready(payload) => Saving(Body(row.task.model, payload))
        case BadInput => Finishing(Completion(UFailed, "", InputFailed, false))
        case InputPending => Releasing(false))
    case Saving(body) =>
      Commit(Prepare(row, a.node, tok, w.now, body), row, a, jobs, Reloading(false))
    case Reloading(bound) =>
      Reload(row, tok, a, jobs, if bound then Polling else Checking)
    case Checking =>
      if l.phase == Prepared || l.phase == SubmitIntent then
        Stay(row, a, jobs, if EvidenceOk(l, row.task.model) then Beginning else Releasing(true))
      else Stay(row, a, jobs, Polling)
    case Beginning =>
      Commit(Begin(row, a.node, tok, w.now), row, a, jobs, Submitting)
    case Submitting =>
      Submit(row, a, jobs, w.submit)
    case Binding(id) =>
      Commit(Bind(row, a.node, tok, w.now, id), row, a, jobs, Reloading(true))
    case Polling =>
      if l.phase != Submitted || l.upstream == "" then Stay(row, a, jobs, Releasing(true))
      else if w.query.Answer? then
        Stay(row, a, jobs, Rereading(w.query.status)).(running := w.query.status == URunning)
      else Stay(row, a, jobs, Releasing(false))
    case Rereading(answer) =>
      Reload(row, tok, a, jobs, Judging(answer))
    case Judging(answer) =>
      Judge(row, a, jobs, answer, w)
    case Observing(status, cancel) =>
      Commit(Observe(row, a.node, tok, w.now, status, cancel), row, a, jobs, Releasing(false))
    case Finishing(c) =>
      Commit(Complete(row, a.node, tok, w.now, c), row, a, jobs, Releasing(false))
    case Releasing(reconcile) =>
      Commit(Release(row, a.node, tok, w.now, reconcile), row, a, jobs, Done).(agent := a.(pc := Done))
    case Done =>
      Stay(row, a, jobs, Done)
  }

  /* ---------- The whole system ---------- */

  datatype Admission = Admission(
    capacity: int, occupied: int, cooling: int, queued: int, canDispatch: bool, leased: set<string>)

  datatype Sys = Sys(
    instance: string,
    rows: map<string, Row>,
    agents: map<string, Agent>,
    jobs: map<JobKey, string>,      // what the deduplicating upstream holds
    log: seq<Submission>,           // every Submit call ever made
    seen: set<string>)              // tasks the upstream has reported as running

  datatype Step =
    | Enqueue(id: string, model: string)
    | ClaimNext(id: string, node: string, configured: int, capacity: int, delivery: bool, admission: Option<Admission>)
    | CancelRequest(id: string)
    | AdminCancel(id: string)
    | Delete(id: string)
    | Start(tok: string, id: string, node: string, now: nat, ttl: int)
    | Heartbeat(tok: string, now: nat, ttl: int)
    | Abandon(tok: string)
    | Go(tok: string, w: World)

  function SubmissionKey(instance: string, id: string): string {
    "proxy:" + instance + ":" + id
  }

  function ActiveOn(rows: map<string, Row>, node: string): set<string> {
    set id | id in rows && rows[id].task.slot && rows[id].task.node == node
  }

  /** Active slots whose upstream id is among the leased ones: counted twice by the snapshot. */
  function OverlapOn(rows: map<string, Row>, node: string, leased: set<string>): set<string> {
    set id | id in ActiveOn(rows, node) && rows[id].run.Some? && rows[id].run.value.upstream != ""
      && rows[id].run.value.upstream in leased
  }

  /** How many slots of this node may be active at most, or a refusal. */
  function Allowance(rows: map<string, Row>, node: string, configured: int, capacity: int,
      admission: Option<Admission>): Option<int>
  {
    var limit := Min(capacity, configured);
    match admission
    case None => Some(limit)
    case Some(a) =>
      if !a.canDispatch || a.queued > 0 || a.capacity < 1 || a.occupied < 0 || a.cooling < 0
         || a.occupied > a.capacity || a.cooling > a.capacity - a.occupied
      then None
      else
        var overlap := |OverlapOn(rows, node, a.leased)|;
        if overlap > a.occupied then None
        else Some(Min(limit, a.capacity - a.occupied - a.cooling + overlap))
  }

  predicate Admits(rows: map<string, Row>, node: string, configured: int, capacity: int, admission: Option<Admission>) {
    var allowance := Allowance(rows, node, configured, capacity, admission);
    capacity >= 1 && allowance.Some? && |ActiveOn(rows, node)| < allowance.value
  }

  /** The idempotency key must be usable as a header value. */
  predicate KeyOk(instance: string, key: string) {
    instance != "" && |key| <= 200 && '\r' !in key && '\n' !in key
  }

  predicate ClaimEnabled(s: Sys, step: Step)
    requires step.ClaimNext?
  {
    && step.id in s.rows && step.node != "" && Claimable(s.rows[step.id])
    && KeyOk(s.instance, SubmissionKey(s.instance, step.id))
    && Admits(s.rows, step.node, step.configured, step.capacity, step.admission)
  }

  function SetRow(s: Sys, id: string, row: Option<Row>): Sys {
    if row.Some? then s.(rows := s.rows[id := row.value]) else s
  }

  function Record(s: Sys, tok: string, e: Effect): Sys {
    s.(rows := s.rows[e.agent.task := e.row], agents := s.agents[tok := e.agent], jobs := e.jobs,
       log := if e.sent.Some? then s.log + [e.sent.value] else s.log,
       seen := if e.running then s.seen + {e.agent.task} else s.seen)
  }

  /** One step; a step that is not enabled changes nothing. */
  function Apply(s: Sys, step: Step): Sys {
    match step
    case Enqueue(id, model) =>
      if id in s.rows then s
      else s.(rows := s.rows[id := Row(Task(model, QueuedOpen, "", false, false, false, "", "", "", NoError), None)])
    case ClaimNext(id, node, configured, capacity, delivery, admission) =>
      if ClaimEnabled(s, step)
      then s.(rows := s.rows[id := Claim(s.rows[id], node, SubmissionKey(s.instance, id), delivery)])
      else s
    case CancelRequest(id) =>
      if id in s.rows && RequestCancel(s.rows[id]).Recorded? then SetRow(s, id, Some(RequestCancel(s.rows[id]).row))
         else s
    case AdminCancel(id) =>
      if id in s.rows then SetRow(s, id, AdminCancelCommit(s.rows[id])) else s
    case Delete(id) =>
      if id in s.rows then SetRow(s, id, SoftDelete(s.rows[id])) else s
    case Start(tok, id, node, now, ttl) =>
      if id in s.rows && tok !in s.agents && Acquire(s.rows[id], node, tok, now, ttl).Some? then
        var row := Acquire(s.rows[id], node, tok, now, ttl).value;
        s.(rows := s.rows[id := row], agents := s.agents[tok := Agent(id, node, row.run.value, Deciding)])
      else s
    case Heartbeat(tok, now, ttl) =>
      if tok in s.agents && s.agents[tok].task in s.rows
      then SetRow(s, s.agents[tok].task, Renew(s.rows[s.agents[tok].task], s.agents[tok].node, tok, now, ttl))
      else s
    case Abandon(tok) =>
      if tok in s.agents && s.agents[tok].pc != Done
      then s.(agents := s.agents[tok := s.agents[tok].(pc := Releasing(false))])
      else s
    case Go(tok, w) =>
      if tok in s.agents && s.agents[tok].task in s.rows then
        var a := s.agents[tok];
        Record(s, tok, Work(s.rows[a.task], tok, a, s.jobs, w))
      else s
  }

  function Exec(s: Sys, steps: seq<Step>): Sys
    decreases |steps|
  {
    if steps == [] then s else Exec(Apply(s, steps[0]), steps[1..])
  }

  function Init(instance: string): Sys {
    Sys(instance, map[], map[], map[], [], {})
  }
}
