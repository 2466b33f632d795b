/** What holds in every run of the tk2sd protocol. */
module RemoteSafety {
  import opened Domain
  import opened RemoteRun
  import opened RemoteAgents

  type Jobs = map<JobKey, string>

  /* ---------- The invariant ---------- */

  /** A row agrees with the upstream: its id is its own job, a refusal was earned. */
  predicate RowOk(instance: string, id: string, row: Row, jobs: Jobs, seen: set<string>) {
    && RowInv(SubmissionKey(instance, id), row)
    && (row.run.Some? ==>
          var r := row.run.value;
          && (r.upstream != "" ==> JobKey(r.node, r.key) in jobs && jobs[JobKey(r.node, r.key)] == r.upstream)
          && (r.cancel == Rejected && r.phase != Terminal ==> id in seen))
  }

  /** After the submission intent was stored, before the run was read again. */
  predicate Began(pc: Pc) {
    pc.Submitting? || pc.Binding? || pc == Reloading(true)
    || (pc.Finishing? && pc.completion.error == SubmitRejected)
  }

  predicate PcOk(pc: Pc, l: Run, r: Run, id: string, model: string, jobs: Jobs, seen: set<string>) {
    match pc
    case Saving(body) => body.Body? && body.model == model
    case Beginning => l.body != NoBody
    case Submitting => l.body != NoBody && r.attempts > 0
    case Binding(up) => JobKey(l.node, l.key) in jobs && jobs[JobKey(l.node, l.key)] == up
    case Rereading(answer) => answer == URunning ==> id in seen
    case Judging(answer) => answer == URunning ==> id in seen
    case Observing(_, cancel) => cancel == Rejected ==> id in seen
    case Finishing(c) => c.error == SubmitRejected ==> l.attempts == 0
    case _ => true
  }

  /** The local copy is an earlier state of the run, and exact as long as the lease is held. */
  predicate AgentOk(instance: string, tok: string, a: Agent, row: Row, jobs: Jobs, seen: set<string>) {
    && tok != "" && row.run.Some?
    && var l, r := a.local, row.run.value;
    && l.token == tok && l.node == a.node
    && RunOk(l, SubmissionKey(instance, a.task), row.task.model)
    && (l.cancel == Rejected ==> a.task in seen)
    && Evolves(l.(token := "", expires := 0), r)
    && (r.token == tok && !a.pc.Releasing? && !a.pc.Done? ==>
          && r.attempts == l.attempts + (if Began(a.pc) then 1 else 0)
          && (Began(a.pc) && !a.pc.Reloading? ==> r.phase == SubmitIntent))
    && PcOk(a.pc, l, r, a.task, row.task.model, jobs, seen)
  }

  /** Every Submit ever made repeats what the run still says, and its job is on record. */
  predicate SubmissionOk(e: Submission, rows: map<string, Row>, jobs: Jobs) {
    && e.task in rows && rows[e.task].run.Some?
    && var r := rows[e.task].run.value;
    && e.node == r.node && e.key == r.key && e.body == r.body && e.body != NoBody
    && r.attempts > 0
    && (e.created ==> JobKey(e.node, e.key) in jobs)
  }

  predicate CreatedOnce(log: seq<Submission>) {
    forall i, j :: 0 <= i < j < |log| && log[i].created && log[j].created ==>
      JobKey(log[i].node, log[i].key) != JobKey(log[j].node, log[j].key)
  }

  predicate DistinctJobs(jobs: Jobs) {
    forall k, k' | k in jobs && k' in jobs && k != k' && k.node == k'.node :: jobs[k] != jobs[k']
  }

  predicate RowsOk(s: Sys) {
    forall id | id in s.rows :: RowOk(s.instance, id, s.rows[id], s.jobs, s.seen)
  }

  predicate AgentsOk(s: Sys) {
    forall tok | tok in s.agents :: s.agents[tok].task in s.rows
      && AgentOk(s.instance, tok, s.agents[tok], s.rows[s.agents[tok].task], s.jobs, s.seen)
  }

  predicate LogOk(log: seq<Submission>, rows: map<string, Row>, jobs: Jobs) {
    && (forall e | e in log :: SubmissionOk(e, rows, jobs))
    && CreatedOnce(log)
    && DistinctJobs(jobs)
  }

  predicate Inv(s: Sys) {
    RowsOk(s) && AgentsOk(s) && LogOk(s.log, s.rows, s.jobs)
  }

  /** The upstream only ever learns. */
  predicate Grows(a: Jobs, b: Jobs) {
    forall k | k in a :: k in b && b[k] == a[k]
  }

  /* ---------- One step ---------- */

  /** Anyone but the actor keeps its invariant. */
  lemma OthersKeep(instance: string, tok: string, a: Agent, before: Row, after: Row, actor: string, jobs: Jobs,
      jobs': Jobs, seen: set<string>, seen': set<string>)
    requires AgentOk(instance, tok, a, before, jobs, seen)
    requires RowStep(actor, SubmissionKey(instance, a.task), before, after)
    requires tok != actor && Grows(jobs, jobs') && seen <= seen'
    ensures AgentOk(instance, tok, a, after, jobs', seen')
  {
  }

  /** What one step of an agent guarantees. */
  predicate WorkOk(instance: string, tok: string, row: Row, a: Agent, jobs: Jobs, seen: set<string>, e: Effect) {
    var seen' := if e.running then seen + {a.task} else seen;
    && e.agent.task == a.task && e.agent.node == a.node
    && RowStep(tok, SubmissionKey(instance, a.task), row, e.row)
    && RowOk(instance, a.task, e.row, e.jobs, seen')
    && AgentOk(instance, tok, e.agent, e.row, e.jobs, seen')
    && (e.sent.None? ==> e.jobs == jobs)
  }

  /** Moving on without touching the row. */
  lemma StayWork(instance: string, tok: string, row: Row, a: Agent, jobs: Jobs, seen: set<string>, pc: Pc,
      running: bool)
    requires RowOk(instance, a.task, row, jobs, seen) && AgentOk(instance, tok, a, row, jobs, seen)
    requires !Began(a.pc) && !Began(pc) && ((a.pc.Releasing? || a.pc.Done?) ==> pc == a.pc)
    requires PcOk(pc, a.local, row.run.value, a.task, row.task.model, jobs, if running then seen + {a.task} else seen)
    ensures WorkOk(instance, tok, row, a, jobs, seen, Stay(row, a, jobs, pc).(running := running))
  {
  }

  lemma SubmitWork(instance: string, tok: string, row: Row, a: Agent, jobs: Jobs, seen: set<string>, w: World)
    requires RowOk(instance, a.task, row, jobs, seen) && AgentOk(instance, tok, a, row, jobs, seen)
    requires a.pc.Submitting?
    ensures WorkOk(instance, tok, row, a, jobs, seen, Work(row, tok, a, jobs, w))
  {
    hide Prepare, Begin, Bind, Observe, Complete, Release, Judge, Reload;
  }

  lemma SaveWork(instance: string, tok: string, row: Row, a: Agent, jobs: Jobs, seen: set<string>, w: World)
    requires RowOk(instance, a.task, row, jobs, seen) && AgentOk(instance, tok, a, row, jobs, seen)
    requires a.pc.Saving?
    ensures WorkOk(instance, tok, row, a, jobs, seen, Work(row, tok, a, jobs, w))
  {
    hide Begin, Bind, Observe, Complete, Release, Submit, Judge, Reload, SubmissionKey;
  }

  lemma BeginWork(instance: string, tok: string, row: Row, a: Agent, jobs: Jobs, seen: set<string>, w: World)
    requires RowOk(instance, a.task, row, jobs, seen) && AgentOk(instance, tok, a, row, jobs, seen)
    requires a.pc.Beginning?
    ensures WorkOk(instance, tok, row, a, jobs, seen, Work(row, tok, a, jobs, w))
  {
    hide Prepare, Bind, Observe, Complete, Release, Submit, Judge, Reload, SubmissionKey;
  }

  lemma BindWork(instance: string, tok: string, row: Row, a: Agent, jobs: Jobs, seen: set<string>, w: World)
    requires RowOk(instance, a.task, row, jobs, seen) && AgentOk(instance, tok, a, row, jobs, seen)
    requires a.pc.Binding?
    ensures WorkOk(instance, tok, row, a, jobs, seen, Work(row, tok, a, jobs, w))
  {
    hide Prepare, Begin, Observe, Complete, Release, Submit, Judge, Reload;
  }

  lemma ObserveWork(instance: string, tok: string, row: Row, a: Agent, jobs: Jobs, seen: set<string>, w: World)
    requires RowOk(instance, a.task, row, jobs, seen) && AgentOk(instance, tok, a, row, jobs, seen)
    requires a.pc.Observing?
    ensures WorkOk(instance, tok, row, a, jobs, seen, Work(row, tok, a, jobs, w))
  {
    hide Prepare, Begin, Bind, Complete, Release, Submit, Judge, Reload;
  }

  lemma FinishWork(instance: string, tok: string, row: Row, a: Agent, jobs: Jobs, seen: set<string>, w: World)
    requires RowOk(instance, a.task, row, jobs, seen) && AgentOk(instance, tok, a, row, jobs, seen)
    requires a.pc.Finishing?
    ensures WorkOk(instance, tok, row, a, jobs, seen, Work(row, tok, a, jobs, w))
  {
    hide Prepare, Begin, Bind, Observe, Complete, Release, Submit, Judge, Reload, SubmissionKey;
    var result := Complete(row, a.node, tok, w.now, a.pc.completion);
    if result.Some? {
      Finished(instance, tok, row, a, jobs, seen, w, result.value);
    } else {
      StillThere(instance, tok, row, a, jobs, seen);
    }
  }

  /** A completion leaves a terminal run without a lease. */
  lemma Finished(instance: string, tok: string, row: Row, a: Agent, jobs: Jobs, seen: set<string>, w: World, next: Row)
    requires RowOk(instance, a.task, row, jobs, seen) && AgentOk(instance, tok, a, row, jobs, seen)
    requires a.pc.Finishing? && Complete(row, a.node, tok, w.now, a.pc.completion) == Some(next)
    ensures WorkOk(instance, tok, row, a, jobs, seen, Stay(next, a, jobs, Releasing(false)))
  {
    hide SubmissionKey;
  }

  /** Giving up without having changed the row. */
  lemma StillThere(instance: string, tok: string, row: Row, a: Agent, jobs: Jobs, seen: set<string>)
    requires RowOk(instance, a.task, row, jobs, seen) && AgentOk(instance, tok, a, row, jobs, seen)
    ensures WorkOk(instance, tok, row, a, jobs, seen, Stay(row, a, jobs, Releasing(false)))
  {
    hide SubmissionKey;
  }

  lemma ReleaseWork(instance: string, tok: string, row: Row, a: Agent, jobs: Jobs, seen: set<string>, w: World)
    requires RowOk(instance, a.task, row, jobs, seen) && AgentOk(instance, tok, a, row, jobs, seen)
    requires a.pc.Releasing?
    ensures WorkOk(instance, tok, row, a, jobs, seen, Work(row, tok, a, jobs, w))
  {
    hide Prepare, Begin, Bind, Observe, Complete, Submit, Judge, Reload, SubmissionKey;
  }

  lemma ReloadWork(instance: string, tok: string, row: Row, a: Agent, jobs: Jobs, seen: set<string>, w: World)
    requires RowOk(instance, a.task, row, jobs, seen) && AgentOk(instance, tok, a, row, jobs, seen)
    requires a.pc.Reloading? || a.pc.Rereading?
    ensures WorkOk(instance, tok, row, a, jobs, seen, Work(row, tok, a, jobs, w))
  {
    hide Prepare, Begin, Bind, Observe, Complete, Release, Submit, Judge;
  }

  lemma JudgeWork(instance: string, tok: string, row: Row, a: Agent, jobs: Jobs, seen: set<string>, w: World)
    requires RowOk(instance, a.task, row, jobs, seen) && AgentOk(instance, tok, a, row, jobs, seen)
    requires a.pc.Judging?
    ensures WorkOk(instance, tok, row, a, jobs, seen, Work(row, tok, a, jobs, w))
  {
    hide RowInv, RowStep, WorkOk, RowOk;
    var e := Work(row, tok, a, jobs, w);
    StayWork(instance, tok, row, a, jobs, seen, e.agent.pc, e.running);
  }

  lemma DecideWork(instance: string, tok: string, row: Row, a: Agent, jobs: Jobs, seen: set<string>, w: World)
    requires RowOk(instance, a.task, row, jobs, seen) && AgentOk(instance, tok, a, row, jobs, seen)
    requires a.pc.Deciding? || a.pc.Materialising? || a.pc.Checking? || a.pc.Polling? || a.pc.Done?
    ensures WorkOk(instance, tok, row, a, jobs, seen, Work(row, tok, a, jobs, w))
  {
    hide RowInv, RowStep, WorkOk, RowOk;
    var e := Work(row, tok, a, jobs, w);
    StayWork(instance, tok, row, a, jobs, seen, e.agent.pc, e.running);
  }

  lemma AgentWork(instance: string, tok: string, row: Row, a: Agent, jobs: Jobs, seen: set<string>, w: World)
    requires RowOk(instance, a.task, row, jobs, seen) && AgentOk(instance, tok, a, row, jobs, seen)
    ensures WorkOk(instance, tok, row, a, jobs, seen, Work(row, tok, a, jobs, w))
  {
    hide *;
    match a.pc
    case Submitting => SubmitWork(instance, tok, row, a, jobs, seen, w);
    case Saving(_) => SaveWork(instance, tok, row, a, jobs, seen, w);
    case Beginning => BeginWork(instance, tok, row, a, jobs, seen, w);
    case Binding(_) => BindWork(instance, tok, row, a, jobs, seen, w);
    case Observing(_, _) => ObserveWork(instance, tok, row, a, jobs, seen, w);
    case Finishing(_) => FinishWork(instance, tok, row, a, jobs, seen, w);
    case Releasing(_) => ReleaseWork(instance, tok, row, a, jobs, seen, w);
    case Reloading(_) => ReloadWork(instance, tok, row, a, jobs, seen, w);
    case Rereading(_) => ReloadWork(instance, tok, row, a, jobs, seen, w);
    case Judging(_) => JudgeWork(instance, tok, row, a, jobs, seen, w);
    case _ => DecideWork(instance, tok, row, a, jobs, seen, w);
  }

  /** The steps considered below change one row, `id`, on behalf of `actor`. */
  predicate OneRow(s: Sys, s': Sys, id: string, actor: string) {
    && s'.instance == s.instance && id in s.rows && id in s'.rows && s'.rows == s.rows[id := s'.rows[id]]
    && RowStep(actor, SubmissionKey(s.instance, id), s.rows[id], s'.rows[id])
    && Grows(s.jobs, s'.jobs) && s.seen <= s'.seen
    && forall tok | tok in s'.agents && tok != actor :: tok in s.agents && s'.agents[tok] == s.agents[tok]
  }

  lemma RowsKeep(s: Sys, s': Sys, id: string, actor: string)
    requires RowsOk(s) && OneRow(s, s', id, actor)
    requires RowOk(s.instance, id, s'.rows[id], s'.jobs, s'.seen)
    ensures RowsOk(s')
  {
    forall x | x in s'.rows && x != id ensures RowOk(s'.instance, x, s'.rows[x], s'.jobs, s'.seen) {
      assert RowOk(s.instance, x, s.rows[x], s.jobs, s.seen);
    }
  }

  lemma AgentsKeep(s: Sys, s': Sys, id: string, actor: string)
    requires AgentsOk(s) && OneRow(s, s', id, actor)
    requires actor in s'.agents ==>
             s'.agents[actor].task == id && AgentOk(s.instance, actor, s'.agents[actor], s'.rows[id], s'.jobs, s'.seen)
    ensures AgentsOk(s')
  {
    forall tok | tok in s'.agents && tok != actor
      ensures s'.agents[tok].task in s'.rows
              && AgentOk(s'.instance, tok, s'.agents[tok], s'.rows[s'.agents[tok].task], s'.jobs, s'.seen)
    {
      var a := s.agents[tok];
      var before, after := s.rows[a.task], s'.rows[a.task];
      assert AgentOk(s.instance, tok, a, before, s.jobs, s.seen);
      if a.task == id {
        OthersKeep(s.instance, tok, a, before, after, actor, s.jobs, s'.jobs, s.seen, s'.seen);
      } else {
        AgentUnaware(s.instance, tok, a, before, s.jobs, s'.jobs, s.seen, s'.seen);
      }
    }
  }

  lemma AgentUnaware(instance: string, tok: string, a: Agent, row: Row, jobs: Jobs, jobs': Jobs, seen: set<string>,
      seen': set<string>)
    requires AgentOk(instance, tok, a, row, jobs, seen) && Grows(jobs, jobs') && seen <= seen'
    ensures AgentOk(instance, tok, a, row, jobs', seen')
  {
  }

  lemma LogKeeps(s: Sys, s': Sys, id: string, actor: string)
    requires LogOk(s.log, s.rows, s.jobs) && OneRow(s, s', id, actor) && DistinctJobs(s'.jobs)
    ensures LogOk(s.log, s'.rows, s'.jobs)
  {
    forall e | e in s.log ensures SubmissionOk(e, s'.rows, s'.jobs) {
      assert SubmissionOk(e, s.rows, s.jobs);
    }
  }

  /** The newest Submit agrees with the run and creates a job only for a key that has none. */
  lemma SubmitLogged(s: Sys, tok: string, w: World)
    requires Inv(s) && tok in s.agents && s.agents[tok].pc.Submitting?
    ensures var a := s.agents[tok];
            var e := Submit(s.rows[a.task], a, s.jobs, w.submit);
            && Grows(s.jobs, e.jobs)
            && LogOk(s.log + [e.sent.value], s.rows, e.jobs)
  {
    hide RunOk, RowsOk, AgentsOk;
    InvAt(s, tok);
    var a := s.agents[tok];
    var e := Submit(s.rows[a.task], a, s.jobs, w.submit);
    var log := s.log + [e.sent.value];
    forall x | x in s.log ensures SubmissionOk(x, s.rows, e.jobs) {
      assert SubmissionOk(x, s.rows, s.jobs);
    }
    forall i, j | 0 <= i < j < |log| && log[i].created && log[j].created
      ensures JobKey(log[i].node, log[i].key) != JobKey(log[j].node, log[j].key)
    {
      assert log[i] in s.log;
      assert SubmissionOk(log[i], s.rows, s.jobs);
    }
  }

  lemma RowChange(s: Sys, s': Sys, id: string, actor: string)
    requires Inv(s) && OneRow(s, s', id, actor)
    requires RowOk(s.instance, id, s'.rows[id], s'.jobs, s'.seen)
    requires actor in s'.agents ==>
             s'.agents[actor].task == id && AgentOk(s.instance, actor, s'.agents[actor], s'.rows[id], s'.jobs, s'.seen)
    requires s'.log == s.log && s'.jobs == s.jobs
    ensures Inv(s')
  {
    RowsKeep(s, s', id, actor);
    AgentsKeep(s, s', id, actor);
    LogKeeps(s, s', id, actor);
  }

  lemma InvAt(s: Sys, tok: string)
    requires Inv(s) && tok in s.agents
    ensures s.agents[tok].task in s.rows
    ensures RowOk(s.instance, s.agents[tok].task, s.rows[s.agents[tok].task], s.jobs, s.seen)
    ensures AgentOk(s.instance, tok, s.agents[tok], s.rows[s.agents[tok].task], s.jobs, s.seen)
  {
    hide RowOk, AgentOk, LogOk;
  }

  lemma OnlySubmittingSends(row: Row, tok: string, a: Agent, jobs: Jobs, w: World)
    ensures Work(row, tok, a, jobs, w).sent.Some? <==> a.pc.Submitting?
    ensures a.pc.Submitting? ==> Work(row, tok, a, jobs, w) == Submit(row, a, jobs, w.submit)
    ensures Submit(row, a, jobs, w.submit).row == row && Submit(row, a, jobs, w.submit).agent.task == a.task
    ensures !a.pc.Submitting? ==> Work(row, tok, a, jobs, w).jobs == jobs
    ensures Grows(jobs, jobs)
  {
  }

  lemma RecordOneRow(s: Sys, tok: string, e: Effect)
    requires tok in s.agents && s.agents[tok].task in s.rows
    requires WorkOk(s.instance, tok, s.rows[s.agents[tok].task], s.agents[tok], s.jobs, s.seen, e)
    requires Grows(s.jobs, e.jobs)
    ensures var s', id := Record(s, tok, e), e.agent.task;
            && OneRow(s, s', id, tok)
            && RowOk(s.instance, id, s'.rows[id], s'.jobs, s'.seen)
            && AgentOk(s.instance, tok, s'.agents[tok], s'.rows[id], s'.jobs, s'.seen)
  {
  }

  lemma RecordKeeps(s: Sys, tok: string, e: Effect)
    requires Inv(s) && tok in s.agents && s.agents[tok].task in s.rows
    requires WorkOk(s.instance, tok, s.rows[s.agents[tok].task], s.agents[tok], s.jobs, s.seen, e)
    requires Grows(s.jobs, e.jobs)
    requires e.sent.Some? ==> e.row == s.rows[e.agent.task] && LogOk(s.log + [e.sent.value], s.rows, e.jobs)
    ensures Inv(Record(s, tok, e))
  {
    var s' := Record(s, tok, e);
    RecordOneRow(s, tok, e);
    RowsKeep(s, s', e.agent.task, tok);
    AgentsKeep(s, s', e.agent.task, tok);
    if e.sent.None? {
      LogKeeps(s, s', e.agent.task, tok);
    } else {
      assert s'.rows == s.rows;
    }
  }

  lemma GoKeeps(s: Sys, tok: string, w: World)
    requires Inv(s) && tok in s.agents && s.agents[tok].task in s.rows
    ensures Inv(Record(s, tok, Work(s.rows[s.agents[tok].task], tok, s.agents[tok], s.jobs, w)))
  {
    hide *;
    var a := s.agents[tok];
    var row := s.rows[a.task];
    assert RowOk(s.instance, a.task, row, s.jobs, s.seen) && AgentOk(s.instance, tok, a, row, s.jobs, s.seen) by {
      InvAt(s, tok);
    }
    OnlySubmittingSends(row, tok, a, s.jobs, w);
    AgentWork(s.instance, tok, row, a, s.jobs, s.seen, w);
    if a.pc.Submitting? {
      SubmitLogged(s, tok, w);
    }
    RecordKeeps(s, tok, Work(row, tok, a, s.jobs, w));
  }

  lemma QuietKeeps(instance: string, id: string, a: Row, b: Row, actor: string, jobs: Jobs, seen: set<string>)
    requires RowOk(instance, id, a, jobs, seen) && RowStep(actor, SubmissionKey(instance, id), a, b) && Quiet(a, b)
    ensures RowOk(instance, id, b, jobs, seen)
  {
    hide RunOk;
  }

  lemma StartKeeps(s: Sys, tok: string, id: string, node: string, now: nat, ttl: int)
    requires Inv(s) && id in s.rows && tok !in s.agents && Acquire(s.rows[id], node, tok, now, ttl).Some?
    ensures var row := Acquire(s.rows[id], node, tok, now, ttl).value;
            && row.run.Some?
            && Inv(s.(rows := s.rows[id := row], agents := s.agents[tok := Agent(id, node, row.run.value, Deciding)]))
  {
    hide LogOk, RowOk, AgentOk, RowStep;
    var row := Acquire(s.rows[id], node, tok, now, ttl).value;
    var s' := s.(rows := s.rows[id := row], agents := s.agents[tok := Agent(id, node, row.run.value, Deciding)]);
    assert RowOk(s.instance, id, s.rows[id], s.jobs, s.seen);
    NewAgent(s.instance, id, s.rows[id], node, tok, now, ttl, s.jobs, s.seen);
    RowChange(s, s', id, tok);
  }

  lemma NewAgent(instance: string, id: string, a: Row, node: string, tok: string, now: nat, ttl: int, jobs: Jobs,
      seen: set<string>)
    requires RowOk(instance, id, a, jobs, seen) && Acquire(a, node, tok, now, ttl).Some?
    ensures var b := Acquire(a, node, tok, now, ttl).value;
            && RowStep(tok, SubmissionKey(instance, id), a, b)
            && RowOk(instance, id, b, jobs, seen)
            && AgentOk(instance, tok, Agent(id, node, b.run.value, Deciding), b, jobs, seen)
  {
    AcquireStep(SubmissionKey(instance, id), a, node, tok, now, ttl);
  }

  /** A quiet change of one row, by the environment or by a heartbeat. */
  lemma QuietChange(s: Sys, id: string, row: Row, actor: string)
    requires Inv(s) && id in s.rows
    requires RowStep(actor, SubmissionKey(s.instance, id), s.rows[id], row) && Quiet(s.rows[id], row)
    requires actor in s.agents ==>
             s.agents[actor].task == id && AgentOk(s.instance, actor, s.agents[actor], row, s.jobs, s.seen)
    ensures Inv(s.(rows := s.rows[id := row]))
  {
    hide LogOk, RowOk, AgentOk, RowStep;
    assert RowOk(s.instance, id, s.rows[id], s.jobs, s.seen);
    QuietKeeps(s.instance, id, s.rows[id], row, actor, s.jobs, s.seen);
    RowChange(s, s.(rows := s.rows[id := row]), id, actor);
  }

  lemma HeartbeatKeeps(s: Sys, tok: string, now: nat, ttl: int)
    requires Inv(s) && tok in s.agents && s.agents[tok].task in s.rows
    ensures Inv(SetRow(s, s.agents[tok].task, Renew(s.rows[s.agents[tok].task], s.agents[tok].node, tok, now, ttl)))
  {
    hide Inv;
    InvAt(s, tok);
    var a := s.agents[tok];
    var result := Renew(s.rows[a.task], a.node, tok, now, ttl);
    if result.Some? {
      RenewStep(SubmissionKey(s.instance, a.task), s.rows[a.task], a.node, tok, now, ttl);
      QuietChange(s, a.task, result.value, tok);
    }
  }

  lemma NoOneIsTheEnvironment(s: Sys)
    requires Inv(s)
    ensures "" !in s.agents
  {
    if "" in s.agents {
      InvAt(s, "");
    }
  }

  /** The steps of the environment: claim, cancel, delete. */
  lemma EnvironmentKeeps(s: Sys, step: Step)
    requires Inv(s) && (step.ClaimNext? || step.CancelRequest? || step.AdminCancel? || step.Delete?)
    ensures Inv(Apply(s, step))
  {
    hide AgentsOk, LogOk, RowStep, Quiet, Claim, RequestCancel, AdminCancelCommit, SoftDelete, Admits;
    NoOneIsTheEnvironment(s);
    if step.id in s.rows {
      var key, row := SubmissionKey(s.instance, step.id), s.rows[step.id];
      assert RowInv(key, row);
      match step
      case ClaimNext(id, node, _, _, delivery, _) =>
        if ClaimEnabled(s, step) {
          ClaimStep(key, row, node, delivery);
          QuietChange(s, id, Claim(row, node, key, delivery), "");
        }
      case CancelRequest(id) =>
        if RequestCancel(row).Recorded? {
          RequestCancelStep(key, row);
          QuietChange(s, id, RequestCancel(row).row, "");
        }
      case AdminCancel(id) =>
        if AdminCancelCommit(row).Some? {
          AdminCancelStep(key, row);
          QuietChange(s, id, AdminCancelCommit(row).value, "");
        }
      case Delete(id) =>
        if SoftDelete(row).Some? {
          SoftDeleteStep(key, row);
          QuietChange(s, id, SoftDelete(row).value, "");
        }
    }
  }

  lemma AbandonKeeps(s: Sys, tok: string)
    requires Inv(s)
    ensures Inv(Apply(s, Abandon(tok)))
  {
    hide RunOk, Evolves, RowInv, SubmissionOk, CreatedOnce, DistinctJobs;
  }

  lemma EnqueueKeeps(s: Sys, id: string, model: string)
    requires Inv(s)
    ensures Inv(Apply(s, Enqueue(id, model)))
  {
    hide AgentOk, RunOk, CreatedOnce, DistinctJobs, SubmissionKey;
    var s' := Apply(s, Enqueue(id, model));
    forall tok | tok in s.agents ensures s'.rows[s.agents[tok].task] == s.rows[s.agents[tok].task] {
    }
    forall e | e in s.log ensures SubmissionOk(e, s'.rows, s'.jobs) {
      assert SubmissionOk(e, s.rows, s.jobs);
    }
  }

  lemma StepKeeps(s: Sys, step: Step)
    requires Inv(s)
    ensures Inv(Apply(s, step))
  {
    hide Inv, Work, Record, Renew, Acquire, SetRow;
    match step
    case Go(tok, w) => if tok in s.agents { InvAt(s, tok); GoKeeps(s, tok, w); }
    case Start(tok, id, node, now, ttl) =>
      if id in s.rows && tok !in s.agents
         && Acquire(s.rows[id], node, tok, now, ttl).Some? { StartKeeps(s, tok, id, node, now, ttl); }
    case Heartbeat(tok, now, ttl) => if tok in s.agents { InvAt(s, tok); HeartbeatKeeps(s, tok, now, ttl); }
    case Abandon(tok) => AbandonKeeps(s, tok);
    case Enqueue(id, model) => EnqueueKeeps(s, id, model);
    case _ => EnvironmentKeeps(s, step);
  }

  lemma {:induction false} ExecKeeps(s: Sys, steps: seq<Step>)
    requires Inv(s)
    ensures Inv(Exec(s, steps))
    decreases |steps|
  {
    if steps != [] {
      StepKeeps(s, steps[0]);
      ExecKeeps(Apply(s, steps[0]), steps[1..]);
    }
  }
}
