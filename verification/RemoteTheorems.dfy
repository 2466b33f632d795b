/** The promises of the tk2sd protocol, each over every run of the system. */
module RemoteTheorems {
  import opened Domain
  import opened RemoteRun
  import opened RemoteAgents
  import opened RemoteSafety

  lemma Reachable(instance: string, steps: seq<Step>)
    ensures Inv(Exec(Init(instance), steps))
  {
    ExecKeeps(Init(instance), steps);
  }

  /* ---------- One job per task ---------- */

  /** All Submits of a task say the same thing to the same node, and at most one of them makes a job. */
  lemma OneJobPerTask(instance: string, steps: seq<Step>, i: nat, j: nat)
    requires i < j < |Exec(Init(instance), steps).log|
    requires Exec(Init(instance), steps).log[i].task == Exec(Init(instance), steps).log[j].task
    ensures var log := Exec(Init(instance), steps).log;
            && log[i].node == log[j].node && log[i].key == log[j].key && log[i].body == log[j].body
            && !(log[i].created && log[j].created)
  {
    Reachable(instance, steps);
    var s := Exec(Init(instance), steps);
    assert SubmissionOk(s.log[i], s.rows, s.jobs) && SubmissionOk(s.log[j], s.rows, s.jobs);
  }

  /** A Submit goes out only under a durable intent, with the durable body and key. */
  lemma IntentPrecedesSubmit(instance: string, steps: seq<Step>, step: Step)
    requires var s := Exec(Init(instance), steps); Apply(s, step).log != s.log
    ensures var s := Exec(Init(instance), steps);
            var log := Apply(s, step).log;
            && |log| == |s.log| + 1 && log[..|s.log|] == s.log
            && var e := log[|s.log|];
            && e.task in s.rows && s.rows[e.task].run.Some?
            && var r := s.rows[e.task].run.value;
            && r.attempts > 0 && Rank(r.phase) >= Rank(SubmitIntent)
            && e.node == r.node && e.key == r.key == SubmissionKey(instance, e.task) && e.body == r.body
  {
    Reachable(instance, steps);
    var s := Exec(Init(instance), steps);
    ExecInstance(Init(instance), steps);
    SenderIs(s, step);
    InvAt(s, step.tok);
    SubmitLogged(s, step.tok, step.w);
    var e := Submit(s.rows[s.agents[step.tok].task], s.agents[step.tok], s.jobs, step.w.submit);
    assert SubmissionOk(e.sent.value, s.rows, e.jobs) by {
      assert e.sent.value in s.log + [e.sent.value];
    }
  }

  /** Only an agent that stands at the call sends, and it sends what Submit says. */
  lemma SenderIs(s: Sys, step: Step)
    requires Apply(s, step).log != s.log
    ensures step.Go? && step.tok in s.agents && s.agents[step.tok].task in s.rows && s.agents[step.tok].pc.Submitting?
    ensures var a := s.agents[step.tok];
            Apply(s, step) == Record(s, step.tok, Submit(s.rows[a.task], a, s.jobs, step.w.submit))
  {
  }

  lemma {:induction false} ExecInstance(s: Sys, steps: seq<Step>)
    ensures Exec(s, steps).instance == s.instance
    decreases |steps|
  {
    if steps != [] {
      ExecInstance(Apply(s, steps[0]), steps[1..]);
    }
  }

  /** Distinct tasks have distinct idempotency keys. */
  lemma KeysAreDistinct(instance: string, a: string, b: string)
    ensures SubmissionKey(instance, a) == SubmissionKey(instance, b) ==> a == b
  {
    var prefix := "proxy:" + instance + ":";
    assert SubmissionKey(instance, a)[|prefix|..] == a;
    assert SubmissionKey(instance, b)[|prefix|..] == b;
  }

  /** A bound upstream id is the id of the task's own job, so no two tasks of a node share one. */
  lemma BoundIdsAreDistinct(instance: string, steps: seq<Step>, a: string, b: string)
    requires var s := Exec(Init(instance), steps);
             && a in s.rows && b in s.rows && a != b && s.rows[a].run.Some? && s.rows[b].run.Some?
             && s.rows[a].run.value.upstream != "" && s.rows[a].run.value.node == s.rows[b].run.value.node
    ensures var s := Exec(Init(instance), steps);
            s.rows[a].run.value.upstream != s.rows[b].run.value.upstream
  {
    Reachable(instance, steps);
    ExecInstance(Init(instance), steps);
    KeysAreDistinct(instance, a, b);
    var s := Exec(Init(instance), steps);
    assert RowOk(instance, a, s.rows[a], s.jobs, s.seen) && RowOk(instance, b, s.rows[b], s.jobs, s.seen);
  }

  /* ---------- How a run moves ---------- */

  lemma SameRow(actor: string, key: string, row: Row)
    requires RowInv(key, row)
    ensures RowStep(actor, key, row, row)
  {
  }

  function ActorOf(step: Step): string {
    match step
    case Start(tok, _, _, _, _) => tok
    case Heartbeat(tok, _, _) => tok
    case Abandon(tok) => tok
    case Go(tok, _) => tok
    case _ => ""
  }

  /** Whatever the step, every row makes a step of its own protocol or none. */
  lemma EveryRowSteps(s: Sys, step: Step, id: string)
    requires Inv(s) && id in s.rows
    ensures id in Apply(s, step).rows
    ensures RowStep(ActorOf(step), SubmissionKey(s.instance, id), s.rows[id], Apply(s, step).rows[id])
  {
    hide AgentsOk, LogOk, AgentOk, RunOk, Work, RowStep, Claim, Acquire, Renew, RequestCancel, AdminCancelCommit,
      SoftDelete, Admits;
    var key, row := SubmissionKey(s.instance, id), s.rows[id];
    assert RowOk(s.instance, id, row, s.jobs, s.seen);
    SameRow(ActorOf(step), key, row);
    match step
    case ClaimNext(i, node, _, _, delivery, _) =>
      if i == id && ClaimEnabled(s, step) { ClaimStep(key, row, node, delivery); }
    case CancelRequest(i) => if i == id && RequestCancel(row).Recorded? { RequestCancelStep(key, row); }
    case AdminCancel(i) => if i == id && AdminCancelCommit(row).Some? { AdminCancelStep(key, row); }
    case Delete(i) => if i == id && SoftDelete(row).Some? { SoftDeleteStep(key, row); }
    case Start(tok, i, node, now, ttl) =>
      if i == id && Acquire(row, node, tok, now, ttl).Some? { AcquireStep(key, row, node, tok, now, ttl); }
    case Heartbeat(tok, now, ttl) =>
      if tok in s.agents && s.agents[tok].task == id && Renew(row, s.agents[tok].node, tok, now, ttl).Some? {
        RenewStep(key, row, s.agents[tok].node, tok, now, ttl);
      }
    case Go(tok, w) =>
      if tok in s.agents {
        InvAt(s, tok);
        AgentWork(s.instance, tok, s.rows[s.agents[tok].task], s.agents[tok], s.jobs, s.seen, w);
      }
    case _ =>
  }

  /** Phases climb, terminal runs stand still, bodies and upstream ids are written once. */
  lemma {:induction false} RunsEvolve(s: Sys, steps: seq<Step>, id: string)
    requires Inv(s) && id in s.rows
    ensures id in Exec(s, steps).rows && RowEvolves(s.rows[id], Exec(s, steps).rows[id])
    decreases |steps|
  {
    if steps != [] {
      var mid := Apply(s, steps[0]);
      EveryRowSteps(s, steps[0], id);
      StepKeeps(s, steps[0]);
      RunsEvolve(mid, steps[1..], id);
      EvolvesTransitive(s.rows[id], mid.rows[id], Exec(s, steps).rows[id]);
    }
  }

  /** The slot is taken exactly as long as the run is live. */
  lemma SlotMatchesRun(instance: string, steps: seq<Step>, id: string)
    requires id in Exec(Init(instance), steps).rows
    ensures var row := Exec(Init(instance), steps).rows[id];
            row.task.slot <==> row.run.Some? && row.run.value.phase != Terminal
  {
    Reachable(instance, steps);
    ExecInstance(Init(instance), steps);
    var s := Exec(Init(instance), steps);
    assert RowOk(instance, id, s.rows[id], s.jobs, s.seen);
  }

  /** The store transaction of an agent step, if that step has one. */
  function Transaction(row: Row, tok: string, a: Agent, w: World): Option<Row> {
    match a.pc
    case Saving(body) => Prepare(row, a.node, tok, w.now, body)
    case Beginning => Begin(row, a.node, tok, w.now)
    case Binding(id) => Bind(row, a.node, tok, w.now, id)
    case Observing(status, cancel) => Observe(row, a.node, tok, w.now, status, cancel)
    case Finishing(c) => Complete(row, a.node, tok, w.now, c)
    case Releasing(reconcile) => Release(row, a.node, tok, w.now, reconcile)
    case _ => None
  }

  lemma WorkIsTransaction(row: Row, tok: string, a: Agent, jobs: Jobs, w: World)
    ensures var t := Transaction(row, tok, a, w);
            Work(row, tok, a, jobs, w).row == (if t.Some? then t.value else row)
    ensures Work(row, tok, a, jobs, w).agent.task == a.task
  {
    hide Prepare, Begin, Bind, Observe, Complete, Release, CanCreate;
  }

  /** An agent whose token is no longer on the run cannot change any row. */
  lemma SupersededTokenIsPowerless(instance: string, steps: seq<Step>, step: Step)
    requires step.Go? || step.Heartbeat?
    requires var s := Exec(Init(instance), steps);
             && step.tok in s.agents && s.agents[step.tok].task in s.rows
             && var run := s.rows[s.agents[step.tok].task].run;
             run.Some? && run.value.token != step.tok
    ensures Apply(Exec(Init(instance), steps), step).rows == Exec(Init(instance), steps).rows
  {
    hide Exec;
    var s := Exec(Init(instance), steps);
    var a := s.agents[step.tok];
    if step.Go? {
      hide Work;
      WorkIsTransaction(s.rows[a.task], step.tok, a, s.jobs, step.w);
      assert Transaction(s.rows[a.task], step.tok, a, step.w).None?;
    }
  }

  /* ---------- Cancelling ---------- */

  /** Cancelled before any intent: nothing was sent yet. */
  predicate Doomed(row: Row) {
    row.run.Some? && row.run.value.attempts == 0 && row.run.value.cancel != NoCancel
  }

  lemma DoomedWork(key: string, row: Row, tok: string, a: Agent, jobs: Jobs, w: World)
    requires RowInv(key, row) && Doomed(row)
    ensures Doomed(Work(row, tok, a, jobs, w).row)
  {
    hide Work;
    WorkIsTransaction(row, tok, a, jobs, w);
  }

  lemma DoomedStep(s: Sys, step: Step, id: string)
    requires Inv(s) && id in s.rows && Doomed(s.rows[id])
    ensures id in Apply(s, step).rows && Doomed(Apply(s, step).rows[id])
  {
    hide AgentsOk, LogOk, AgentOk, RunOk, Work;
    assert RowOk(s.instance, id, s.rows[id], s.jobs, s.seen);
    if step.Go? && step.tok in s.agents {
      InvAt(s, step.tok);
      var a := s.agents[step.tok];
      WorkIsTransaction(s.rows[a.task], step.tok, a, s.jobs, step.w);
      if a.task == id {
        DoomedWork(SubmissionKey(s.instance, id), s.rows[id], step.tok, a, s.jobs, step.w);
      }
    }
  }

  lemma {:induction false} DoomedStays(s: Sys, steps: seq<Step>, id: string)
    requires Inv(s) && id in s.rows && Doomed(s.rows[id])
    ensures Inv(Exec(s, steps)) && id in Exec(s, steps).rows && Doomed(Exec(s, steps).rows[id])
    decreases |steps|
  {
    if steps != [] {
      DoomedStep(s, steps[0], id);
      StepKeeps(s, steps[0]);
      DoomedStays(Apply(s, steps[0]), steps[1..], id);
    }
  }

  /** A cancel recorded while the run is preparing or prepared: no Submit, before or ever after. */
  lemma EarlyCancelPreventsSubmit(instance: string, before: seq<Step>, after: seq<Step>, id: string)
    requires var s := Exec(Init(instance), before);
             && id in s.rows && s.rows[id].run.Some?
             && s.rows[id].run.value.cancel == Requested
             && (s.rows[id].run.value.phase == Preparing || s.rows[id].run.value.phase == Prepared)
    ensures forall e | e in Exec(Exec(Init(instance), before), after).log :: e.task != id
  {
    Reachable(instance, before);
    var s := Exec(Init(instance), before);
    assert RowOk(s.instance, id, s.rows[id], s.jobs, s.seen);
    DoomedStays(s, after, id);
    var s' := Exec(s, after);
    forall e | e in s'.log ensures e.task != id {
      assert SubmissionOk(e, s'.rows, s'.jobs);
    }
  }

  /** A recorded request is there until the run ends or the upstream has reported it running. */
  lemma RequestIsNeverLost(instance: string, before: seq<Step>, after: seq<Step>, id: string)
    requires var s := Exec(Init(instance), before);
             id in s.rows && s.rows[id].run.Some? && s.rows[id].run.value.cancel == Requested
    ensures var s' := Exec(Exec(Init(instance), before), after);
            && id in s'.rows && s'.rows[id].run.Some?
            && var r := s'.rows[id].run.value;
            r.phase == Terminal || r.cancel == Requested || (r.cancel == Rejected && id in s'.seen)
  {
    hide Exec;
    Reachable(instance, before);
    var s := Exec(Init(instance), before);
    RunsEvolve(s, after, id);
    ExecKeeps(s, after);
    var s' := Exec(s, after);
    assert RowOk(s'.instance, id, s'.rows[id], s'.jobs, s'.seen);
  }

  /** Request and task status agree. */
  predicate Coupled(row: Row) {
    row.run.Some? && row.run.value.phase != Terminal ==>
      (row.run.value.cancel == Requested <==> row.task.status == Cancelling)
  }

  predicate AllCoupled(s: Sys) {
    forall id | id in s.rows :: Coupled(s.rows[id])
  }

  /** The administrator's second look at the slot, which the code does not take. */
  predicate SlotFree(s: Sys, step: Step) {
    step.AdminCancel? && step.id in s.rows ==>
      !(s.rows[step.id].task.slot
        && (s.rows[step.id].task.status == Dispatching || s.rows[step.id].task.status == Running))
  }

  lemma WorkCoupled(row: Row, tok: string, a: Agent, jobs: Jobs, w: World)
    requires Coupled(row)
    ensures Coupled(Work(row, tok, a, jobs, w).row)
    ensures Work(row, tok, a, jobs, w).agent.task == a.task
  {
    hide Work;
    WorkIsTransaction(row, tok, a, jobs, w);
  }

  lemma AdminCoupled(key: string, row: Row)
    requires RowInv(key, row) && Coupled(row) && AdminCancelCommit(row).Some?
    ensures Coupled(AdminCancelCommit(row).value) <==>
            !(row.task.slot && (row.task.status == Dispatching || row.task.status == Running))
  {
  }

  /** One step keeps the agreement exactly when it is not an administrator's cancel that meets a taken slot. */
  lemma CouplingStep(s: Sys, step: Step)
    requires Inv(s) && AllCoupled(s)
    ensures AllCoupled(Apply(s, step)) <==> SlotFree(s, step)
  {
    hide AgentsOk, LogOk, AgentOk, RunOk, Work, Admits;
    if step.Go? && step.tok in s.agents {
      InvAt(s, step.tok);
      var a := s.agents[step.tok];
      WorkCoupled(s.rows[a.task], step.tok, a, s.jobs, step.w);
    } else if step.AdminCancel? && step.id in s.rows {
      assert RowOk(s.instance, step.id, s.rows[step.id], s.jobs, s.seen);
      assert Coupled(s.rows[step.id]);
      if AdminCancelCommit(s.rows[step.id]).Some? {
        AdminCoupled(SubmissionKey(s.instance, step.id), s.rows[step.id]);
        assert Apply(s, step).rows[step.id] == AdminCancelCommit(s.rows[step.id]).value;
      }
    }
  }

  predicate AlwaysSlotFree(s: Sys, steps: seq<Step>)
    decreases |steps|
  {
    steps == [] || (SlotFree(s, steps[0]) && AlwaysSlotFree(Apply(s, steps[0]), steps[1..]))
  }

  /** Over whole runs: with the second look, "requested" and "cancelling" always go together. */
  lemma {:induction false} CouplingHolds(s: Sys, steps: seq<Step>)
    requires Inv(s) && AllCoupled(s) && AlwaysSlotFree(s, steps)
    ensures AllCoupled(Exec(s, steps))
    decreases |steps|
  {
    if steps != [] {
      CouplingStep(s, steps[0]);
      StepKeeps(s, steps[0]);
      CouplingHolds(Apply(s, steps[0]), steps[1..]);
    }
  }

  /* ---------- Rejections and reconciliation ---------- */

  /** A run that ended as rejected was submitted exactly once and holds no upstream id. */
  lemma RejectedMeansOneAttempt(instance: string, steps: seq<Step>, id: string)
    requires id in Exec(Init(instance), steps).rows
    requires Exec(Init(instance), steps).rows[id].task.error == SubmitRejected
    ensures var row := Exec(Init(instance), steps).rows[id];
            && row.run.Some? && row.run.value.phase == Terminal
            && row.run.value.attempts == 1 && row.run.value.upstream == ""
  {
    hide Exec;
    Reachable(instance, steps);
    var s := Exec(Init(instance), steps);
    assert RowOk(s.instance, id, s.rows[id], s.jobs, s.seen);
  }

  predicate GivesUp(pc: Pc) {
    pc.Releasing? || pc.Done?
  }

  /** A 409, or any refusal of a replay; the agent's own copy tells it whether this is one. */
  predicate Refused(a: Agent, w: World) {
    w.submit.Conflict409? || (w.submit.Refused4xx? && a.local.attempts > 0)
  }

  /** Exactly such an answer makes the agent ask for reconciliation, and no answer changes a row. */
  lemma RefusalParks(s: Sys, tok: string, w: World)
    requires tok in s.agents && s.agents[tok].task in s.rows && s.agents[tok].pc.Submitting?
    ensures var s' := Apply(s, Go(tok, w));
            && s'.rows == s.rows && tok in s'.agents
            && (s'.agents[tok].pc == Releasing(true) <==> Refused(s.agents[tok], w))
  {
    hide CanCreate;
  }

  /** Every run keeps the phase it has. */
  predicate SamePhases(s: Sys, s': Sys) {
    forall id | id in s.rows && s.rows[id].run.Some? ::
      && id in s'.rows && s'.rows[id].run.Some?
      && s'.rows[id].run.value.phase == s.rows[id].run.value.phase
  }

  /** An agent on its way out stays there and never moves a run to another phase. */
  lemma GivingUpStays(s: Sys, step: Step, tok: string)
    requires tok in s.agents && GivesUp(s.agents[tok].pc)
    ensures tok in Apply(s, step).agents && GivesUp(Apply(s, step).agents[tok].pc)
    ensures step.Go? && step.tok == tok ==> SamePhases(s, Apply(s, step))
  {
    hide Submit, Judge, Prepare, Begin, Bind, Observe, Complete, Claim, ClaimEnabled, RequestCancel, AdminCancelCommit,
      SoftDelete;
  }

  lemma {:induction false} GivingUpLasts(s: Sys, steps: seq<Step>, tok: string)
    requires tok in s.agents && GivesUp(s.agents[tok].pc)
    ensures tok in Exec(s, steps).agents && GivesUp(Exec(s, steps).agents[tok].pc)
    decreases |steps|
  {
    hide Apply;
    if steps != [] {
      GivingUpStays(s, steps[0], tok);
      GivingUpLasts(Apply(s, steps[0]), steps[1..], tok);
    }
  }

  /**
   In every run: once an agent's Submit was answered with 409, or its replay with any 4xx, that
   agent never moves a run to another phase, whatever happens in between and later.
   */
  lemma RefusedReplayNeverTerminates(
    instance: string, before: seq<Step>, tok: string, w: World, between: seq<Step>, w': World)
    requires var s := Exec(Init(instance), before);
             tok in s.agents && s.agents[tok].pc.Submitting? && Refused(s.agents[tok], w)
    ensures var s := Exec(Init(instance), before);
            var s' := Apply(s, Go(tok, w));
            var s'' := Exec(s', between);
            s'.rows == s.rows && tok in s''.agents && SamePhases(s'', Apply(s'', Go(tok, w')))
  {
    hide Exec, Apply, Inv, SamePhases, Refused;
    Reachable(instance, before);
    var s := Exec(Init(instance), before);
    InvAt(s, tok);
    RefusalParks(s, tok, w);
    GivingUpLasts(Apply(s, Go(tok, w)), between, tok);
    GivingUpStays(Exec(Apply(s, Go(tok, w)), between), Go(tok, w'), tok);
  }

  /** A stored reconciliation mark ends the granting of leases and the counting of attempts, for ever. */
  lemma ReconciliationIsFinal(instance: string, before: seq<Step>, after: seq<Step>, id: string)
    requires var s := Exec(Init(instance), before);
             id in s.rows && s.rows[id].run.Some? && s.rows[id].run.value.reconcile
    ensures var s := Exec(Init(instance), before);
            var s' := Exec(s, after);
            && id in s'.rows && s'.rows[id].run.Some?
            && s'.rows[id].run.value.reconcile && s'.rows[id].run.value.token == ""
            && s'.rows[id].run.value.attempts == s.rows[id].run.value.attempts
  {
    hide Exec;
    Reachable(instance, before);
    RunsEvolve(Exec(Init(instance), before), after, id);
  }

  /** The agents of a task that stand between the stored intent and the call. */
  function Pending(s: Sys, id: string): set<string> {
    set tok | tok in s.agents && s.agents[tok].task == id && s.agents[tok].pc.Submitting?
  }

  /** No lease can be granted on the run any more. */
  predicate Parked(row: Row) {
    row.run.Some? && (row.run.value.reconcile || row.run.value.phase == Terminal)
  }

  function SubmitsOf(log: seq<Submission>, id: string): nat {
    if log == [] then 0 else SubmitsOf(log[..|log| - 1], id) + if log[|log| - 1].task == id then 1 else 0
  }

  /* ---------- Every call is on the books ---------- */

  /** The attempts stored for a task. */
  function AttemptsOf(s: Sys, id: string): nat {
    if id in s.rows && s.rows[id].run.Some? then s.rows[id].run.value.attempts else 0
  }

  /** Calls made and calls that may still be made. */
  function Calls(s: Sys, id: string): nat {
    SubmitsOf(s.log, id) + |Pending(s, id)|
  }

  lemma SubmitGoesOn(row: Row, a: Agent, jobs: Jobs, answer: SubmitAnswer)
    ensures !Submit(row, a, jobs, answer).agent.pc.Submitting?
  {
    hide CanCreate;
  }

  lemma JudgeGoesOn(row: Row, a: Agent, jobs: Jobs, answer: Upstream, w: World)
    ensures !Judge(row, a, jobs, answer, w).agent.pc.Submitting?
  {
  }

  /** An agent comes before the call only by storing one more attempt. */
  lemma BeginCounts(row: Row, tok: string, a: Agent, jobs: Jobs, w: World)
    requires Work(row, tok, a, jobs, w).agent.pc.Submitting?
    ensures var row' := Work(row, tok, a, jobs, w).row;
            && a.pc.Beginning? && row.run.Some? && row'.run.Some?
            && row'.run.value.attempts == row.run.value.attempts + 1
  {
    hide Prepare, Bind, Observe, Complete, Release, Submit, Judge, EvidenceOk, Holds;
    SubmitGoesOn(row, a, jobs, w.submit);
    if a.pc.Judging? {
      JudgeGoesOn(row, a, jobs, a.pc.answer, w);
    }
  }

  lemma BegunIsPending(s: Sys, tok: string, e: Effect)
    requires tok in s.agents && e.sent.None?
    ensures Calls(Record(s, tok, e), e.agent.task) <= Calls(s, e.agent.task) + 1
  {
    var id := e.agent.task;
    assert Pending(Record(s, tok, e), id) <= Pending(s, id) + {tok};
    SubsetSize(Pending(Record(s, tok, e), id), Pending(s, id) + {tok});
  }

  lemma CallsOfAnAgent(s: Sys, tok: string, w: World, id: string)
    requires Inv(s) && tok in s.agents && id in s.rows
    ensures var s' := Apply(s, Go(tok, w)); Calls(s', id) + AttemptsOf(s, id) <= Calls(s, id) + AttemptsOf(s', id)
  {
    hide Inv, RowOk, AgentOk, Work, SubmitsOf, Pending, RowInv;
    InvAt(s, tok);
    var a := s.agents[tok];
    var e := Work(s.rows[a.task], tok, a, s.jobs, w);
    WorkIsTransaction(s.rows[a.task], tok, a, s.jobs, w);
    OnlySubmittingSends(s.rows[a.task], tok, a, s.jobs, w);
    EveryRowSteps(s, Go(tok, w), id);
    if e.agent.pc.Submitting? {
      BeginCounts(s.rows[a.task], tok, a, s.jobs, w);
    }
    if e.agent.pc.Submitting? && a.task == id {
      BegunIsPending(s, tok, e);
    } else {
      PendingAfter(s, tok, e, id);
    }
  }

  /** Without an agent's work nobody comes before the call. */
  lemma CallsOfOthers(s: Sys, step: Step, id: string)
    requires !step.Go? || step.tok !in s.agents
    ensures Calls(Apply(s, step), id) <= Calls(s, id)
  {
    hide Claim, ClaimEnabled, Acquire, Renew, RequestCancel, AdminCancelCommit, SoftDelete, SubmitsOf;
    assert Pending(Apply(s, step), id) <= Pending(s, id);
    SubsetSize(Pending(Apply(s, step), id), Pending(s, id));
  }

  lemma CallsStep(s: Sys, step: Step, id: string)
    requires Inv(s) && Calls(s, id) <= AttemptsOf(s, id)
    ensures Calls(Apply(s, step), id) <= AttemptsOf(Apply(s, step), id)
  {
    hide Inv, Apply, Calls, RowInv;
    if step.Go? && step.tok in s.agents {
      if id in s.rows {
        CallsOfAnAgent(s, step.tok, step.w, id);
      } else {
        NoRowNoCalls(s, step, id);
      }
    } else {
      CallsOfOthers(s, step, id);
      if id in s.rows {
        EveryRowSteps(s, step, id);
      }
    }
  }

  lemma NoRowNoCalls(s: Sys, step: Step, id: string)
    requires Inv(s) && step.Go? && step.tok in s.agents && id !in s.rows
    ensures Calls(Apply(s, step), id) <= Calls(s, id)
  {
    hide Inv, RowOk, AgentOk, Work, SubmitsOf, Pending;
    InvAt(s, step.tok);
    var a := s.agents[step.tok];
    WorkIsTransaction(s.rows[a.task], step.tok, a, s.jobs, step.w);
    OnlySubmittingSends(s.rows[a.task], step.tok, a, s.jobs, step.w);
    if Work(s.rows[a.task], step.tok, a, s.jobs, step.w).agent.pc.Submitting? {
      BeginCounts(s.rows[a.task], step.tok, a, s.jobs, step.w);
    }
    PendingAfter(s, step.tok, Work(s.rows[a.task], step.tok, a, s.jobs, step.w), id);
  }

  lemma {:induction false} CallsInRun(s: Sys, steps: seq<Step>, id: string)
    requires Inv(s) && Calls(s, id) <= AttemptsOf(s, id)
    ensures Calls(Exec(s, steps), id) <= AttemptsOf(Exec(s, steps), id)
    decreases |steps|
  {
    hide Inv, Apply, Calls, AttemptsOf;
    if steps != [] {
      CallsStep(s, steps[0], id);
      StepKeeps(s, steps[0]);
      CallsInRun(Apply(s, steps[0]), steps[1..], id);
    }
  }

  /** In every reachable state the stored attempts cover every Submit made and every one still pending. */
  lemma AttemptsCoverSubmits(instance: string, steps: seq<Step>, id: string)
    ensures var s := Exec(Init(instance), steps);
            SubmitsOf(s.log, id) + |Pending(s, id)| <= AttemptsOf(s, id)
  {
    hide Exec, Apply;
    Reachable(instance, []);
    assert Exec(Init(instance), []) == Init(instance) by { NoSteps(Init(instance)); }
    assert Pending(Init(instance), id) == {};
    CallsInRun(Init(instance), steps, id);
  }

  lemma NoSteps(s: Sys)
    ensures Exec(s, []) == s
  {
  }

  /* ---------- Calls on a parked run ---------- */

  /** Nobody reaches the call on a parked run: that takes a stored intent, hence a lease. */
  lemma ParkedWork(key: string, row: Row, tok: string, a: Agent, jobs: Jobs, w: World)
    requires RowInv(key, row) && Parked(row)
    ensures !Work(row, tok, a, jobs, w).agent.pc.Submitting?
  {
    hide Prepare, Bind, Observe, Complete, Release, CanCreate;
  }

  /** What one agent's step on a task that is not sent leaves of the pending calls, and what a call takes from them. */
  lemma PendingAfter(s: Sys, tok: string, e: Effect, id: string)
    requires tok in s.agents && e.agent.task == s.agents[tok].task
    requires e.agent.task == id ==> !e.agent.pc.Submitting?
    requires e.sent.Some? <==> s.agents[tok].pc.Submitting?
    requires e.sent.Some? ==> e.sent.value.task == s.agents[tok].task
    requires e.agent.pc.Submitting? && s.agents[tok].pc.Submitting? ==> e.agent.task != id
    ensures var s' := Record(s, tok, e);
            SubmitsOf(s'.log, id) + |Pending(s', id)| <= SubmitsOf(s.log, id) + |Pending(s, id)|
  {
    var s' := Record(s, tok, e);
    if e.agent.task == id {
      assert Pending(s', id) == Pending(s, id) - {tok};
    } else {
      assert Pending(s', id) == Pending(s, id);
    }
    if e.sent.Some? {
      assert s'.log[..|s.log|] == s.log;
    }
  }

  lemma ParkedGo(s: Sys, tok: string, w: World, id: string)
    requires Inv(s) && id in s.rows && Parked(s.rows[id]) && tok in s.agents
    ensures var s' := Apply(s, Go(tok, w));
            SubmitsOf(s'.log, id) + |Pending(s', id)| <= SubmitsOf(s.log, id) + |Pending(s, id)|
  {
    hide Inv, RowInv, AgentOk, Work, Record, Parked, SubmitsOf, Pending;
    InvAt(s, tok);
    var a := s.agents[tok];
    var row := s.rows[a.task];
    WorkIsTransaction(row, tok, a, s.jobs, w);
    OnlySubmittingSends(row, tok, a, s.jobs, w);
    if a.task == id {
      ParkedWork(SubmissionKey(s.instance, id), row, tok, a, s.jobs, w);
    }
    PendingAfter(s, tok, Work(row, tok, a, s.jobs, w), id);
  }

  /** On a parked run the pending calls can only be used up, one by each Submit. */
  lemma ParkedStep(s: Sys, step: Step, id: string)
    requires Inv(s) && id in s.rows && Parked(s.rows[id])
    ensures id in Apply(s, step).rows && Parked(Apply(s, step).rows[id])
    ensures SubmitsOf(Apply(s, step).log, id) + |Pending(Apply(s, step), id)| <= SubmitsOf(s.log, id) + |Pending(s, id)|
  {
    hide Inv, Work, Record, Claim, ClaimEnabled, Acquire, Renew, RequestCancel, AdminCancelCommit, SoftDelete, RowStep,
      Parked;
    EveryRowSteps(s, step, id);
    ParkedEvolves(ActorOf(step), SubmissionKey(s.instance, id), s.rows[id], Apply(s, step).rows[id]);
    if step.Go? && step.tok in s.agents {
      ParkedGo(s, step.tok, step.w, id);
    } else {
      var s' := Apply(s, step);
      assert Pending(s', id) <= Pending(s, id);
      SubsetSize(Pending(s', id), Pending(s, id));
    }
  }

  lemma ParkedEvolves(actor: string, key: string, a: Row, b: Row)
    requires RowStep(actor, key, a, b) && Parked(a)
    ensures Parked(b)
  {
  }

  /** Every Submit after a run was parked belongs to an agent that was already past its intent. */
  lemma {:induction false} ParkedSubmitsAreBounded(s: Sys, steps: seq<Step>, id: string)
    requires Inv(s) && id in s.rows && Parked(s.rows[id])
    ensures SubmitsOf(Exec(s, steps).log, id) <= SubmitsOf(s.log, id) + |Pending(s, id)|
    decreases |steps|
  {
    hide Inv, Parked, Apply;
    if steps != [] {
      ParkedStep(s, steps[0], id);
      StepKeeps(s, steps[0]);
      ParkedSubmitsAreBounded(Apply(s, steps[0]), steps[1..], id);
    }
  }

  /** The exact condition: no further Submit, whatever happens, if and only if no call was pending. */
  lemma ParkedSubmitsExactly(s: Sys, id: string)
    requires Inv(s) && id in s.rows && Parked(s.rows[id])
    ensures (forall steps :: SubmitsOf(Exec(s, steps).log, id) <= SubmitsOf(s.log, id)) <==> Pending(s, id) == {}
  {
    hide Inv, Parked, Apply;
    if Pending(s, id) == {} {
      forall steps ensures SubmitsOf(Exec(s, steps).log, id) <= SubmitsOf(s.log, id) {
        ParkedSubmitsAreBounded(s, steps, id);
      }
    } else {
      var tok :| tok in Pending(s, id);
      var step := Go(tok, World(0, BadInput, Unreachable, QueryFailed, CancelFailed, QueryFailed, ""));
      PendingSends(s, step, id);
      assert Exec(s, [step]) == Apply(s, step);
    }
  }

  lemma PendingSends(s: Sys, step: Step, id: string)
    requires Inv(s) && step.Go? && step.tok in Pending(s, id)
    ensures SubmitsOf(Apply(s, step).log, id) == SubmitsOf(s.log, id) + 1
  {
    hide Inv, RowOk, AgentOk, CanCreate;
    InvAt(s, step.tok);
    assert Apply(s, step).log[..|s.log|] == s.log;
  }

  /** The evidence re-check before a Submit never fails: what was frozen is what is read back. */
  lemma EvidenceAlwaysChecks(instance: string, steps: seq<Step>, tok: string)
    requires var s := Exec(Init(instance), steps);
             && tok in s.agents && s.agents[tok].task in s.rows && s.agents[tok].pc.Checking?
             && (s.agents[tok].local.phase == Prepared || s.agents[tok].local.phase == SubmitIntent)
    ensures var s := Exec(Init(instance), steps);
            EvidenceOk(s.agents[tok].local, s.rows[s.agents[tok].task].task.model)
  {
    hide Exec;
    Reachable(instance, steps);
    InvAt(Exec(Init(instance), steps), tok);
  }
}
