/**
 The holder of a lease works on an exact copy of the run, so its transactions go through: in every
 reachable state each of them commits exactly under the lease, unless a cancel came first.
 */
module RemoteProgress {
  import opened Domain
  import opened RemoteRun
  import opened RemoteAgents
  import opened RemoteSafety
  import opened RemoteTheorems
  import opened RemoteLeases

  /* ---------- The holder's copy ---------- */

  /** Where the agent stands fits the phase it has read. */
  predicate PhaseFits(a: Agent) {
    match a.pc
    case Materialising => a.local.phase == Preparing
    case Saving(_) => a.local.phase == Preparing
    case Beginning => a.local.phase == Prepared || a.local.phase == SubmitIntent
    case Binding(id) => id != ""
    case Rereading(_) => a.local.phase == Submitted
    case Judging(_) => a.local.phase == Submitted && a.local.cancel != Confirmed
    case Observing(status, cancel) =>
      a.local.phase == Submitted && (status == UQueued || status == URunning) && cancel != Confirmed
    case _ => true
  }

  /** The run as the agent read it, but for a cancel and for heartbeats. */
  predicate AsRead(l: Run, r: Run) {
    r == l.(cancel := r.cancel, expires := r.expires)
  }

  predicate AsBegun(l: Run, r: Run) {
    r == l.(phase := SubmitIntent, attempts := l.attempts + 1, cancel := r.cancel, expires := r.expires)
  }

  predicate Mirrors(a: Agent, r: Run) {
    match a.pc
    case Submitting => AsBegun(a.local, r)
    case Binding(_) => AsBegun(a.local, r)
    case Reloading(bound) => r.phase == if bound then Submitted else Prepared
    case Finishing(_) => AsRead(a.local, r) || AsBegun(a.local, r)
    case Releasing(_) => true
    case Done => true
    case _ => AsRead(a.local, r)
  }

  predicate Faithful(s: Sys, tok: string) {
    && tok in s.agents && s.agents[tok].task in s.rows
    && Fits(s.agents[tok], s.rows[s.agents[tok].task], tok)
  }

  predicate AllFaithful(s: Sys) {
    Named(s.jobs) && forall tok | tok in s.agents :: Faithful(s, tok)
  }

  /* ---------- It stays exact ---------- */

  predicate HasTransaction(pc: Pc) {
    pc.Saving? || pc.Beginning? || pc.Binding? || pc.Observing? || pc.Finishing? || pc.Releasing?
  }

  /** The upstream's ids are not empty. */
  predicate Named(jobs: Jobs) {
    forall k | k in jobs :: jobs[k] != ""
  }

  predicate Fits(a: Agent, row: Row, tok: string) {
    PhaseFits(a) && row.run.Some? && (row.run.value.token == tok ==> Mirrors(a, row.run.value))
  }

  lemma SubmitFits(row: Row, tok: string, a: Agent, jobs: Jobs, w: World)
    requires Fits(a, row, tok) && a.pc.Submitting? && Named(jobs)
    ensures Fits(Submit(row, a, jobs, w.submit).agent, row, tok) && Named(Submit(row, a, jobs, w.submit).jobs)
  {
  }

  lemma JudgeFits(row: Row, tok: string, a: Agent, jobs: Jobs, w: World)
    requires Fits(a, row, tok) && a.pc.Judging?
    ensures Fits(Judge(row, a, jobs, a.pc.answer, w).agent, row, tok)
  {
  }

  lemma ThinksFits(row: Row, tok: string, a: Agent, jobs: Jobs, w: World)
    requires Fits(a, row, tok) && !HasTransaction(a.pc) && !a.pc.Submitting? && !a.pc.Judging?
    requires row.run.value.token == tok ==> row.run.value.cancel != Confirmed
    ensures var e := Work(row, tok, a, jobs, w); e.row == row && Fits(e.agent, row, tok)
  {
    hide Submit, Judge, EvidenceOk, Prepare, Begin, Bind, Observe, Complete, Release;
  }

  lemma TransactsFits(instance: string, row: Row, tok: string, a: Agent, jobs: Jobs, seen: set<string>, w: World)
    requires RowOk(instance, a.task, row, jobs, seen) && AgentOk(instance, tok, a, row, jobs, seen)
    requires Fits(a, row, tok) && HasTransaction(a.pc)
    ensures var e := Work(row, tok, a, jobs, w); Fits(e.agent, e.row, tok)
  {
    hide Submit, Judge, Reload, SubmissionKey, EvidenceOk, PcOk;
  }

  /** A run that somebody holds has not been cancelled. */
  lemma Unconfirmed(instance: string, row: Row, tok: string, a: Agent, jobs: Jobs, seen: set<string>)
    requires RowOk(instance, a.task, row, jobs, seen) && AgentOk(instance, tok, a, row, jobs, seen)
    ensures row.run.Some? && (row.run.value.token == tok ==> row.run.value.cancel != Confirmed)
  {
  }

  lemma WorkMirrors(instance: string, row: Row, tok: string, a: Agent, jobs: Jobs, seen: set<string>, w: World)
    requires RowOk(instance, a.task, row, jobs, seen) && AgentOk(instance, tok, a, row, jobs, seen)
    requires Fits(a, row, tok) && Named(jobs)
    ensures var e := Work(row, tok, a, jobs, w); Fits(e.agent, e.row, tok) && Named(e.jobs)
  {
    hide Fits, RowOk, AgentOk, Work;
    OnlySubmittingSends(row, tok, a, jobs, w);
    if HasTransaction(a.pc) {
      TransactsFits(instance, row, tok, a, jobs, seen, w);
    } else if a.pc.Submitting? {
      SubmitFits(row, tok, a, jobs, w);
    } else if a.pc.Judging? {
      JudgeFits(row, tok, a, jobs, w);
      JudgeIsWork(row, tok, a, jobs, w);
    } else {
      Unconfirmed(instance, row, tok, a, jobs, seen);
      ThinksFits(row, tok, a, jobs, w);
    }
  }

  lemma JudgeIsWork(row: Row, tok: string, a: Agent, jobs: Jobs, w: World)
    requires a.pc.Judging?
    ensures Work(row, tok, a, jobs, w) == Judge(row, a, jobs, a.pc.answer, w)
            && Judge(row, a, jobs, a.pc.answer, w).row == row
  {
  }

  /** A change of the cancel state or of the expiry does not matter. */
  lemma StillMirrors(a: Agent, r: Run, r': Run)
    requires Mirrors(a, r) && r' == r.(cancel := r'.cancel, expires := r'.expires)
    ensures Mirrors(a, r')
  {
  }

  /** A run that is somebody's after a step of another was theirs before, and is the same but for a cancel. */
  lemma KeptByOthers(s: Sys, step: Step, id: string, tok: string)
    requires Inv(s) && id in s.rows && s.rows[id].run.Some? && tok in s.agents && tok != "" && ActorOf(step) != tok
    requires Held(Apply(s, step), id) && Apply(s, step).rows[id].run.value.token == tok
    ensures var r, r' := s.rows[id].run.value, Apply(s, step).rows[id].run.value;
            r.token == tok && r' == r.(cancel := r'.cancel)
  {
    hide Inv, Work, ClaimEnabled, RowInv, Evolves;
    EveryRowSteps(s, step, id);
    if step.Start? {
      StartGives(s, step, id);
    } else {
      hide Apply;
      LeaseExcludesStep(s, step, id);
    }
  }

  lemma StartGives(s: Sys, step: Step, id: string)
    requires step.Start? && id in s.rows && s.rows[id].run.Some?
    ensures var s' := Apply(s, step);
            && id in s'.rows && s'.rows[id].run.Some?
            && (s'.rows[id] == s.rows[id] || s'.rows[id].run.value.token == step.tok)
  {
  }

  lemma OthersMirror(s: Sys, step: Step, tok: string)
    requires Inv(s) && tok in s.agents && Faithful(s, tok) && !(step.Go? && step.tok == tok)
    requires tok in Apply(s, step).agents
    ensures Faithful(Apply(s, step), tok)
  {
    hide Inv, PhaseFits, Mirrors, Apply, RowOk, AgentOk;
    var s', id := Apply(s, step), s.agents[tok].task;
    HasLease(s, tok);
    SameAgent(s, step, tok);
    EveryRowSteps(s, step, id);
    if Held(s', id) && s'.rows[id].run.value.token == tok {
      if ActorOf(step) == tok {
        OwnHeartbeat(s, step, tok);
      } else {
        KeptByOthers(s, step, id, tok);
      }
      StillMirrors(s.agents[tok], s.rows[id].run.value, s'.rows[id].run.value);
    }
    Left(s.agents[tok], s'.agents[tok], s'.rows[id]);
  }

  lemma HasLease(s: Sys, tok: string)
    requires Inv(s) && tok in s.agents
    ensures tok != "" && s.agents[tok].task in s.rows && s.rows[s.agents[tok].task].run.Some?
  {
    hide Inv;
    InvAt(s, tok);
  }

  lemma SameAgent(s: Sys, step: Step, tok: string)
    requires tok in s.agents && tok in Apply(s, step).agents && !(step.Go? && step.tok == tok)
    ensures var a, a' := s.agents[tok], Apply(s, step).agents[tok]; a' == a || a' == a.(pc := Releasing(false))
  {
    hide Work, ClaimEnabled, Claim, Acquire, Renew, RequestCancel, AdminCancelCommit, SoftDelete;
  }

  lemma Left(a: Agent, a': Agent, row: Row)
    requires a' == a || a' == a.(pc := Releasing(false))
    ensures PhaseFits(a) ==> PhaseFits(a')
    ensures row.run.Some? && Mirrors(a, row.run.value) ==> Mirrors(a', row.run.value)
  {
  }

  lemma OwnHeartbeat(s: Sys, step: Step, tok: string)
    requires Inv(s) && tok in s.agents && ActorOf(step) == tok && !step.Go?
    requires s.agents[tok].task in s.rows && s.rows[s.agents[tok].task].run.Some?
    ensures var id := s.agents[tok].task;
            && id in Apply(s, step).rows && Apply(s, step).rows[id].run.Some?
            && var r, r' := s.rows[id].run.value, Apply(s, step).rows[id].run.value;
            r' == r.(expires := r'.expires)
  {
    hide Inv, Work, ClaimEnabled;
    if tok == "" {
      InvAt(s, tok);
    }
  }

  lemma FaithfulStep(s: Sys, step: Step)
    requires Inv(s) && AllFaithful(s)
    ensures AllFaithful(Apply(s, step))
  {
    hide Inv, Faithful, Apply, RowOk, AgentOk, Named;
    if step.Go? && step.tok in s.agents {
      GoIsFaithful(s, step);
    } else {
      SameJobs(s, step);
    }
    forall tok | tok in Apply(s, step).agents ensures Faithful(Apply(s, step), tok) {
      if tok !in s.agents {
        NewIsFaithful(s, step, tok);
      } else if !(step.Go? && step.tok == tok) {
        OthersMirror(s, step, tok);
      }
    }
  }

  lemma SameJobs(s: Sys, step: Step)
    requires !step.Go? || step.tok !in s.agents
    ensures Apply(s, step).jobs == s.jobs
  {
    hide Work, ClaimEnabled;
  }

  lemma NewIsFaithful(s: Sys, step: Step, tok: string)
    requires tok !in s.agents && tok in Apply(s, step).agents
    ensures Faithful(Apply(s, step), tok)
  {
    hide Work, ClaimEnabled;
  }

  lemma GoIsFaithful(s: Sys, step: Step)
    requires Inv(s) && step.Go? && step.tok in s.agents && Faithful(s, step.tok) && Named(s.jobs)
    ensures Faithful(Apply(s, step), step.tok) && Named(Apply(s, step).jobs)
  {
    hide Inv, Work, Mirrors, PhaseFits, RowOk, AgentOk;
    InvAt(s, step.tok);
    HasLease(s, step.tok);
    var a := s.agents[step.tok];
    WorkIsTransaction(s.rows[a.task], step.tok, a, s.jobs, step.w);
    WorkMirrors(s.instance, s.rows[a.task], step.tok, a, s.jobs, s.seen, step.w);
  }

  lemma {:induction false} FaithfulRun(s: Sys, steps: seq<Step>)
    requires Inv(s) && AllFaithful(s)
    ensures AllFaithful(Exec(s, steps))
    decreases |steps|
  {
    hide Inv, AllFaithful, Apply;
    if steps != [] {
      FaithfulStep(s, steps[0]);
      StepKeeps(s, steps[0]);
      FaithfulRun(Apply(s, steps[0]), steps[1..]);
    }
  }

  lemma ReachableFaithful(instance: string, steps: seq<Step>)
    ensures AllFaithful(Exec(Init(instance), steps))
  {
    hide Apply, Exec;
    Reachable(instance, []);
    assert Exec(Init(instance), []) == Init(instance) by { NoSteps(Init(instance)); }
    FaithfulRun(Init(instance), steps);
  }

  /* ---------- So it gets through ---------- */

  /** The transaction at this point of the program, on the run; `None` where a cancel that came first refuses it. */
  function Intended(pc: Pc, r: Run): Option<Run> {
    match pc
    case Saving(body) =>
      if r.cancel != NoCancel then None else Some(r.(phase := Prepared, body := body, hash := Sha256(body)))
    case Beginning =>
      if r.phase == Prepared && r.cancel != NoCancel then None
      else Some(r.(phase := SubmitIntent, attempts := r.attempts + 1))
    case Binding(id) => Some(r.(phase := Submitted, upstream := id, upstreamStatus := UQueued))
    case Observing(status, cancel) =>
      Some(r.(upstreamStatus := status, cancel := if cancel == Rejected then Rejected else r.cancel))
    case Releasing(reconcile) => Some(r.(token := "", expires := 0, reconcile := reconcile))
    case _ => None
  }

  /** Binding shows in the task, and a rejected cancel does. */
  predicate Shown(pc: Pc, t: Task, t': Task) {
    match pc
    case Binding(id) => t' == t.(job := id, status := if t.status == Cancelling then Cancelling else Running)
    case Observing(_, cancel) =>
      t' == t.(status := if t.status == Cancelling && cancel == Rejected then Running else t.status)
    case _ => t' == t
  }

  lemma TransactsExactly(instance: string, row: Row, tok: string, a: Agent, jobs: Jobs, seen: set<string>, w: World)
    requires RowOk(instance, a.task, row, jobs, seen) && AgentOk(instance, tok, a, row, jobs, seen)
    requires Fits(a, row, tok) && HasTransaction(a.pc) && !a.pc.Finishing?
    ensures var r, t := row.run.value, Transaction(row, tok, a, w);
            if r.token == tok && w.now < r.expires && Intended(a.pc, r).Some?
            then t.Some? && t.value.run == Intended(a.pc, r) && Shown(a.pc, row.task, t.value.task)
            else t.None?
  {
    hide Complete, SubmissionKey;
  }

  /**
   In every reachable state an agent's transaction does to the run what it is for if and only if the
   lease is still held and no cancel came first; otherwise it changes nothing.
   */
  lemma HolderActs(instance: string, steps: seq<Step>, tok: string, w: World)
    requires var s := Exec(Init(instance), steps);
             tok in s.agents && HasTransaction(s.agents[tok].pc) && !s.agents[tok].pc.Finishing?
    ensures var s := Exec(Init(instance), steps);
            var s', a := Apply(s, Go(tok, w)), s.agents[tok];
            && a.task in s.rows && s.rows[a.task].run.Some?
            && var r := s.rows[a.task].run.value;
            if r.token == tok && w.now < r.expires && Intended(a.pc, r).Some?
            then && a.task in s'.rows && s'.rows == s.rows[a.task := s'.rows[a.task]]
                 && s'.rows[a.task].run == Intended(a.pc, r) && Shown(a.pc, s.rows[a.task].task, s'.rows[a.task].task)
            else s'.rows == s.rows
  {
    hide Exec, Inv, RowOk, AgentOk, Work, Fits, Intended, Shown, Transaction;
    Reachable(instance, steps);
    ReachableFaithful(instance, steps);
    var s := Exec(Init(instance), steps);
    InvAt(s, tok);
    HasLease(s, tok);
    var a := s.agents[tok];
    assert Faithful(s, tok);
    WorkIsTransaction(s.rows[a.task], tok, a, s.jobs, w);
    TransactsExactly(s.instance, s.rows[a.task], tok, a, s.jobs, s.seen, w);
    assert s.rows[a.task := s.rows[a.task]] == s.rows;
  }
}
