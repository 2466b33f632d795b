/**
 The holder of a stage finds it where its program expects it, so its transactions go through: in every
 reachable state each of them takes effect exactly under conditions that others can bring about.
 */
module StageProgress {
  import opened Domain
  import opened StageRun
  import opened StageAgents
  import opened StageSafety
  import opened StageTheorems
  import opened StageLeases

  /* ---------- Where the holder stands ---------- */

  predicate Mirrors(a: Agent, st: Stage) {
    match a.pc
    case Polling(_) => st.status == SRunning && HasLive(st) && st.attempts[|st.attempts| - 1].status != ADispatching
    case Completing(_) => st.status == SRunning && HasLive(st) && st.attempts[|st.attempts| - 1].status != ADispatching
    case Failing(_, _) => true
    case Stopped => true
    case _ => st.status == SLeased
  }

  predicate Fits(a: Agent, p: Pipe, tok: string) {
    a.stage < |p.stages| && (p.stages[a.stage].token == tok ==> Mirrors(a, p.stages[a.stage]))
  }

  predicate AllFit(s: Sys) {
    forall tok | tok in s.agents ::
      s.agents[tok].task in s.pipes && Fits(s.agents[tok], s.pipes[s.agents[tok].task], tok)
  }

  lemma BindFits(p: Pipe, tok: string, a: Agent, w: World)
    requires PipeOk(p, a.task) && AgentOk(tok, a, p) && Fits(a, p, tok) && a.pc.Binding?
    ensures var e := Work(p, tok, a, w); Fits(e.agent, e.pipe, tok) && e.agent.task == a.task
  {
    hide PipeOk, SoloOk, TaskOk, Create, Complete, CompleteWithOutput, Fail, Renew, Resume, CanClaim;
    StageAt(p, a.task, a.stage);
    if p.stages[a.stage].attempts != [] {
      FoundLast(p.stages[a.stage], a.pc.id);
    }
  }

  lemma WriteFits(p: Pipe, tok: string, a: Agent, w: World)
    requires AgentOk(tok, a, p) && Fits(a, p, tok)
    requires a.pc.Creating? || a.pc.FailCreating? || a.pc.Completing? || a.pc.Failing?
    ensures var e := Work(p, tok, a, w); Fits(e.agent, e.pipe, tok) && e.agent.task == a.task
  {
    hide ArtifactId, AllSettled, Bind, Renew, Resume, CanClaim;
  }

  lemma ThinkFits(p: Pipe, tok: string, a: Agent, w: World)
    requires AgentOk(tok, a, p) && Fits(a, p, tok)
    requires !a.pc.Binding? && !a.pc.Creating? && !a.pc.FailCreating? && !a.pc.Completing? && !a.pc.Failing?
    ensures var e := Work(p, tok, a, w); Fits(e.agent, e.pipe, tok) && e.agent.task == a.task
  {
    hide Create, Complete, CompleteWithOutput, Fail, Bind, CanClaim;
  }

  lemma WorkFits(p: Pipe, tok: string, a: Agent, w: World)
    requires PipeOk(p, a.task) && AgentOk(tok, a, p) && Fits(a, p, tok)
    ensures var e := Work(p, tok, a, w); Fits(e.agent, e.pipe, tok) && e.agent.task == a.task
  {
    hide *;
    if a.pc.Binding? {
      BindFits(p, tok, a, w);
    } else if a.pc.Creating? || a.pc.FailCreating? || a.pc.Completing? || a.pc.Failing? {
      WriteFits(p, tok, a, w);
    } else {
      ThinkFits(p, tok, a, w);
    }
  }

  lemma NotedFits(a: Agent, st: Stage, st': Stage)
    requires Noted(st, st') && Mirrors(a, st)
    ensures Mirrors(a, st')
  {
    if st.attempts != [] {
      assert NotedAttempt(st.attempts[|st.attempts| - 1], st'.attempts[|st.attempts| - 1]);
    }
  }

  /** A stage that is somebody's after a step of another was theirs before, and is the same but for notes. */
  lemma KeptByOthers(s: Sys, step: Step, tok: string)
    requires Inv(s) && tok in s.agents && !(step.Go? && step.tok == tok)
    requires var a := s.agents[tok]; Held(Apply(s, step), a.task, a.stage)
    requires Apply(s, step).pipes[s.agents[tok].task].stages[s.agents[tok].stage].token == tok
    ensures var a := s.agents[tok];
            && a.task in s.pipes && a.stage < |s.pipes[a.task].stages|
            && s.pipes[a.task].stages[a.stage].token == tok
            && Noted(s.pipes[a.task].stages[a.stage], Apply(s, step).pipes[a.task].stages[a.stage])
  {
    hide Inv, PipeOk, Apply, Noted;
    InvAt(s, tok);
    var a := s.agents[tok];
    WasTheirs(s, step, tok);
    if Outside(step, a.task, tok, s.pipes[a.task].stages[a.stage].expires) {
      LeaseExcludesStep(s, step, a.task, a.stage);
    } else {
      NotOutside(s, step, tok);
    }
  }

  lemma WasTheirs(s: Sys, step: Step, tok: string)
    requires Inv(s) && tok in s.agents && !(step.Go? && step.tok == tok)
    requires var a := s.agents[tok]; Held(Apply(s, step), a.task, a.stage)
    requires Apply(s, step).pipes[s.agents[tok].task].stages[s.agents[tok].stage].token == tok
    ensures var a := s.agents[tok];
            && a.task in s.pipes && a.stage < |s.pipes[a.task].stages| && s.pipes[a.task].stages[a.stage].token == tok
  {
    hide Inv, PipeOk, Work, FindBarrier, Clashes, Current, EndStages;
    InvAt(s, tok);
    var a := s.agents[tok];
    PipeAt(s, a.task);
    if step.Go? && step.tok in s.agents && s.agents[step.tok].task == a.task {
      InvAt(s, step.tok);
      AgentWork(step.tok, s.pipes[a.task], s.agents[step.tok], step.w);
      StepAt(step.tok, a.task, s.pipes[a.task], Work(s.pipes[a.task], step.tok, s.agents[step.tok], step.w).pipe,
             a.stage);
    }
  }

  lemma StepAt(actor: string, task: string, p: Pipe, q: Pipe, i: nat)
    requires PipeStep(actor, task, p, q) && i < |p.stages|
    ensures i < |q.stages| && (q.stages[i].token != "" && q.stages[i].token != actor ==>
                               q.stages[i].token == p.stages[i].token)
  {
    hide PipeOk, StageOk, StageEvolves;
    assert StageStep(actor, p.stages[i], q.stages[i]);
  }

  lemma CancelledOrNot(p: Pipe, task: string, i: nat)
    requires Cancel(p, task).Some? && i < |p.stages|
    ensures var q := Cancel(p, task).value;
            |q.stages| == |p.stages| && (q.stages[i] == p.stages[i] || q.stages[i] == EndStage(p.stages[i]))
  {
    hide FindBarrier, EndStage;
  }

  lemma HeldIsEnded(st: Stage)
    requires StageOk(st) && st.token != ""
    ensures EndStage(st).token == ""
  {
  }

  lemma Unnoted(st: Stage)
    ensures Noted(st, st)
  {
  }

  /** A cancel takes the stage away or leaves it as it is; so does a claim after the lease has run out. */
  lemma NotOutside(s: Sys, step: Step, tok: string)
    requires Inv(s) && tok in s.agents && !(step.Go? && step.tok == tok)
    requires var a := s.agents[tok];
             && a.task in s.pipes && a.stage < |s.pipes[a.task].stages| && s.pipes[a.task].stages[a.stage].token == tok
             && Held(Apply(s, step), a.task, a.stage) && Apply(s, step).pipes[a.task].stages[a.stage].token == tok
             && !Outside(step, a.task, tok, s.pipes[a.task].stages[a.stage].expires)
    ensures var a := s.agents[tok];
            Noted(s.pipes[a.task].stages[a.stage], Apply(s, step).pipes[a.task].stages[a.stage])
  {
    hide Inv, PipeOk, Work, FindBarrier, Clashes, Current, SoloOk, TaskOk, StageOk, EndStage, Noted, Cancel, CanClaim;
    InvAt(s, tok);
    var a := s.agents[tok];
    var p := s.pipes[a.task];
    PipeAt(s, a.task);
    StageAt(p, a.task, a.stage);
    Unnoted(p.stages[a.stage]);
    HeldIsEnded(p.stages[a.stage]);
    if step == CancelTask(a.task) && Cancel(p, a.task).Some? {
      CancelledOrNot(p, a.task, a.stage);
    }
  }

  lemma OthersFit(s: Sys, step: Step, tok: string)
    requires Inv(s) && AllFit(s) && tok in s.agents && !(step.Go? && step.tok == tok)
    requires tok in Apply(s, step).agents
    ensures var s' := Apply(s, step);
            s'.agents[tok].task in s'.pipes && Fits(s'.agents[tok], s'.pipes[s'.agents[tok].task], tok)
  {
    hide Inv, PipeOk, Mirrors, Apply;
    InvAt(s, tok);
    var a, s' := s.agents[tok], Apply(s, step);
    SameAgent(s, step, tok);
    StepKeeps(s, step);
    InvAt(s', tok);
    if s'.pipes[a.task].stages[a.stage].token == tok {
      KeptByOthers(s, step, tok);
      NotedFits(a, s.pipes[a.task].stages[a.stage], s'.pipes[a.task].stages[a.stage]);
    }
  }

  lemma SameAgent(s: Sys, step: Step, tok: string)
    requires tok in s.agents && tok in Apply(s, step).agents && !(step.Go? && step.tok == tok)
    ensures Apply(s, step).agents[tok] == s.agents[tok]
  {
    hide Work, Claim, Cancel, FindBarrier, Clashes, Current;
  }

  lemma FitStep(s: Sys, step: Step)
    requires Inv(s) && AllFit(s)
    ensures AllFit(Apply(s, step))
  {
    hide Inv, Fits, Apply;
    var s' := Apply(s, step);
    forall tok | tok in s'.agents
      ensures s'.agents[tok].task in s'.pipes && Fits(s'.agents[tok], s'.pipes[s'.agents[tok].task], tok)
    {
      if tok !in s.agents {
        NewFits(s, step, tok);
      } else if step.Go? && step.tok == tok {
        GoFits(s, step);
      } else {
        OthersFit(s, step, tok);
      }
    }
  }

  lemma NewFits(s: Sys, step: Step, tok: string)
    requires tok !in s.agents && tok in Apply(s, step).agents
    ensures var s' := Apply(s, step);
            s'.agents[tok].task in s'.pipes && Fits(s'.agents[tok], s'.pipes[s'.agents[tok].task], tok)
  {
    hide Work, Cancel, FindBarrier, Clashes, Current, CanClaim;
  }

  lemma GoFits(s: Sys, step: Step)
    requires Inv(s) && AllFit(s) && step.Go? && step.tok in s.agents
    ensures var s', tok := Apply(s, step), step.tok;
            && tok in s'.agents && s'.agents[tok].task in s'.pipes
            && Fits(s'.agents[tok], s'.pipes[s'.agents[tok].task], tok)
  {
    hide Inv, PipeOk, Work, Clashes, Fits;
    InvAt(s, step.tok);
    var a := s.agents[step.tok];
    PipeAt(s, a.task);
    WorkFits(s.pipes[a.task], step.tok, a, step.w);
    StoppedFits(a, s.pipes[a.task], step.tok);
  }

  lemma StoppedFits(a: Agent, p: Pipe, tok: string)
    requires Fits(a, p, tok)
    ensures Fits(a.(pc := Stopped), p, tok)
  {
  }

  lemma {:induction false} FitRun(s: Sys, steps: seq<Step>)
    requires Inv(s) && AllFit(s)
    ensures AllFit(Exec(s, steps))
    decreases |steps|
  {
    hide Inv, AllFit, Apply;
    if steps != [] {
      FitStep(s, steps[0]);
      StepKeeps(s, steps[0]);
      FitRun(Apply(s, steps[0]), steps[1..]);
    }
  }

  lemma NoSteps()
    ensures Exec(Init(), []) == Init()
  {
  }

  /* ---------- So it gets through ---------- */

  /** What others may do to the holder's next transaction: cancel or end the task, or note another execution. */
  predicate Unhindered(pipes: map<string, Pipe>, p: Pipe, a: Agent, w: World)
    requires a.stage < |p.stages|
  {
    var st := p.stages[a.stage];
    match a.pc
    case Creating(id) =>
      !p.deleted && AdminCanCancel(p.status) && w.now < st.expires && w.eligible && !IdTaken(pipes, id)
    case FailCreating(id, _) =>
      !p.deleted && AdminCanCancel(p.status) && w.now < st.expires && w.eligible && !IdTaken(pipes, id)
    case Binding(id, execution) =>
      && st.attempts != [] && !Rivalled(pipes, st.attempts, id, execution)
      && (st.attempts[|st.attempts| - 1].execution == "" || st.attempts[|st.attempts| - 1].execution == execution)
    case Completing(_) => w.size > 0 && w.placed
    case Failing(_, _) => true
    case _ => false
  }

  /** The stage after the transaction. */
  ghost predicate Achieves(a: Agent, w: World, st: Stage, st': Stage) {
    match a.pc
    case Creating(id) => NewAttempt(a, id, st, st')
    case FailCreating(id, _) => NewAttempt(a, id, st, st')
    case Binding(id, execution) =>
      && st'.status == SRunning && st'.token == st.token && |st'.attempts| == |st.attempts| > 0
      && st'.attempts[|st.attempts| - 1].execution == execution && st'.attempts[|st.attempts| - 1].id == id
      && HasLive(st')
    case Completing(_) => st'.status == SSucceeded && st'.token == "" && !HasLive(st') && st'.count == st.count
    case Failing(_, fatal) =>
      && st'.token == "" && !HasLive(st') && st'.count == st.count
      && (if fatal then st'.status == SFailed
          else st'.status == SPending && forall now: nat :: IsFree(st', now) <==> w.now <= now)
    case _ => false
  }

  /** The task shows it: with the node while there is an attempt, without one until the next claim. */
  predicate Shows(a: Agent, p: Pipe, p': Pipe) {
    && p'.deleted == p.deleted
    && match a.pc
    case Creating(_) => p'.status == Dispatching && p'.node == a.node && p'.active == Some(a.stage)
    case FailCreating(_, _) => p'.status == Dispatching && p'.node == a.node && p'.active == Some(a.stage)
    case Binding(_, _) => p'.status == Running && p'.node == a.node && p'.active == Some(a.stage)
    case Completing(_) => p'.active == None && p'.status == if a.stage + 1 == |p.stages| then Succeeded else Running
    case Failing(_, fatal) => p'.active == None && p'.status == if fatal then Failed else Running
    case _ => true
  }

  predicate NewAttempt(a: Agent, id: string, st: Stage, st': Stage) {
    && st' == st.(count := st.count + 1, attempts := st'.attempts)
    && st'.attempts == st.attempts + [Attempt(id, st.count + 1, a.node, "", ADispatching, "")]
  }

  lemma CreatesExactly(pipes: map<string, Pipe>, p: Pipe, tok: string, a: Agent, w: World)
    requires PipeOk(p, a.task) && AgentOk(tok, a, p) && Fits(a, p, tok) && p.stages[a.stage].token == tok
    requires a.task in pipes && pipes[a.task] == p && (a.pc.Creating? || a.pc.FailCreating?)
    ensures var next := Create(p, a.stage, tok, a.node, a.count + 1, a.pc.id, w.now, w.eligible);
            && (!IdTaken(pipes, a.pc.id) ==> (next.Some? <==> Unhindered(pipes, p, a, w)))
            && (next.Some? ==> a.stage < |next.value.stages| && Shows(a, p, next.value)
                               && Achieves(a, w, p.stages[a.stage], next.value.stages[a.stage]))
  {
    hide PipeOk, SoloOk, TaskOk;
    StageAt(p, a.task, a.stage);
    var st := p.stages[a.stage];
    var k := Find(st.attempts, a.pc.id);
    if k < |st.attempts| {
      assert st in pipes[a.task].stages && st.attempts[k] in st.attempts;
      assert st.attempts[k] in AllAttempts(pipes);
    }
  }

  lemma BindsExactly(pipes: map<string, Pipe>, p: Pipe, tok: string, a: Agent, w: World)
    requires PipeOk(p, a.task) && AgentOk(tok, a, p) && Fits(a, p, tok) && p.stages[a.stage].token == tok
    requires a.pc.Binding? && !Rivalled(pipes, p.stages[a.stage].attempts, a.pc.id, a.pc.execution)
    ensures var (next, ok) := Bind(p, a.stage, tok, a.pc.id, a.pc.execution);
            && (ok <==> Unhindered(pipes, p, a, w))
            && (ok ==> a.stage < |next.stages| && Shows(a, p, next)
                       && Achieves(a, w, p.stages[a.stage], next.stages[a.stage]))
            && (!ok ==> next == p)
  {
    hide PipeOk, Rivalled;
    StageAt(p, a.task, a.stage);
    HeldIsNext(p, a.task, a.stage);
    FoundLast(p.stages[a.stage], a.pc.id);
  }

  lemma CanComplete(pipes: map<string, Pipe>, p: Pipe, tok: string, a: Agent, w: World)
    requires PipeOk(p, a.task) && AgentOk(tok, a, p) && Fits(a, p, tok) && p.stages[a.stage].token == tok
    requires a.pc.Completing?
    ensures CompleteWithOutput(p, a.task, a.stage, tok, a.pc.id, w.size, w.digest, w.media, w.placed).Some? <==>
            Unhindered(pipes, p, a, w)
  {
    hide PipeOk, StageOk, TaskOk, ArtifactId, AllSettled, HandOver;
    StageAt(p, a.task, a.stage);
    HeldIsNext(p, a.task, a.stage);
    FoundLast(p.stages[a.stage], a.pc.id);
  }

  /** The task has succeeded exactly with its last stage. */
  lemma Settles(p: Pipe, a: Agent, tok: string, w: World)
    requires PipeOk(p, a.task) && a.stage < |p.stages| && p.stages[a.stage].token == tok && HasLive(p.stages[a.stage])
    requires a.pc.Completing?
    requires CompleteWithOutput(p, a.task, a.stage, tok, a.pc.id, w.size, w.digest, w.media, w.placed).Some?
    ensures var q := CompleteWithOutput(p, a.task, a.stage, tok, a.pc.id, w.size, w.digest, w.media, w.placed).value;
            AllSettled(q.stages) <==> a.stage + 1 == |p.stages|
  {
    hide PipeOk, StageOk, SoloOk, TaskOk, ArtifactId, AllSettled, CompleteWithOutput;
    CompleteShape(p, a.task, a.stage, tok, a.pc.id, w.size, w.digest, w.media, w.placed);
    HeldIsNext(p, a.task, a.stage);
    if a.stage + 1 < |p.stages| {
      NextIsPending(p, a.task, a.stage);
    }
    SettledAtTheEnd(p, a.task, a.stage,
                    CompleteWithOutput(p, a.task, a.stage, tok, a.pc.id, w.size, w.digest, w.media,
                                       w.placed).value.stages);
  }

  lemma CompletesExactly(pipes: map<string, Pipe>, p: Pipe, tok: string, a: Agent, w: World)
    requires PipeOk(p, a.task) && AgentOk(tok, a, p) && Fits(a, p, tok) && p.stages[a.stage].token == tok
    requires a.pc.Completing?
    ensures var next := CompleteWithOutput(p, a.task, a.stage, tok, a.pc.id, w.size, w.digest, w.media, w.placed);
            && (next.Some? <==> Unhindered(pipes, p, a, w))
            && (next.Some? ==> a.stage < |next.value.stages| && Shows(a, p, next.value)
                               && Achieves(a, w, p.stages[a.stage], next.value.stages[a.stage]))
  {
    hide PipeOk, StageOk, SoloOk, TaskOk, ArtifactId, AllSettled, CompleteWithOutput, Unhindered, Fits;
    CanComplete(pipes, p, tok, a, w);
    StageAt(p, a.task, a.stage);
    FoundLast(p.stages[a.stage], a.pc.id);
    if Unhindered(pipes, p, a, w) {
      CompleteShape(p, a.task, a.stage, tok, a.pc.id, w.size, w.digest, w.media, w.placed);
      Settles(p, a, tok, w);
    }
  }

  lemma FailsExactly(pipes: map<string, Pipe>, p: Pipe, tok: string, a: Agent, w: World)
    requires PipeOk(p, a.task) && AgentOk(tok, a, p) && p.stages[a.stage].token == tok && a.pc.Failing?
    ensures var next := Fail(p, a.stage, tok, a.pc.id, w.now, a.pc.fatal);
            && next.Some? && a.stage < |next.value.stages|
            && Achieves(a, w, p.stages[a.stage], next.value.stages[a.stage]) && Shows(a, p, next.value)
  {
    hide PipeOk, StageOk, SoloOk, TaskOk;
    StageAt(p, a.task, a.stage);
    HeldIsNext(p, a.task, a.stage);
    FoundLast(p.stages[a.stage], a.pc.id);
  }

  /** The work itself, for an agent that holds its stage. */
  lemma ActsExactly(pipes: map<string, Pipe>, p: Pipe, tok: string, a: Agent, w: World)
    requires PipeOk(p, a.task) && AgentOk(tok, a, p) && Fits(a, p, tok)
    requires a.stage < |p.stages| && p.stages[a.stage].token == tok
    requires a.task in pipes && pipes[a.task] == p && Writes(a.pc) && !Clashes(pipes, a)
    ensures var q := Work(p, tok, a, w).pipe;
            if Unhindered(pipes, p, a, w)
            then a.stage < |q.stages| && Achieves(a, w, p.stages[a.stage], q.stages[a.stage]) && Shows(a, p, q)
            else q == p
  {
    hide PipeOk, AgentOk, Fits, Unhindered, Achieves, Shows, Create, Bind, CompleteWithOutput, Fail, IdTaken,
      Rivalled;
    match a.pc
    case Creating(_) => CreatesExactly(pipes, p, tok, a, w);
    case FailCreating(_, _) => CreatesExactly(pipes, p, tok, a, w);
    case Binding(_, _) => BindsExactly(pipes, p, tok, a, w);
    case Completing(_) => CompletesExactly(pipes, p, tok, a, w);
    case Failing(_, _) =>
      FailsExactly(pipes, p, tok, a, w);
      NeverHindered(pipes, p, a, w);
  }

  lemma NeverHindered(pipes: map<string, Pipe>, p: Pipe, a: Agent, w: World)
    requires a.task in pipes && pipes[a.task] == p && a.stage < |p.stages|
    ensures a.pc.Failing? ==> Unhindered(pipes, p, a, w)
    ensures Clashes(pipes, a) ==> !Unhindered(pipes, p, a, w)
  {
  }

  /**
   In every reachable state the transaction of an agent that holds its stage achieves what it is for if
   and only if it is not hindered; otherwise it changes nothing.
   */
  lemma HolderActs(steps: seq<Step>, tok: string, w: World)
    requires var s := Exec(Init(), steps); Holds(s, tok) && Writes(s.agents[tok].pc)
    ensures var s := Exec(Init(), steps);
            var s', a := Apply(s, Go(tok, w)), s.agents[tok];
            if Unhindered(s.pipes, s.pipes[a.task], a, w)
            then && a.task in s'.pipes && s'.pipes == s.pipes[a.task := s'.pipes[a.task]]
                 && a.stage < |s'.pipes[a.task].stages| && Shows(a, s.pipes[a.task], s'.pipes[a.task])
                 && Achieves(a, w, s.pipes[a.task].stages[a.stage], s'.pipes[a.task].stages[a.stage])
            else s'.pipes == s.pipes
  {
    hide Exec, Inv, PipeOk, AgentOk, Fits, Unhindered, Achieves, Shows, Work, Clashes;
    Reachable(steps);
    Reachable([]);
    assert Exec(Init(), []) == Init() by { NoSteps(); }
    FitRun(Init(), steps);
    var s := Exec(Init(), steps);
    var a := s.agents[tok];
    InvAt(s, tok);
    PipeAt(s, a.task);
    NeverHindered(s.pipes, s.pipes[a.task], a, w);
    if !Clashes(s.pipes, a) {
      ActsExactly(s.pipes, s.pipes[a.task], tok, a, w);
    }
    assert s.pipes[a.task := s.pipes[a.task]] == s.pipes;
  }

  /**
   A holder that looks for something to take up finds exactly the live attempt, with its execution if
   that is known, and starts a new one exactly if there is none.
   */
  lemma ResumesExactly(steps: seq<Step>, tok: string, w: World)
    requires var s := Exec(Init(), steps); Holds(s, tok) && s.agents[tok].pc == Resuming && !w.stop
    ensures var s := Exec(Init(), steps);
            var s', a := Apply(s, Go(tok, w)), s.agents[tok];
            var st := s.pipes[a.task].stages[a.stage];
            && s'.pipes == s.pipes && tok in s'.agents
            && s'.agents[tok].pc ==
                 if !HasLive(st) then Fresh
                 else if st.attempts[|st.attempts| - 1].execution == ""
                 then Resubmitting(st.attempts[|st.attempts| - 1].id)
                 else Binding(st.attempts[|st.attempts| - 1].id, st.attempts[|st.attempts| - 1].execution)
  {
    hide Exec, Inv, PipeOk, SoloOk, TaskOk;
    Reachable(steps);
    var s := Exec(Init(), steps);
    var a := s.agents[tok];
    InvAt(s, tok);
    PipeAt(s, a.task);
    StageAt(s.pipes[a.task], a.task, a.stage);
    assert s.pipes[a.task := s.pipes[a.task]] == s.pipes;
  }

  /** A holder that polls something still running keeps its lease exactly if it comes in time. */
  lemma RenewsExactly(steps: seq<Step>, tok: string, w: World)
    requires var s := Exec(Init(), steps);
             Holds(s, tok) && s.agents[tok].pc.Polling? && !w.stop && w.outcome.StillRunning?
    ensures var s := Exec(Init(), steps);
            var s', a := Apply(s, Go(tok, w)), s.agents[tok];
            var p := s.pipes[a.task];
            var st := p.stages[a.stage];
            if w.now < st.expires
            then && s'.pipes == s.pipes[a.task := SetStage(p, a.stage, st.(expires := w.now + w.ttl))]
                 && s'.agents == s.agents
            else s'.pipes == s.pipes && s'.agents == s.agents[tok := a.(pc := Stopped)]
  {
    hide Exec, Inv, PipeOk;
    Reachable(steps);
    Reachable([]);
    assert Exec(Init(), []) == Init() by { NoSteps(); }
    FitRun(Init(), steps);
    var s := Exec(Init(), steps);
    var a := s.agents[tok];
    InvAt(s, tok);
    PipeAt(s, a.task);
    StageAt(s.pipes[a.task], a.task, a.stage);
    assert Fits(a, s.pipes[a.task], tok);
    assert s.pipes[a.task := s.pipes[a.task]] == s.pipes && s.agents[tok := s.agents[tok]] == s.agents;
  }

  /* ---------- What a refused submission costs ---------- */

  /** A new attempt whose submission is refused is spent: the stage waits for its next try, or has failed. */
  lemma RefusalIsCharged(steps: seq<Step>, tok: string, w: World, w': World)
    requires var s := Exec(Init(), steps);
             && Holds(s, tok) && s.agents[tok].pc.Submitting?
             && (w.failed || w.execution == "")
    ensures var s := Exec(Init(), steps);
            var s', a := Apply(Apply(s, Go(tok, w)), Go(tok, w')), s.agents[tok];
            && a.task in s'.pipes && a.stage < |s'.pipes[a.task].stages|
            && var st, st' := s.pipes[a.task].stages[a.stage], s'.pipes[a.task].stages[a.stage];
            && !HasLive(st') && st'.token == "" && st'.count == st.count
            && (st'.status == SFailed <==> Fatal(a, w)) && (st'.status == SPending <==> !Fatal(a, w))
  {
    hide Exec, Inv, PipeOk, AgentOk, Fits, Fail, Create, Bind, CompleteWithOutput, Resume, Renew;
    Reachable(steps);
    var s := Exec(Init(), steps);
    var a := s.agents[tok];
    InvAt(s, tok);
    PipeAt(s, a.task);
    StepKeeps(s, Go(tok, w));
    var s1 := Apply(s, Go(tok, w));
    InvAt(s1, tok);
    PipeAt(s1, a.task);
    assert s1.agents[tok] == a.(pc := Failing(a.pc.id, Fatal(a, w))) && s1.pipes[a.task] == s.pipes[a.task];
    FailsExactly(s1.pipes, s1.pipes[a.task], tok, s1.agents[tok], w');
  }

  /** One that was taken up again is left as it is for the next agent. */
  lemma RefusedAgainIsFree(s: Sys, tok: string, w: World)
    requires Holds(s, tok) && s.agents[tok].pc.Resubmitting?
    ensures var s' := Apply(s, Go(tok, w));
            && s'.pipes == s.pipes
            && (s'.agents[tok].pc == Stopped <==> w.failed || w.execution == "")
            && (s'.agents[tok].pc != Stopped ==> s'.agents[tok].pc == Binding(s.agents[tok].pc.id, w.execution))
  {
    var a := s.agents[tok];
    assert s.pipes[a.task := s.pipes[a.task]] == s.pipes;
  }
}
