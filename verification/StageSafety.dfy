/** What holds in every run of the H3 stage pipeline. */
module StageSafety {
  import opened Domain
  import opened StageRun
  import opened StageAgents

  /* ---------- The invariant ---------- */

  /** The attempt an agent works on, once it has one. */
  function AttemptOf(pc: Pc): Option<string> {
    match pc
    case Submitting(id) => Some(id)
    case Resubmitting(id) => Some(id)
    case Binding(id, _) => Some(id)
    case Polling(id) => Some(id)
    case Completing(id) => Some(id)
    case Failing(id, _) => Some(id)
    case _ => None
  }

  /** What an agent may rely on as long as the stage carries its token. */
  predicate HolderOk(a: Agent, st: Stage) {
    && st.node == a.node
    && (a.pc.Claimed? || a.pc.Resuming? ==> st.count == a.count)
    && (a.pc.Fresh? || a.pc.Creating? || a.pc.FailCreating? ==> st.count == a.count && !HasLive(st))
    && (AttemptOf(a.pc).Some? ==>
          && HasLive(st) && st.attempts[|st.attempts| - 1].id == AttemptOf(a.pc).value
          && a.count <= st.count <= a.count + 1)
  }

  predicate AgentOk(tok: string, a: Agent, p: Pipe) {
    && tok != "" && a.node != "" && a.stage < |p.stages|
    && a.max == p.stages[a.stage].max
    && ((a.pc.Failing? || a.pc.FailCreating?) && !a.pc.fatal ==> a.count + 1 < a.max)
    && (p.stages[a.stage].token == tok ==> HolderOk(a, p.stages[a.stage]))
  }

  predicate PipesOk(s: Sys) {
    forall id | id in s.pipes :: PipeOk(s.pipes[id], id) && s.pipes[id].stages != []
  }

  predicate AgentsOk(s: Sys) {
    forall tok | tok in s.agents :: s.agents[tok].task in s.pipes
      && AgentOk(tok, s.agents[tok], s.pipes[s.agents[tok].task])
  }

  predicate Inv(s: Sys) {
    PipesOk(s) && AgentsOk(s)
  }

  /* ---------- One step ---------- */

  lemma HolderKeeps(a: Agent, tok: string, actor: string, before: Stage, after: Stage)
    requires StageStep(actor, before, after) && StageOk(before)
    requires after.token == tok && tok != "" && tok != actor && HolderOk(a, before)
    ensures before.token == tok && HolderOk(a, after)
  {
  }

  lemma OthersKeep(tok: string, a: Agent, actor: string, task: string, before: Pipe, after: Pipe)
    requires AgentOk(tok, a, before) && PipeOk(before, task) && PipeStep(actor, task, before, after) && tok != actor
    ensures AgentOk(tok, a, after)
  {
    hide PipeOk, StageOk, StageEvolves, StageFenced, HolderOk;
    var st, st' := before.stages[a.stage], after.stages[a.stage];
    assert StageStep(actor, st, st');
    StageAt(before, task, a.stage);
    Fenced(actor, st, st');
    if st'.token == tok {
      HolderKeeps(a, tok, actor, st, st');
    }
  }

  lemma Fenced(actor: string, a: Stage, b: Stage)
    requires StageStep(actor, a, b)
    ensures b.max == a.max && (b.token != "" && b.token != actor ==> b.token == a.token)
  {
  }

  predicate WorkOk(tok: string, task: string, p: Pipe, e: Effect) {
    PipeStep(tok, task, p, e.pipe) && e.agent.task == task && AgentOk(tok, e.agent, e.pipe)
  }

  lemma StayWork(tok: string, p: Pipe, a: Agent, pc: Pc)
    requires PipeOk(p, a.task) && AgentOk(tok, a, p) && AgentOk(tok, a.(pc := pc), p)
    ensures WorkOk(tok, a.task, p, Stay(p, a, pc))
  {
    hide PipeOk, PipeStep, AgentOk;
    SamePipe(tok, a.task, p);
  }

  lemma CreateWork(tok: string, p: Pipe, a: Agent, w: World)
    requires PipeOk(p, a.task) && AgentOk(tok, a, p) && (a.pc.Creating? || a.pc.FailCreating?)
    ensures WorkOk(tok, a.task, p, Work(p, tok, a, w))
  {
    hide PipeOk, PipeStep, StageOk;
    var result := Create(p, a.stage, tok, a.node, a.count + 1, a.pc.id, w.now, w.eligible);
    if result.Some? {
      CreateStep(p, a.task, a.stage, tok, a.node, a.count + 1, a.pc.id, w.now, w.eligible);
    } else {
      StayWork(tok, p, a, Stopped);
    }
  }

  lemma BindWork(tok: string, p: Pipe, a: Agent, w: World)
    requires PipeOk(p, a.task) && AgentOk(tok, a, p) && a.pc.Binding?
    ensures WorkOk(tok, a.task, p, Work(p, tok, a, w))
  {
    hide PipeOk, PipeStep, SoloOk, TaskOk, Create, Fail, Complete, CompleteWithOutput, Renew, Resume;
    BindStep(p, a.task, a.stage, tok, a.pc.id, a.pc.execution);
    StageAt(p, a.task, a.stage);
    var st := p.stages[a.stage];
    if st.attempts != [] {
      FoundLast(st, a.pc.id);
    }
  }

  lemma EndWork(tok: string, p: Pipe, a: Agent, w: World)
    requires PipeOk(p, a.task) && AgentOk(tok, a, p) && (a.pc.Completing? || a.pc.Failing?)
    ensures WorkOk(tok, a.task, p, Work(p, tok, a, w))
  {
    hide PipeOk, PipeStep, StageOk;
    StageAt(p, a.task, a.stage);
    if a.pc.Completing? {
      var result := CompleteWithOutput(p, a.task, a.stage, tok, a.pc.id, w.size, w.digest, w.media, w.placed);
      if result.Some? {
        CompleteStep(p, a.task, a.stage, tok, a.pc.id, w.size, w.digest, w.media, w.placed);
      } else {
        StayWork(tok, p, a, Stopped);
      }
    } else {
      if Fail(p, a.stage, tok, a.pc.id, w.now, a.pc.fatal).Some? {
        FailStep(p, a.task, a.stage, tok, a.pc.id, w.now, a.pc.fatal);
      } else {
        StayWork(tok, p, a, Stopped);
      }
    }
  }

  lemma ThinkWork(tok: string, p: Pipe, a: Agent, w: World)
    requires PipeOk(p, a.task) && AgentOk(tok, a, p)
    requires a.pc.Claimed? || a.pc.Resuming? || a.pc.Fresh? || a.pc.Submitting? || a.pc.Resubmitting? || a.pc.Stopped?
    ensures WorkOk(tok, a.task, p, Work(p, tok, a, w))
  {
    hide PipeOk, PipeStep;
    StageAt(p, a.task, a.stage);
    StayWork(tok, p, a, Work(p, tok, a, w).agent.pc);
  }

  lemma PollWork(tok: string, p: Pipe, a: Agent, w: World)
    requires PipeOk(p, a.task) && AgentOk(tok, a, p) && a.pc.Polling?
    ensures WorkOk(tok, a.task, p, Work(p, tok, a, w))
  {
    hide PipeOk, PipeStep, StageOk;
    var e := Work(p, tok, a, w);
    if e.pipe == p {
      StayWork(tok, p, a, e.agent.pc);
    } else {
      RenewStep(p, a.task, a.stage, tok, w.now, w.ttl);
    }
  }

  lemma AgentWork(tok: string, p: Pipe, a: Agent, w: World)
    requires PipeOk(p, a.task) && AgentOk(tok, a, p)
    ensures WorkOk(tok, a.task, p, Work(p, tok, a, w))
  {
    hide *;
    if a.pc.Creating? || a.pc.FailCreating? { CreateWork(tok, p, a, w); }
    else if a.pc.Binding? { BindWork(tok, p, a, w); }
    else if a.pc.Completing? || a.pc.Failing? { EndWork(tok, p, a, w); }
    else if a.pc.Polling? { PollWork(tok, p, a, w); }
    else { ThinkWork(tok, p, a, w); }
  }

  /* ---------- The whole system ---------- */

  lemma InvAt(s: Sys, tok: string)
    requires Inv(s) && tok in s.agents
    ensures s.agents[tok].task in s.pipes
    ensures PipeOk(s.pipes[s.agents[tok].task], s.agents[tok].task)
    ensures AgentOk(tok, s.agents[tok], s.pipes[s.agents[tok].task])
  {
    hide PipeOk, AgentOk;
  }

  lemma PipeAt(s: Sys, id: string)
    requires Inv(s) && id in s.pipes
    ensures PipeOk(s.pipes[id], id) && s.pipes[id].stages != []
  {
    hide PipeOk, AgentOk;
  }

  predicate OnlyPipe(s: Sys, s': Sys, id: string, actor: string) {
    && id in s.pipes && id in s'.pipes && s'.pipes == s.pipes[id := s'.pipes[id]]
    && s'.agents - {actor} == s.agents - {actor}
  }

  /** One pipeline makes a step; everyone but the actor is left as they were. */
  lemma OnePipe(s: Sys, s': Sys, id: string, actor: string)
    requires Inv(s) && OnlyPipe(s, s', id, actor)
    requires PipeStep(actor, id, s.pipes[id], s'.pipes[id])
    requires actor in s'.agents ==> s'.agents[actor].task == id && AgentOk(actor, s'.agents[actor], s'.pipes[id])
    ensures Inv(s')
  {
    hide PipeOk, PipeStep, AgentOk;
    forall i | i in s'.pipes ensures PipeOk(s'.pipes[i], i) && s'.pipes[i].stages != [] {
      PipeAt(s, if i == id then id else i);
      if i == id { StepOk(actor, id, s.pipes[id], s'.pipes[id]); }
    }
    forall tok | tok in s'.agents
      ensures s'.agents[tok].task in s'.pipes && AgentOk(tok, s'.agents[tok], s'.pipes[s'.agents[tok].task])
    {
      if tok != actor {
        assert tok in s'.agents - {actor} && (s'.agents - {actor})[tok] == (s.agents - {actor})[tok];
        InvAt(s, tok);
        if s.agents[tok].task == id {
          OthersKeep(tok, s.agents[tok], actor, id, s.pipes[id], s'.pipes[id]);
        }
      }
    }
  }

  lemma StepOk(actor: string, id: string, p: Pipe, b: Pipe)
    requires PipeStep(actor, id, p, b)
    ensures PipeOk(b, id) && |b.stages| == |p.stages|
  {
    hide PipeOk, StageStep;
  }

  lemma NoOneIsTheEnvironment(s: Sys)
    requires Inv(s)
    ensures "" !in s.agents
  {
    if "" in s.agents {
      InvAt(s, "");
    }
  }

  lemma ClaimKeeps(s: Sys, step: Step)
    requires Inv(s) && step.ClaimStage?
    ensures Inv(Apply(s, step))
  {
    hide Inv, PipeOk, PipeStep, CanClaim, StageOk;
    var s' := Apply(s, step);
    if s' != s {
      PipeAt(s, step.id);
      var p := s.pipes[step.id];
      ClaimStep(p, step.id, step.stage, step.node, step.tok, step.now, step.ttl, step.eligible);
      OnePipe(s, s', step.id, step.tok);
    }
  }

  /** Stopping after a refused write. */
  lemma GivingUp(tok: string, p: Pipe, a: Agent)
    requires PipeOk(p, a.task) && AgentOk(tok, a, p)
    ensures WorkOk(tok, a.task, p, Stay(p, a, Stopped))
  {
    hide PipeOk, PipeStep;
    StayWork(tok, p, a, Stopped);
  }

  lemma GoKeeps(s: Sys, tok: string, w: World)
    requires Inv(s)
    ensures Inv(Apply(s, Go(tok, w)))
  {
    hide Inv, PipeOk, PipeStep, AgentOk, Work;
    var s' := Apply(s, Go(tok, w));
    if tok in s.agents {
      InvAt(s, tok);
      var a := s.agents[tok];
      AgentWork(tok, s.pipes[a.task], a, w);
      GivingUp(tok, s.pipes[a.task], a);
      OnePipe(s, s', a.task, tok);
    }
  }

  /** The steps nobody holds a lease for: cancel, delete, queue positions. */
  lemma EnvironmentKeeps(s: Sys, step: Step)
    requires Inv(s) && (step.CancelTask? || step.CancelQueued? || step.DeleteTask? || step.Rank?)
    ensures Inv(Apply(s, step))
  {
    hide Inv, PipeOk, PipeStep, Cancel, FindBarrier, Work, Clashes, Claim, Current;
    NoOneIsTheEnvironment(s);
    if step.id in s.pipes {
      var s' := Apply(s, step);
      var p, b := s.pipes[step.id], s'.pipes[step.id];
      PipeAt(s, step.id);
      TaskAt(p, step.id);
      if b == p {
        SamePipe("", step.id, p);
      } else if step.CancelTask? {
        CancelStep(p, step.id);
      } else {
        IdleTask(p, step.id);
        StatusStep(p, step.id, b);
      }
      OnePipe(s, s', step.id, "");
    }
  }

  lemma NewTaskKeeps(s: Sys, step: Step)
    requires Inv(s) && step.NewTask?
    ensures Inv(Apply(s, step))
  {
    hide AgentOk, PipeOk;
    if NewStages(step.stages) {
      NewPipeOk(step.id, step.stages);
    }
  }

  lemma NewPipeOk(task: string, stages: seq<Stage>)
    requires NewStages(stages)
    ensures PipeOk(NewPipe(stages), task)
  {
    forall i | 0 <= i < |stages| ensures StageOk(stages[i]) && stages[i].status == SPending && !HasLive(stages[i]) {
      assert stages[i] in stages;
    }
    hide StageOk;
  }

  lemma StepKeeps(s: Sys, step: Step)
    requires Inv(s)
    ensures Inv(Apply(s, step))
  {
    hide Inv, Work, Claim;
    match step
    case NewTask(_, _) => NewTaskKeeps(s, step);
    case ClaimStage(_, _, _, _, _, _, _) => ClaimKeeps(s, step);
    case Go(tok, w) => GoKeeps(s, tok, w);
    case CancelTask(_) => EnvironmentKeeps(s, step);
    case CancelQueued(_) => EnvironmentKeeps(s, step);
    case DeleteTask(_) => EnvironmentKeeps(s, step);
    case Rank(_, _) => EnvironmentKeeps(s, step);
    case _ => BarriersApart(s, step);
  }

  lemma BarriersApart(s: Sys, step: Step)
    requires Inv(s) && (step.ReadBarrier? || step.BindBarrier? || step.DeferBarrier? || step.LiftBarrier?)
    ensures Inv(Apply(s, step)) && Apply(s, step).pipes == s.pipes
  {
    hide PipeOk, AgentOk;
  }

  lemma {:induction false} ExecKeeps(s: Sys, steps: seq<Step>)
    requires Inv(s)
    ensures Inv(Exec(s, steps))
    decreases |steps|
  {
    hide Inv, Apply;
    if steps != [] {
      StepKeeps(s, steps[0]);
      ExecKeeps(Apply(s, steps[0]), steps[1..]);
    }
  }

  /** Whatever the step, every pipeline makes a step of its own or none. */
  lemma EveryPipeSteps(s: Sys, step: Step, id: string)
    requires Inv(s) && id in s.pipes
    ensures id in Apply(s, step).pipes
    ensures exists actor :: PipeStep(actor, id, s.pipes[id], Apply(s, step).pipes[id])
  {
    hide Inv, PipeOk, PipeStep, Work, Cancel, FindBarrier, CanClaim, AgentOk, TaskOk;
    PipeAt(s, id);
    var p := s.pipes[id];
    SamePipe("", id, p);
    match step
    case ClaimStage(tok, node, task, stage, now, ttl, eligible) =>
      if task == id && Claim(p, stage, node, tok, now, ttl, eligible).Some? {
        ClaimStep(p, id, stage, node, tok, now, ttl, eligible);
      }
    case Go(tok, w) =>
      if tok in s.agents && s.agents[tok].task == id {
        InvAt(s, tok);
        AgentWork(tok, p, s.agents[tok], w);
        GivingUp(tok, p, s.agents[tok]);
      }
    case CancelTask(task) => if task == id && Cancel(p, id).Some? { CancelStep(p, id); }
    case CancelQueued(_) => StatusOnly(s, step, id);
    case DeleteTask(_) => StatusOnly(s, step, id);
    case Rank(_, _) => StatusOnly(s, step, id);
    case _ =>
  }

  lemma StatusOnly(s: Sys, step: Step, id: string)
    requires Inv(s) && id in s.pipes && (step.CancelQueued? || step.DeleteTask? || step.Rank?)
    ensures id in Apply(s, step).pipes && PipeStep("", id, s.pipes[id], Apply(s, step).pipes[id])
  {
    hide Inv, PipeOk, PipeStep, Work, Clashes, Claim, CancelWhole, Current;
    PipeAt(s, id);
    TaskAt(s.pipes[id], id);
    SamePipe("", id, s.pipes[id]);
    if Apply(s, step).pipes[id] != s.pipes[id] {
      IdleTask(s.pipes[id], id);
      StatusStep(s.pipes[id], id, Apply(s, step).pipes[id]);
    }
  }
}
