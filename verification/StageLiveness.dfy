/**
 An agent that is left alone gets there: in every reachable state a stage that can be claimed is brought
 to its end by one agent whose lease lasts and whose node does its work, in eight steps.
 */
module StageLiveness {
  import opened Domain
  import opened StageRun
  import opened StageAgents
  import opened StageSafety
  import opened StageTheorems
  import opened StageLeases
  import opened StageProgress
  import opened StageUnique

  /** The node takes the work, does it, and its output can be stored. */
  predicate Friendly(w: World) {
    && !w.stop && !w.failed && w.eligible && w.execution != "" && w.outcome.Done?
    && w.size > 0 && w.placed
  }

  /** The execution the node would name is new there. */
  predicate NewExecution(pipes: map<string, Pipe>, node: string, execution: string) {
    forall x | x in AllAttempts(pipes) :: x.node == node ==> x.execution != execution
  }

  /** How far the agent still has to go; zero for one that has given up. */
  function Left(pc: Pc): nat {
    match pc
    case Claimed => 8
    case Resuming => 7
    case Fresh => 6
    case Creating(_) => 5
    case Submitting(_) => 4
    case Resubmitting(_) => 4
    case Binding(_, _) => 3
    case Polling(_) => 2
    case Completing(_) => 1
    case _ => 0
  }

  /** What the agent needs at this point of its program. */
  predicate OnCourse(pipes: map<string, Pipe>, p: Pipe, a: Agent, w: World)
    requires a.stage < |p.stages|
  {
    && Left(a.pc) > 0
    && (Left(a.pc) >= 5 ==> !IdTaken(pipes, w.attempt) && (a.pc.Creating? ==> a.pc.id == w.attempt))
    && (Left(a.pc) >= 4 ==> NewExecution(pipes, a.node, w.execution))
    && (a.pc.Binding? ==>
          && a.pc.execution != "" && !Rivalled(pipes, p.stages[a.stage].attempts, a.pc.id, a.pc.execution)
          && HasLive(p.stages[a.stage])
          && var last := p.stages[a.stage].attempts[|p.stages[a.stage].attempts| - 1];
          last.execution == "" || last.execution == a.pc.execution)
    && (a.pc.Submitting? || a.pc.Resubmitting? ==>
          HasLive(p.stages[a.stage]) && p.stages[a.stage].attempts[|p.stages[a.stage].attempts| - 1].execution == "")
    && !p.deleted && AdminCanCancel(p.status)
  }

  predicate OnTrack(s: Sys, tok: string, w: World) {
    && Holds(s, tok) && Friendly(w)
    && var a, p := s.agents[tok], s.pipes[s.agents[tok].task];
    w.now < p.stages[a.stage].expires && OnCourse(s.pipes, p, a, w)
  }

  /* ---------- One step, on a task ---------- */

  predicate Ready(pipes: map<string, Pipe>, p: Pipe, tok: string, a: Agent) {
    && PipeOk(p, a.task) && AgentOk(tok, a, p) && Fits(a, p, tok)
    && a.stage < |p.stages| && p.stages[a.stage].token == tok
    && a.task in pipes && pipes[a.task] == p && Unrivalled(pipes)
  }

  predicate Nearer(a: Agent, a': Agent) {
    a'.task == a.task && a'.stage == a.stage && a'.node == a.node && Left(a'.pc) < Left(a.pc)
  }

  lemma ThinksOn(pipes: map<string, Pipe>, p: Pipe, tok: string, a: Agent, w: World)
    requires Ready(pipes, p, tok, a) && Friendly(w) && OnCourse(pipes, p, a, w)
    requires !Writes(a.pc)
    ensures var e := Work(p, tok, a, w); e.pipe == p && Nearer(a, e.agent) && OnCourse(pipes, p, e.agent, w)
  {
    hide PipeOk, TaskOk, Create, Bind, CompleteWithOutput, Fail, Renew, CanClaim, Unrivalled, IdTaken, Rivalled,
      NewExecution;
    StageAt(p, a.task, a.stage);
    var st := p.stages[a.stage];
    if HasLive(st) {
      HeldIsNext(p, a.task, a.stage);
      FoundLast(st, st.attempts[|st.attempts| - 1].id);
      NotRivalled(pipes, p, a, w);
    }
  }

  /** Neither the execution of the live attempt nor a new one has a rival. */
  lemma NotRivalled(pipes: map<string, Pipe>, p: Pipe, a: Agent, w: World)
    requires a.task in pipes && pipes[a.task] == p && a.stage < |p.stages| && HasLive(p.stages[a.stage])
    requires Unrivalled(pipes) && p.stages[a.stage].node == a.node
    requires var attempts := p.stages[a.stage].attempts;
             var last := attempts[|attempts| - 1];
             last.node == a.node && Find(attempts, last.id) == |attempts| - 1
    ensures var attempts := p.stages[a.stage].attempts;
            var last := attempts[|attempts| - 1];
            && !Rivalled(pipes, attempts, last.id, last.execution)
            && (NewExecution(pipes, a.node, w.execution) ==> !Rivalled(pipes, attempts, last.id, w.execution))
  {
    var attempts := p.stages[a.stage].attempts;
    assert p.stages[a.stage] in pipes[a.task].stages && attempts[|attempts| - 1] in attempts;
    assert attempts[|attempts| - 1] in AllAttempts(pipes);
  }

  lemma CreatesOn(pipes: map<string, Pipe>, p: Pipe, tok: string, a: Agent, w: World)
    requires Ready(pipes, p, tok, a) && Friendly(w) && OnCourse(pipes, p, a, w) && w.now < p.stages[a.stage].expires
    requires a.pc.Creating?
    ensures var e := Work(p, tok, a, w);
            && Nearer(a, e.agent) && e.agent.pc == Submitting(w.attempt) && a.stage < |e.pipe.stages|
            && e.pipe.stages[a.stage].token == tok && e.pipe.stages[a.stage].expires == p.stages[a.stage].expires
            && OnCourse(pipes[a.task := e.pipe], e.pipe, e.agent, w)
  {
    hide PipeOk, AgentOk, Fits, Create, IdTaken, NewExecution;
    CreatesExactly(pipes, p, tok, a, w);
    var q := Work(p, tok, a, w).pipe;
    WorkDescends(p, tok, a, w);
    StillNew(pipes, a.task, q, a.stage, a.node, w.execution);
  }

  lemma StillNew(pipes: map<string, Pipe>, task: string, q: Pipe, i: nat, node: string, execution: string)
    requires task in pipes && Descends(pipes[task], q, i, "", "") && execution != ""
    requires NewExecution(pipes, node, execution)
    ensures NewExecution(pipes[task := q], node, execution)
  {
    hide Descends;
    forall y | y in AllAttempts(pipes[task := q]) && y.node == node ensures y.execution != execution {
      if y.execution != "" {
        Origin(pipes, task, q, i, "", "", y);
      }
    }
  }

  lemma BindsOn(pipes: map<string, Pipe>, p: Pipe, tok: string, a: Agent, w: World)
    requires Ready(pipes, p, tok, a) && Friendly(w) && OnCourse(pipes, p, a, w) && a.pc.Binding?
    ensures var e := Work(p, tok, a, w);
            && Nearer(a, e.agent) && e.agent.pc.Polling? && a.stage < |e.pipe.stages|
            && e.pipe.stages[a.stage].token == tok && e.pipe.stages[a.stage].expires == p.stages[a.stage].expires
            && OnCourse(pipes[a.task := e.pipe], e.pipe, e.agent, w)
  {
    hide PipeOk, AgentOk, Fits, Rivalled, Find;
    BindsExactly(pipes, p, tok, a, w);
  }

  /* ---------- One step of the system ---------- */

  lemma WorksOn(pipes: map<string, Pipe>, p: Pipe, tok: string, a: Agent, w: World)
    requires Ready(pipes, p, tok, a) && Friendly(w) && OnCourse(pipes, p, a, w) && w.now < p.stages[a.stage].expires
    requires !a.pc.Completing?
    ensures !Clashes(pipes, a)
    ensures var e := Work(p, tok, a, w);
            && Nearer(a, e.agent) && a.stage < |e.pipe.stages|
            && e.pipe.stages[a.stage].token == tok && e.pipe.stages[a.stage].expires == p.stages[a.stage].expires
            && OnCourse(pipes[a.task := e.pipe], e.pipe, e.agent, w)
  {
    hide PipeOk, AgentOk, Fits, Work, Friendly, Unrivalled;
    if a.pc.Creating? {
      CreatesOn(pipes, p, tok, a, w);
    } else if a.pc.Binding? {
      BindsOn(pipes, p, tok, a, w);
    } else {
      ThinksOn(pipes, p, tok, a, w);
      assert pipes[a.task := p] == pipes;
    }
  }

  /** The system as the lemmas above need it. */
  predicate Healthy(s: Sys) {
    Inv(s) && AllFit(s) && Unrivalled(s.pipes)
  }

  lemma HealthyStep(s: Sys, step: Step)
    requires Healthy(s)
    ensures Healthy(Apply(s, step))
  {
    hide Inv, AllFit, Unrivalled, Apply;
    StepKeeps(s, step);
    FitStep(s, step);
    UnrivalledStep(s, step);
  }

  lemma StepsOn(s: Sys, tok: string, w: World)
    requires Healthy(s) && OnTrack(s, tok, w) && !s.agents[tok].pc.Completing?
    ensures var s' := Apply(s, Go(tok, w));
            && OnTrack(s', tok, w) && s'.agents[tok].task == s.agents[tok].task
            && s'.agents[tok].stage == s.agents[tok].stage && Left(s'.agents[tok].pc) < Left(s.agents[tok].pc)
  {
    hide Inv, PipeOk, AgentOk, Fits, Work, Friendly, Unrivalled, OnCourse, Left, Clashes;
    var a := s.agents[tok];
    InvAt(s, tok);
    PipeAt(s, a.task);
    WorksOn(s.pipes, s.pipes[a.task], tok, a, w);
  }

  predicate HasSucceeded(s: Sys, id: string, i: nat) {
    id in s.pipes && i < |s.pipes[id].stages| && s.pipes[id].stages[i].status == SSucceeded
  }

  lemma Finishes(s: Sys, tok: string, w: World)
    requires Healthy(s) && OnTrack(s, tok, w) && s.agents[tok].pc.Completing?
    ensures HasSucceeded(Apply(s, Go(tok, w)), s.agents[tok].task, s.agents[tok].stage)
  {
    hide Inv, PipeOk, AgentOk, Fits, Unrivalled, CompleteWithOutput;
    var a := s.agents[tok];
    InvAt(s, tok);
    PipeAt(s, a.task);
    CompletesExactly(s.pipes, s.pipes[a.task], tok, a, w);
  }

  lemma SucceededStays(s: Sys, step: Step, id: string, i: nat)
    requires Healthy(s) && HasSucceeded(s, id, i)
    ensures HasSucceeded(Apply(s, step), id, i)
  {
    hide Inv, Apply, PipeOk, StageOk, StageFenced, AllFit, Unrivalled;
    EveryPipeSteps(s, step, id);
  }

  /** The same step again and again. */
  function Times(step: Step, n: nat): seq<Step> {
    seq(n, i => step)
  }

  lemma {:induction false} GetsThere(s: Sys, tok: string, w: World, id: string, i: nat, n: nat)
    requires Healthy(s)
    requires HasSucceeded(s, id, i)
             || (OnTrack(s, tok, w) && s.agents[tok].task == id && s.agents[tok].stage == i
                 && Left(s.agents[tok].pc) <= n)
    ensures HasSucceeded(Exec(s, Times(Go(tok, w), n)), id, i)
    decreases n
  {
    hide Healthy, Apply, OnTrack, HasSucceeded, Left;
    NotDone(s, tok, w);
    if n > 0 {
      HealthyStep(s, Go(tok, w));
      if HasSucceeded(s, id, i) {
        SucceededStays(s, Go(tok, w), id, i);
      } else if s.agents[tok].pc.Completing? {
        Finishes(s, tok, w);
      } else {
        StepsOn(s, tok, w);
      }
      GetsThere(Apply(s, Go(tok, w)), tok, w, id, i, n - 1);
      assert Times(Go(tok, w), n)[1..] == Times(Go(tok, w), n - 1);
    }
  }

  lemma NotDone(s: Sys, tok: string, w: World)
    ensures OnTrack(s, tok, w) ==> tok in s.agents && Left(s.agents[tok].pc) > 0
  {
  }

  /* ---------- From any reachable state ---------- */

  lemma ReachableHealthy(steps: seq<Step>)
    ensures Healthy(Exec(Init(), steps))
  {
    hide Exec, AllFit, Unrivalled, Inv;
    Reachable(steps);
    ExecutionsAreUnique(steps);
    Reachable([]);
    assert Exec(Init(), []) == Init() && AllFit(Init()) by { StartsFit(); }
    FitRun(Init(), steps);
  }

  lemma StartsFit()
    ensures Exec(Init(), []) == Init() && AllFit(Init())
  {
  }

  /**
   A stage that is next, free and suits the node, whatever earlier agents left of it, has succeeded after
   a claim and eight steps of one agent.
   */
  lemma LeftAloneItSucceeds(steps: seq<Step>, tok: string, node: string, id: string, i: nat, now: nat, ttl: nat,
      w: World)
    requires var s := Exec(Init(), steps);
             && id in s.pipes && tok !in s.agents && tok != "" && node != "" && node !in s.barriers
             && IsNext(s.pipes[id], i) && IsFree(s.pipes[id].stages[i], now) && Suits(s.pipes[id].stages[i], node, true)
             && Friendly(w) && w.now < now + ttl
             && !IdTaken(s.pipes, w.attempt) && NewExecution(s.pipes, node, w.execution)
    ensures var s := Exec(Init(), steps);
            HasSucceeded(Exec(Apply(s, ClaimStage(tok, node, id, i, now, ttl, true)), Times(Go(tok, w), 8)), id, i)
  {
    hide Exec, Healthy, IsFree, Suits, IdTaken, NewExecution;
    ReachableHealthy(steps);
    var s := Exec(Init(), steps);
    var claim := ClaimStage(tok, node, id, i, now, ttl, true);
    ClaimedExactly(steps, tok, node, id, i, now, ttl, true);
    HealthyStep(s, claim);
    var s' := Apply(s, claim);
    SameKeys(s.pipes, id, s'.pipes[id], i, w.attempt, node, w.execution);
    assert s'.pipes == s.pipes[id := s'.pipes[id]];
    GetsThere(s', tok, w, id, i, 8);
  }

  /** A claim leaves the attempts as they are. */
  lemma SameKeys(pipes: map<string, Pipe>, id: string, q: Pipe, i: nat, attempt: string, node: string,
      execution: string)
    requires id in pipes && i < |pipes[id].stages| && |q.stages| == |pipes[id].stages|
    requires forall j | 0 <= j < |q.stages| :: q.stages[j].attempts == pipes[id].stages[j].attempts
    requires !IdTaken(pipes, attempt) && NewExecution(pipes, node, execution)
    ensures !IdTaken(pipes[id := q], attempt) && NewExecution(pipes[id := q], node, execution)
  {
    forall x | x in AllAttempts(pipes[id := q]) ensures x in AllAttempts(pipes) {
      var all := pipes[id := q];
      var t, st :| t in all && st in all[t].stages && x in st.attempts;
      if t == id {
        var j :| 0 <= j < |q.stages| && q.stages[j] == st;
        assert pipes[id].stages[j] in pipes[id].stages;
      }
    }
  }
}
