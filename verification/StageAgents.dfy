/**
 The stage orchestrators around the store.  Every call of ProcessOne that claims a stage is
 an agent named by its lease token; one that finds a barrier is a reader with its own copy
 of that barrier.  Agents interleave freely and may stop for ever or run late.
 */
module StageAgents {
  import opened Domain
  import opened StageRun

  /** What the world answers: node, clock, catalogue, and where the agent gives up. */
  datatype World = World(
    now: nat, ttl: nat, attempt: string, eligible: bool, stop: bool, failed: bool, terminal: bool,
    execution: string, outcome: Outcome, size: nat, digest: string, media: string, placed: bool)

  datatype Outcome = StillRunning | Done | Broken

  datatype Pc =
    | Claimed | Resuming | Fresh
    | Creating(id: string) | FailCreating(id: string, fatal: bool)
    | Submitting(id: string) | Resubmitting(id: string) | Binding(id: string, execution: string)
    | Polling(id: string) | Completing(id: string) | Failing(id: string, fatal: bool)
    | Stopped

  /** `count` is the attempt count the agent read when it claimed. */
  datatype Agent = Agent(task: string, stage: nat, node: string, count: nat, max: nat, pc: Pc)

  datatype Effect = Effect(pipe: Pipe, agent: Agent)

  function Stay(p: Pipe, a: Agent, pc: Pc): Effect {
    Effect(p, a.(pc := pc))
  }

  function Commit(result: Option<Pipe>, p: Pipe, a: Agent, pc: Pc): Effect {
    match result
    case None => Stay(p, a, Stopped)
    case Some(next) => Stay(next, a, pc)
  }

  /** A failure is final when the attempts are used up, as counted from the claim. */
  predicate Fatal(a: Agent, w: World) {
    w.terminal || a.count + 1 >= a.max
  }

  /** Look for an attempt to take up again; it shows only while the lease is ours. */
  function Resume(p: Pipe, tok: string, a: Agent): Effect {
    if a.count == 0 || a.stage >= |p.stages| || p.stages[a.stage].token != tok || p.stages[a.stage].attempts == []
    then Stay(p, a, Fresh)
    else
      var st := p.stages[a.stage];
      var last := st.attempts[|st.attempts| - 1];
      if !Live(last) then Stay(p, a, Fresh)
      else if last.node != a.node then Stay(p, a, Stopped)
      else if last.execution == "" then Stay(p, a, Resubmitting(last.id))
      else Stay(p, a, Binding(last.id, last.execution))
  }

  function Work(p: Pipe, tok: string, a: Agent, w: World): Effect {
    match a.pc
    case Claimed =>
      Stay(p, a, if w.stop || p.status == Cancelled then Stopped else Resuming)
    case Resuming =>
      if w.stop then Stay(p, a, Stopped) else Resume(p, tok, a)
    case Fresh =>
      Stay(p, a, if w.stop then Stopped else if w.failed then FailCreating(w.attempt, Fatal(a, w))
           else Creating(w.attempt))
    case Creating(id) =>
      Commit(Create(p, a.stage, tok, a.node, a.count + 1, id, w.now, w.eligible), p, a, Submitting(id))
    case FailCreating(id, fatal) =>
      Commit(Create(p, a.stage, tok, a.node, a.count + 1, id, w.now, w.eligible), p, a, Failing(id, fatal))
    case Submitting(id) =>
      Stay(p, a, if w.failed || w.execution == "" then Failing(id, Fatal(a, w)) else Binding(id, w.execution))
    case Resubmitting(id) =>
      Stay(p, a, if w.failed || w.execution == "" then Stopped else Binding(id, w.execution))
    case Binding(id, execution) =>
      var (next, ok) := Bind(p, a.stage, tok, id, execution);
      Stay(next, a, if ok then Polling(id) else Stopped)
    case Polling(id) =>
      if w.stop || p.status == Cancelling || p.status == Cancelled then Stay(p, a, Stopped)
      else (match w.outcome
        case StillRunning => Commit(Renew(p, a.stage, tok, w.now, w.ttl), p, a, Polling(id))
        case Done => Stay(p, a, Completing(id))
        case Broken => Stay(p, a, Failing(id, Fatal(a, w))))
    case Completing(id) =>
      Commit(CompleteWithOutput(p, a.task, a.stage, tok, id, w.size, w.digest, w.media, w.placed), p, a, Stopped)
    case Failing(id, fatal) =>
      Commit(Fail(p, a.stage, tok, id, w.now, fatal), p, a, Stopped)
    case Stopped => Stay(p, a, Stopped)
  }

  datatype Sys = Sys(
    pipes: map<string, Pipe>, agents: map<string, Agent>,
    barriers: map<string, Barrier>, readers: map<string, Barrier>)

  datatype Step =
    | NewTask(id: string, stages: seq<Stage>)
    | ClaimStage(tok: string, node: string, id: string, stage: nat, now: nat, ttl: nat, eligible: bool)
    | Go(tok: string, w: World)
    | CancelTask(id: string)
    | CancelQueued(id: string)
    | DeleteTask(id: string)
    | Rank(id: string, locked: bool)
    | ReadBarrier(tok: string, node: string)
    | BindBarrier(tok: string, execution: string)
    | DeferBarrier(tok: string)
    | LiftBarrier(tok: string)

  /** A unique key of the attempt table refuses the write the agent is about to make. */
  predicate Clashes(pipes: map<string, Pipe>, a: Agent) {
    match a.pc
    case Creating(id) => IdTaken(pipes, id)
    case FailCreating(id, _) => IdTaken(pipes, id)
    case Binding(id, execution) =>
      && a.task in pipes && a.stage < |pipes[a.task].stages|
      && Rivalled(pipes, pipes[a.task].stages[a.stage].attempts, id, execution)
    case _ => false
  }

  function SetPipe(s: Sys, id: string, p: Option<Pipe>): Sys {
    if p.Some? then s.(pipes := s.pipes[id := p.value]) else s
  }

  /** Cancelling inserts a barrier for the live attempt's node; a node that has one refuses the whole cancel. */
  function CancelWhole(s: Sys, id: string): Sys
    requires id in s.pipes
  {
    var p := s.pipes[id];
    var barrier := FindBarrier(id, p.stages);
    if Cancel(p, id).None? || (barrier.Some? && barrier.value.node in s.barriers) then s
    else s.(pipes := s.pipes[id := Cancel(p, id).value],
            barriers := if barrier.Some? then s.barriers[barrier.value.node := barrier.value] else s.barriers)
  }

  /** The version the reader saw is still the stored one. */
  predicate Current(s: Sys, tok: string) {
    && tok in s.readers && s.readers[tok].node in s.barriers
    && s.barriers[s.readers[tok].node].version == s.readers[tok].version
  }

  function Bump(b: Barrier, execution: string): Barrier {
    b.(execution := execution, version := b.version + 1)
  }

  function Apply(s: Sys, step: Step): Sys {
    match step
    case NewTask(id, stages) =>
      if id in s.pipes || stages == [] || !NewStages(stages) then s else s.(pipes := s.pipes[id := NewPipe(stages)])
    case ClaimStage(tok, node, id, stage, now, ttl, eligible) =>
      if id in s.pipes && tok !in s.agents && node != "" && node !in s.barriers
         && Claim(s.pipes[id], stage, node, tok, now, ttl, eligible).Some?
      then
        var p := Claim(s.pipes[id], stage, node, tok, now, ttl, eligible).value;
        s.(pipes := s.pipes[id := p],
           agents := s.agents[tok := Agent(id, stage, node, p.stages[stage].count, p.stages[stage].max, Claimed)])
      else s
    case Go(tok, w) =>
      if tok in s.agents && s.agents[tok].task in s.pipes then
        var a := s.agents[tok];
        var e := if Clashes(s.pipes, a) then Stay(s.pipes[a.task], a, Stopped) else Work(s.pipes[a.task], tok, a, w);
        s.(pipes := s.pipes[a.task := e.pipe], agents := s.agents[tok := e.agent])
      else s
    case CancelTask(id) => if id in s.pipes then CancelWhole(s, id) else s
    case CancelQueued(id) => if id in s.pipes then SetPipe(s, id, OwnerCancel(s.pipes[id])) else s
    case DeleteTask(id) => if id in s.pipes then SetPipe(s, id, Delete(s.pipes[id])) else s
    case Rank(id, locked) => if id in s.pipes then SetPipe(s, id, Some(Rebalance(s.pipes[id], locked))) else s
    case ReadBarrier(tok, node) =>
      if node in s.barriers && tok !in s.readers then s.(readers := s.readers[tok := s.barriers[node]]) else s
    case BindBarrier(tok, execution) =>
      if Current(s, tok) && execution != "" && s.barriers[s.readers[tok].node].execution == "" then
        var b := Bump(s.barriers[s.readers[tok].node], execution);
        s.(barriers := s.barriers[s.readers[tok].node := b],
           readers := s.readers[tok := Bump(s.readers[tok], execution)])
      else s
    case DeferBarrier(tok) =>
      if Current(s, tok) then
        var b := s.barriers[s.readers[tok].node];
        s.(barriers := s.barriers[s.readers[tok].node := b.(version := b.version + 1)])
      else s
    case LiftBarrier(tok) =>
      // only after the execution, once known, was seen to have ended
      if Current(s, tok) && s.readers[tok].execution != "" then s.(barriers := s.barriers - {s.readers[tok].node})
         else s
  }

  function Exec(s: Sys, steps: seq<Step>): Sys
    decreases |steps|
  {
    if steps == [] then s else Exec(Apply(s, steps[0]), steps[1..])
  }

  function Init(): Sys {
    Sys(map[], map[], map[], map[])
  }
}
