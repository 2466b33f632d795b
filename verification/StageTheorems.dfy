/** The promises of the H3 stage pipeline, each over every run of the system. */
module StageTheorems {
  import opened Domain
  import opened StageRun
  import opened StageAgents
  import opened StageSafety

  lemma Reachable(steps: seq<Step>)
    ensures Inv(Exec(Init(), steps))
  {
    hide Apply;
    ExecKeeps(Init(), steps);
  }

  /* ---------- Attempts ---------- */

  predicate LiveAt(p: Pipe, i: nat, k: nat) {
    i < |p.stages| && k < |p.stages[i].attempts| && Live(p.stages[i].attempts[k])
  }

  lemma LiveIsLast(p: Pipe, task: string, i: nat, k: nat)
    requires PipeOk(p, task) && LiveAt(p, i, k)
    ensures k == |p.stages[i].attempts| - 1 && HasLive(p.stages[i]) && p.stages[i].token != ""
    ensures p.stages[i].attempts[k].node == p.stages[i].node
  {
    hide PipeOk;
    StageAt(p, task, i);
  }

  /** At most one attempt of a task is live, and the attempt counters stay within their limits. */
  lemma OneLiveAttempt(steps: seq<Step>, id: string, i: nat, k: nat, j: nat, m: nat)
    requires var s := Exec(Init(), steps); id in s.pipes && LiveAt(s.pipes[id], i, k) && LiveAt(s.pipes[id], j, m)
    ensures i == j && k == m
    ensures var st := Exec(Init(), steps).pipes[id].stages[i];
            k + 1 == st.count == st.attempts[k].no && st.count <= st.max
  {
    hide Exec, PipeOk, Inv;
    Reachable(steps);
    var s := Exec(Init(), steps);
    PipeAt(s, id);
    LiveIsLast(s.pipes[id], id, i, k);
    LiveIsLast(s.pipes[id], id, j, m);
    StageAt(s.pipes[id], id, i);
    if i != j {
      HeldAlone(s.pipes[id], id, i, j);
    }
  }

  /** While an attempt is live, the only claim the task admits is of that stage, by that node. */
  lemma OnlyItsNodeReclaims(steps: seq<Step>, id: string, i: nat, k: nat, stage: nat, node: string, tok: string,
      now: nat, ttl: nat, eligible: bool)
    requires var s := Exec(Init(), steps); id in s.pipes && LiveAt(s.pipes[id], i, k)
    requires Claim(Exec(Init(), steps).pipes[id], stage, node, tok, now, ttl, eligible).Some?
    ensures stage == i && node == Exec(Init(), steps).pipes[id].stages[i].attempts[k].node
  {
    hide Exec, PipeOk, Inv, StageOk;
    Reachable(steps);
    var p := Exec(Init(), steps).pipes[id];
    PipeAt(Exec(Init(), steps), id);
    LiveIsLast(p, id, i, k);
    HeldIsNext(p, id, i);
    if stage < i {
      EarlierSucceeded(p, id, i, stage);
    } else if stage == i {
      assert p.stages[i].attempts[k] in p.stages[i].attempts;
    }
  }

  /** A stage that waits for another try has one left, and no stage is tried more often than allowed. */
  lemma TriesAreLeft(steps: seq<Step>, id: string, i: nat)
    requires var s := Exec(Init(), steps); id in s.pipes && i < |s.pipes[id].stages|
    ensures var st := Exec(Init(), steps).pipes[id].stages[i];
            |st.attempts| == st.count <= st.max && (st.status == SPending ==> st.count < st.max)
  {
    hide Exec, PipeOk, Inv;
    Reachable(steps);
    PipeAt(Exec(Init(), steps), id);
    StageAt(Exec(Init(), steps).pipes[id], id, i);
  }

  /** The stage an agent works on carries its token. */
  predicate Holds(s: Sys, tok: string) {
    && tok in s.agents && s.agents[tok].task in s.pipes
    && var a, p := s.agents[tok], s.pipes[s.agents[tok].task];
    a.stage < |p.stages| && p.stages[a.stage].token == tok
  }

  /**
   A failure that the node does not call final ends the task although a try is left exactly
   when the attempt was there at the claim and only one try is left: the agent counts its own
   attempt on top of the count it read, whether it created one or took one up.
   */
  lemma ResumedLosesATry(steps: seq<Step>, tok: string, w: World)
    requires Holds(Exec(Init(), steps), tok) && AttemptOf(Exec(Init(), steps).agents[tok].pc).Some? && !w.terminal
    ensures var s := Exec(Init(), steps);
            var a := s.agents[tok];
            var st := s.pipes[a.task].stages[a.stage];
            Fatal(a, w) && st.count < st.max <==> a.count == st.count && st.count + 1 == st.max
  {
    hide Exec, PipeOk, Inv;
    Reachable(steps);
    InvAt(Exec(Init(), steps), tok);
  }

  /** The same attempt, except that it may have noted that it runs, and its execution once. */
  predicate NotedAttempt(a: Attempt, b: Attempt) {
    && b == a.(execution := b.execution, status := b.status)
    && (b.status == a.status || (Live(a) && b.status == ARunning))
    && (a.execution != "" || !Live(a) ==> b.execution == a.execution)
  }

  predicate Noted(st: Stage, st': Stage) {
    && st' == st.(attempts := st'.attempts) && |st'.attempts| == |st.attempts|
    && forall k | 0 <= k < |st.attempts| :: NotedAttempt(st.attempts[k], st'.attempts[k])
  }

  /** The same pipeline, except for such notes on stage `i`. */
  predicate OnlyNotes(p: Pipe, q: Pipe, i: nat) {
    && i < |p.stages| == |q.stages| && q == p.(stages := q.stages)
    && (forall j | 0 <= j < |p.stages| && j != i :: q.stages[j] == p.stages[j])
    && Noted(p.stages[i], q.stages[i])
  }

  lemma BindOnlyNotes(p: Pipe, i: nat, tok: string, id: string, execution: string)
    requires i < |p.stages| && p.stages[i].token != tok
    ensures OnlyNotes(p, Bind(p, i, tok, id, execution).0, i) && !Bind(p, i, tok, id, execution).1
  {
  }

  predicate Writes(pc: Pc) {
    pc.Creating? || pc.FailCreating? || pc.Binding? || pc.Completing? || pc.Failing?
  }

  /** An agent that lost the stage may at most note the execution on its attempt, and trying to write stops it. */
  lemma SupersededTokenIsHarmless(p: Pipe, tok: string, a: Agent, w: World)
    requires a.stage < |p.stages| && p.stages[a.stage].token != tok
    ensures OnlyNotes(p, Work(p, tok, a, w).pipe, a.stage)
    ensures Writes(a.pc) ==> Work(p, tok, a, w).agent.pc == Stopped
  {
    hide OnlyNotes, Bind, ArtifactId, AllSettled, HandOver, CanClaim;
    if a.pc.Binding? {
      BindOnlyNotes(p, a.stage, tok, a.pc.id, a.pc.execution);
    } else {
      assert OnlyNotes(p, p, a.stage) by { NothingNoted(p, a.stage); }
    }
  }

  lemma NothingNoted(p: Pipe, i: nat)
    requires i < |p.stages|
    ensures OnlyNotes(p, p, i)
  {
  }

  /* ---------- Order and hand-over ---------- */

  /** Whatever has been claimed or tried stands after succeeded stages only, each with its output handed on. */
  lemma StagesInOrder(steps: seq<Step>, id: string, i: nat, j: nat)
    requires var s := Exec(Init(), steps); id in s.pipes && i < j < |s.pipes[id].stages| && Begun(s.pipes[id].stages[j])
    ensures var p := Exec(Init(), steps).pipes[id];
            && p.stages[i].status == SSucceeded
            && p.stages[i].output == ArtifactId(id, i) == p.stages[i + 1].input
  {
    hide Exec, PipeOk, Inv, ArtifactId, StageOk;
    Reachable(steps);
    var s := Exec(Init(), steps);
    PipeAt(s, id);
    EarlierSucceeded(s.pipes[id], id, j, i);
    StageAt(s.pipes[id], id, i);
    LinkAt(s.pipes[id], id, i + 1);
  }

  /** A task has succeeded exactly when its last stage has; its result is that stage's output, the one final video. */
  lemma SucceedsWithItsLastStage(steps: seq<Step>, id: string)
    requires id in Exec(Init(), steps).pipes
    ensures var p := Exec(Init(), steps).pipes[id];
            && p.stages != []
            && var n := |p.stages| - 1;
            && (p.status == Succeeded <==> p.stages[n].status == SSucceeded)
            && (p.status == Succeeded ==>
                  && p.result == p.stages[n].output == ArtifactId(id, n)
                  && n in p.artifacts && p.artifacts[n].kind == FinalVideo
                  && (forall i | 0 <= i < n ::
                        && p.stages[i].status == SSucceeded && i in p.artifacts
                        && p.artifacts[i].kind == IntermediateVideo))
  {
    hide Exec, PipeOk, Inv, ArtifactId, StageOk;
    Reachable(steps);
    PipeAt(Exec(Init(), steps), id);
    var p := Exec(Init(), steps).pipes[id];
    var n := |p.stages| - 1;
    StageAt(p, id, n);
    if p.status == Succeeded {
      forall i | 0 <= i < n ensures p.stages[i].status == SSucceeded && i in p.artifacts
        && p.artifacts[i].kind == IntermediateVideo {
        EarlierSucceeded(p, id, n, i);
        StageAt(p, id, i);
      }
    }
  }
}
