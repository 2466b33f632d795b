/** What a lease on a stage is worth, and exactly when a stage is claimed. */
module StageLeases {
  import opened Domain
  import opened StageRun
  import opened StageAgents
  import opened StageSafety
  import opened StageTheorems

  /** Taken by somebody else, not a cancel of the task, and not a claim after the lease has run out. */
  predicate Outside(step: Step, id: string, token: string, expires: nat) {
    && (step.Go? || step.ClaimStage? ==> step.tok != token)
    && (step.ClaimStage? && step.id == id ==> step.now < expires)
    && step != CancelTask(id)
  }

  predicate Held(s: Sys, id: string, i: nat) {
    id in s.pipes && i < |s.pipes[id].stages| && s.pipes[id].stages[i].token != ""
  }

  /** A stage somebody else works on, or works late on, keeps everything but notes on its attempts. */
  lemma WorkOutside(p: Pipe, tok: string, a: Agent, w: World, i: nat)
    requires PipeOk(p, a.task) && a.stage < |p.stages| && i < |p.stages|
    requires p.stages[i].token != "" && p.stages[i].token != tok && tok != ""
    ensures var q := Work(p, tok, a, w).pipe;
            |q.stages| == |p.stages| && Noted(p.stages[i], q.stages[i])
  {
    hide PipeOk, Bind, OnlyNotes, ArtifactId, AllSettled, CanClaim;
    if p.stages[a.stage].token != tok {
      SupersededTokenIsHarmless(p, tok, a, w);
      Notes(p, Work(p, tok, a, w).pipe, a.stage, i);
    } else {
      HeldAlone(p, a.task, i, a.stage);
    }
  }

  lemma Notes(p: Pipe, q: Pipe, k: nat, i: nat)
    requires OnlyNotes(p, q, k) && i < |p.stages|
    ensures |q.stages| == |p.stages| && Noted(p.stages[i], q.stages[i])
  {
  }

  lemma LeaseExcludesStep(s: Sys, step: Step, id: string, i: nat)
    requires Inv(s) && Held(s, id, i)
    requires Outside(step, id, s.pipes[id].stages[i].token, s.pipes[id].stages[i].expires)
    ensures Held(Apply(s, step), id, i)
    ensures Noted(s.pipes[id].stages[i], Apply(s, step).pipes[id].stages[i])
  {
    hide Inv, PipeOk, Work, FindBarrier, Cancel, Clashes, Current;
    PipeAt(s, id);
    if step.Go? && step.tok in s.agents {
      InvAt(s, step.tok);
      if s.agents[step.tok].task == id {
        WorkOutside(s.pipes[id], step.tok, s.agents[step.tok], step.w, i);
      }
    }
  }

  /** As long as the lease runs, only its holder or a cancel changes anything but a note on an attempt. */
  lemma {:induction false} LeaseExcludes(s: Sys, steps: seq<Step>, id: string, i: nat)
    requires Inv(s) && Held(s, id, i)
    requires forall step | step in steps ::
               Outside(step, id, s.pipes[id].stages[i].token, s.pipes[id].stages[i].expires)
    ensures Held(Exec(s, steps), id, i)
    ensures Noted(s.pipes[id].stages[i], Exec(s, steps).pipes[id].stages[i])
    decreases |steps|
  {
    hide Inv, Apply, Outside;
    if steps != [] {
      LeaseExcludesStep(s, steps[0], id, i);
      StepKeeps(s, steps[0]);
      LeaseExcludes(Apply(s, steps[0]), steps[1..], id, i);
    }
  }

  /** The first stage of a running task that has not succeeded, and may still do so. */
  predicate IsNext(p: Pipe, i: nat) {
    && i < |p.stages|
    && !p.deleted && AdminCanCancel(p.status)
    && (forall j | 0 <= j < i :: p.stages[j].status == SSucceeded)
    && p.stages[i].status != SSucceeded && p.stages[i].status != SFailed && p.stages[i].status != SCancelled
  }

  /** Nobody has the stage, and its time has come. */
  predicate IsFree(st: Stage, now: nat) {
    (st.token == "" || st.expires <= now) && st.retryAt <= now
  }

  /** A live attempt binds the stage to its node; without one any node that is eligible may take it. */
  predicate Suits(st: Stage, node: string, eligible: bool) {
    && (st.preferred == "" || st.preferred == node)
    && if HasLive(st) then st.attempts[|st.attempts| - 1].node == node else eligible
  }

  lemma ClaimableExactly(p: Pipe, task: string, i: nat, node: string, now: nat, eligible: bool)
    requires PipeOk(p, task) && i < |p.stages|
    ensures CanClaim(p, i, node, now, eligible) <==>
            IsNext(p, i) && IsFree(p.stages[i], now) && Suits(p.stages[i], node, eligible)
  {
    hide PipeOk, SoloOk, TaskOk;
    StageAt(p, task, i);
    var st := p.stages[i];
    forall j | 0 <= j < i ensures Settled(p.stages[j].status) <==> p.stages[j].status == SSucceeded {
      StageAt(p, task, j);
    }
    if HasLive(st) {
      assert st.attempts[|st.attempts| - 1] in st.attempts;
    }
    assert forall a | a in st.attempts && Live(a) :: HasLive(st) && a == st.attempts[|st.attempts| - 1];
  }

  /**
   In every reachable state a new agent gets a stage exactly if no barrier closes its node, the stage
   is the next one of its task, nobody else's lease on it runs, and it suits the node.
   */
  lemma ClaimedExactly(steps: seq<Step>, tok: string, node: string, id: string, i: nat, now: nat, ttl: nat,
      eligible: bool)
    requires var s := Exec(Init(), steps); id in s.pipes && tok !in s.agents && tok != "" && node != ""
    ensures var s := Exec(Init(), steps);
            var p := s.pipes[id];
            var s' := Apply(s, ClaimStage(tok, node, id, i, now, ttl, eligible));
            && (tok in s'.agents <==>
                  && node !in s.barriers && IsNext(p, i) && IsFree(p.stages[i], now)
                  && Suits(p.stages[i], node, eligible))
            && (tok in s'.agents ==>
                  s'.pipes[id] == SetStage(p, i, p.stages[i].(status := SLeased, node := node, token := tok,
                                                              expires := now + ttl)))
            && (tok !in s'.agents ==> s' == s)
  {
    hide Exec, PipeOk, Inv, CanClaim, IsFree, Suits;
    Reachable(steps);
    var s := Exec(Init(), steps);
    PipeAt(s, id);
    if i < |s.pipes[id].stages| {
      ClaimableExactly(s.pipes[id], id, i, node, now, eligible);
    }
  }
}
