/** The unique keys do their work: in every run no two attempts on a node have the same execution. */
module StageUnique {
  import opened Domain
  import opened StageRun
  import opened StageAgents
  import opened StageSafety
  import opened StageTheorems

  predicate Unrivalled(pipes: map<string, Pipe>) {
    forall x, y | x in AllAttempts(pipes) && y in AllAttempts(pipes) ::
      x.node == y.node && x.execution == y.execution && x.execution != "" ==> x.id == y.id
  }

  /** The attempt is an earlier one as far as the key is concerned. */
  predicate SameKey(x: Attempt, y: Attempt) {
    x.id == y.id && x.node == y.node && x.execution == y.execution
  }

  /** An attempt with an execution was there before with it, or is the one that has just been bound. */
  predicate Known(before: seq<Attempt>, y: Attempt, id: string, execution: string) {
    || y.execution == ""
    || (exists x | x in before :: SameKey(x, y))
    || (var k := Find(before, id); k < |before| && y.id == id && y.node == before[k].node && y.execution == execution)
  }

  predicate Descends(p: Pipe, q: Pipe, i: nat, id: string, execution: string) {
    && |q.stages| == |p.stages|
    && forall j, y | 0 <= j < |p.stages| && y in q.stages[j].attempts ::
         if j == i then Known(p.stages[j].attempts, y, id, execution)
         else y.execution == "" || exists x | x in p.stages[j].attempts :: SameKey(x, y)
  }

  /* ---------- What a step does to the attempts ---------- */

  /** Attempts in place, with nothing new about their keys. */
  predicate Kept(before: seq<Attempt>, after: seq<Attempt>) {
    |after| == |before| && forall k | 0 <= k < |before| :: SameKey(before[k], after[k])
  }

  predicate KeptBut(p: Pipe, q: Pipe, i: nat) {
    && |q.stages| == |p.stages|
    && forall j | 0 <= j < |p.stages| && j != i :: Kept(p.stages[j].attempts, q.stages[j].attempts)
  }

  predicate AllKept(p: Pipe, q: Pipe) {
    |q.stages| == |p.stages| && forall j | 0 <= j < |p.stages| :: Kept(p.stages[j].attempts, q.stages[j].attempts)
  }

  lemma BoundIsKnown(before: seq<Attempt>, id: string, execution: string, y: Attempt)
    requires var k := Find(before, id);
             k < |before| && y in before[k := before[k].(execution := execution, status := ARunning)]
    ensures Known(before, y, id, execution)
  {
    var k := Find(before, id);
    var after := before[k := before[k].(execution := execution, status := ARunning)];
    var n :| 0 <= n < |after| && after[n] == y;
    if n != k {
      assert before[n] in before && SameKey(before[n], y);
    }
  }

  lemma BindKeeps(p: Pipe, i: nat, tok: string, id: string, execution: string)
    requires i < |p.stages|
    ensures var q := Bind(p, i, tok, id, execution).0;
            && KeptBut(p, q, i)
            && forall y | y in q.stages[i].attempts :: Known(p.stages[i].attempts, y, id, execution)
  {
    hide Known, SameKey;
    var q := Bind(p, i, tok, id, execution).0;
    var before, after := p.stages[i].attempts, q.stages[i].attempts;
    assert KeptBut(p, q, i) by { Untouched(p, q, i); }
    forall y | y in after ensures Known(before, y, id, execution) {
      if after == before {
        assert Known(before, y, id, execution) by { ItselfIsKnown(before, y, id, execution); }
      } else {
        BoundIsKnown(before, id, execution, y);
      }
    }
  }

  lemma ItselfIsKnown(before: seq<Attempt>, y: Attempt, id: string, execution: string)
    requires y in before
    ensures Known(before, y, id, execution)
  {
    assert SameKey(y, y);
  }

  lemma Untouched(p: Pipe, q: Pipe, i: nat)
    requires |q.stages| == |p.stages| && forall j | 0 <= j < |p.stages| && j != i :: q.stages[j] == p.stages[j]
    ensures KeptBut(p, q, i)
  {
  }

  lemma FailKeeps(p: Pipe, i: nat, tok: string, id: string, retryAt: nat, terminal: bool)
    requires Fail(p, i, tok, id, retryAt, terminal).Some?
    ensures AllKept(p, Fail(p, i, tok, id, retryAt, terminal).value)
  {
  }

  lemma CompleteKeeps(p: Pipe, tok: string, a: Agent, w: World)
    requires a.pc.Completing?
    ensures AllKept(p, Work(p, tok, a, w).pipe)
  {
    hide ArtifactId, AllSettled, Bind, Create, Fail, Renew, CanClaim, Live;
  }

  lemma WritesKeep(p: Pipe, tok: string, a: Agent, w: World)
    requires !a.pc.Binding? && !a.pc.Creating? && !a.pc.FailCreating?
    ensures AllKept(p, Work(p, tok, a, w).pipe)
  {
    hide Bind, Create, Fail, CompleteWithOutput, CanClaim, Live;
    if a.pc.Completing? {
      CompleteKeeps(p, tok, a, w);
    } else if a.pc.Failing? && Fail(p, a.stage, tok, a.pc.id, w.now, a.pc.fatal).Some? {
      FailKeeps(p, a.stage, tok, a.pc.id, w.now, a.pc.fatal);
    }
  }

  lemma CreateKeeps(p: Pipe, tok: string, a: Agent, w: World)
    requires a.stage < |p.stages| && (a.pc.Creating? || a.pc.FailCreating?)
    ensures var q := Work(p, tok, a, w).pipe;
            && KeptBut(p, q, a.stage)
            && forall y | y in q.stages[a.stage].attempts :: Known(p.stages[a.stage].attempts, y, "", "")
  {
    hide Bind, CompleteWithOutput, Fail, Renew, CanClaim;
  }

  lemma KeptIsKnown(before: seq<Attempt>, after: seq<Attempt>, y: Attempt)
    requires Kept(before, after) && y in after
    ensures exists x | x in before :: SameKey(x, y)
  {
    var k :| 0 <= k < |after| && after[k] == y;
    assert before[k] in before && SameKey(before[k], y);
  }

  lemma KeptDescends(p: Pipe, q: Pipe, i: nat, id: string, execution: string)
    requires KeptBut(p, q, i)
    requires i < |p.stages| ==> forall y | y in q.stages[i].attempts :: Known(p.stages[i].attempts, y, id, execution)
    ensures Descends(p, q, i, id, execution)
  {
    hide Kept, Known;
    forall j, y | 0 <= j < |p.stages| && j != i && y in q.stages[j].attempts
      ensures exists x | x in p.stages[j].attempts :: SameKey(x, y)
    {
      KeptIsKnown(p.stages[j].attempts, q.stages[j].attempts, y);
    }
  }

  /** The id and the execution an agent binds, if it does. */
  function Bound(pc: Pc): (string, string) {
    if pc.Binding? then (pc.id, pc.execution) else ("", "")
  }

  lemma WorkDescends(p: Pipe, tok: string, a: Agent, w: World)
    requires a.stage < |p.stages|
    ensures Descends(p, Work(p, tok, a, w).pipe, a.stage, Bound(a.pc).0, Bound(a.pc).1)
  {
    hide Kept, Known, Descends;
    var q := Work(p, tok, a, w).pipe;
    if a.pc.Binding? {
      hide Bind;
      BindKeeps(p, a.stage, tok, a.pc.id, a.pc.execution);
    } else if a.pc.Creating? || a.pc.FailCreating? {
      hide Work;
      CreateKeeps(p, tok, a, w);
    } else {
      hide Work;
      WritesKeep(p, tok, a, w);
      forall y | y in q.stages[a.stage].attempts ensures Known(p.stages[a.stage].attempts, y, "", "") {
        KeptIsKnown(p.stages[a.stage].attempts, q.stages[a.stage].attempts, y);
        OldIsKnown(p.stages[a.stage].attempts, y);
      }
    }
    KeptDescends(p, q, a.stage, Bound(a.pc).0, Bound(a.pc).1);
  }

  lemma OldIsKnown(before: seq<Attempt>, y: Attempt)
    requires exists x | x in before :: SameKey(x, y)
    ensures Known(before, y, "", "")
  {
  }

  /* ---------- The key stays unique ---------- */

  /** Where an attempt of the new state comes from. */
  lemma Origin(pipes: map<string, Pipe>, task: string, q: Pipe, i: nat, id: string, execution: string, y: Attempt)
    requires task in pipes && Descends(pipes[task], q, i, id, execution)
    requires y in AllAttempts(pipes[task := q]) && y.execution != ""
    ensures || (exists x | x in AllAttempts(pipes) :: SameKey(x, y))
            || (&& i < |pipes[task].stages| && y.id == id && y.execution == execution
                && var k := Find(pipes[task].stages[i].attempts, id);
                k < |pipes[task].stages[i].attempts| && y.node == pipes[task].stages[i].attempts[k].node)
  {
    var all := pipes[task := q];
    var t, st :| t in all && st in all[t].stages && y in st.attempts;
    if t != task {
      assert y in AllAttempts(pipes);
    } else {
      var j :| 0 <= j < |q.stages| && q.stages[j] == st;
      var before := pipes[task].stages[j].attempts;
      if x :| x in before && SameKey(x, y) {
        assert pipes[task].stages[j] in pipes[task].stages;
        assert x in AllAttempts(pipes);
      }
    }
  }

  lemma StaysUnrivalled(pipes: map<string, Pipe>, task: string, q: Pipe, i: nat, id: string, execution: string)
    requires Unrivalled(pipes) && task in pipes && Descends(pipes[task], q, i, id, execution)
    requires i < |pipes[task].stages| ==> !Rivalled(pipes, pipes[task].stages[i].attempts, id, execution)
    ensures Unrivalled(pipes[task := q])
  {
    hide Descends, AllAttempts;
    var all := pipes[task := q];
    forall x, y | x in AllAttempts(all) && y in AllAttempts(all) && x.node == y.node && x.execution == y.execution != ""
      ensures x.id == y.id
    {
      Origin(pipes, task, q, i, id, execution, x);
      Origin(pipes, task, q, i, id, execution, y);
    }
  }

  lemma CancelKeeps(p: Pipe, task: string)
    requires Cancel(p, task).Some?
    ensures AllKept(p, Cancel(p, task).value)
  {
    hide FindBarrier, Live;
  }

  lemma SelfKept(p: Pipe)
    ensures AllKept(p, p)
  {
  }

  lemma EnvironmentKeepsThem(s: Sys, step: Step, task: string)
    requires !step.Go? && task in s.pipes
    ensures task in Apply(s, step).pipes && AllKept(s.pipes[task], Apply(s, step).pipes[task])
  {
    hide Work, FindBarrier, Clashes, Current, CanClaim, Cancel;
    if step.CancelTask? && step.id == task && Cancel(s.pipes[task], task).Some? {
      CancelKeeps(s.pipes[task], task);
    } else {
      SelfKept(s.pipes[task]);
    }
  }

  lemma EnvironmentDescends(s: Sys, step: Step, task: string)
    requires !step.Go? && task in s.pipes
    ensures task in Apply(s, step).pipes && Descends(s.pipes[task], Apply(s, step).pipes[task], 0, "", "")
  {
    hide Apply, Kept, Known;
    EnvironmentKeepsThem(s, step, task);
    var p, q := s.pipes[task], Apply(s, step).pipes[task];
    if 0 < |p.stages| {
      forall y | y in q.stages[0].attempts ensures Known(p.stages[0].attempts, y, "", "") {
        KeptIsKnown(p.stages[0].attempts, q.stages[0].attempts, y);
        OldIsKnown(p.stages[0].attempts, y);
      }
    }
    KeptDescends(p, q, 0, "", "");
  }

  /** A step that is no agent's changes at most one task, or adds one without attempts. */
  lemma OneTask(s: Sys, step: Step) returns (task: string)
    requires !step.Go?
    ensures forall t | t in s.pipes ::
              && t in Apply(s, step).pipes
              && (t != task ==> Apply(s, step).pipes[t] == s.pipes[t])
    ensures forall t | t in Apply(s, step).pipes && t !in s.pipes ::
              t == task && forall st | st in Apply(s, step).pipes[t].stages :: st.attempts == []
  {
    hide Work, Claim, Cancel, FindBarrier, Clashes, Current;
    task := match step
      case NewTask(id, _) => id
      case ClaimStage(_, _, id, _, _, _, _) => id
      case CancelTask(id) => id
      case CancelQueued(id) => id
      case DeleteTask(id) => id
      case Rank(id, _) => id
      case _ => "";
  }

  lemma EnvironmentUnrivalled(s: Sys, step: Step)
    requires !step.Go? && Unrivalled(s.pipes)
    ensures Unrivalled(Apply(s, step).pipes)
  {
    hide Unrivalled, Descends, Apply, Rivalled;
    var task := OneTask(s, step);
    var after := Apply(s, step).pipes;
    if task in s.pipes {
      EnvironmentDescends(s, step, task);
      NoRival(s.pipes, s.pipes[task]);
      StaysUnrivalled(s.pipes, task, after[task], 0, "", "");
      assert after == s.pipes[task := after[task]];
    } else {
      NoNewAttempts(s.pipes, after, task);
    }
  }

  lemma UnrivalledStep(s: Sys, step: Step)
    requires Inv(s) && Unrivalled(s.pipes)
    ensures Unrivalled(Apply(s, step).pipes)
  {
    hide Inv, Unrivalled, Descends, Work;
    if !step.Go? {
      hide Apply;
      EnvironmentUnrivalled(s, step);
    } else if step.tok in s.agents {
      hide Apply;
      InvAt(s, step.tok);
      GoUnrivalled(s, step);
    }
  }

  lemma NoRival(pipes: map<string, Pipe>, p: Pipe)
    ensures 0 < |p.stages| ==> !Rivalled(pipes, p.stages[0].attempts, "", "")
  {
  }

  lemma NoNewAttempts(pipes: map<string, Pipe>, all: map<string, Pipe>, task: string)
    requires Unrivalled(pipes) && task !in pipes
    requires forall t | t in pipes :: t in all && all[t] == pipes[t]
    requires forall t | t in all && t !in pipes :: t == task && forall st | st in all[t].stages :: st.attempts == []
    ensures Unrivalled(all)
  {
    forall x | x in AllAttempts(all) ensures x in AllAttempts(pipes) {
      var t, st :| t in all && st in all[t].stages && x in st.attempts;
      assert t in pipes;
    }
  }

  lemma GoUnrivalled(s: Sys, step: Step)
    requires Inv(s) && Unrivalled(s.pipes) && step.Go? && step.tok in s.agents && s.agents[step.tok].task in s.pipes
    requires s.agents[step.tok].stage < |s.pipes[s.agents[step.tok].task].stages|
    ensures Unrivalled(Apply(s, step).pipes)
  {
    hide Inv, Unrivalled, Descends, Work, Rivalled;
    var a := s.agents[step.tok];
    var p := s.pipes[a.task];
    if Clashes(s.pipes, a) {
      assert s.pipes[a.task := p] == s.pipes;
    } else {
      WorkDescends(p, step.tok, a, step.w);
      if !a.pc.Binding? {
        Unbound(s.pipes, p.stages[a.stage].attempts);
      }
      StaysUnrivalled(s.pipes, a.task, Work(p, step.tok, a, step.w).pipe, a.stage, Bound(a.pc).0, Bound(a.pc).1);
    }
  }

  lemma Unbound(pipes: map<string, Pipe>, attempts: seq<Attempt>)
    ensures !Rivalled(pipes, attempts, "", "")
  {
  }

  lemma {:induction false} UnrivalledRun(s: Sys, steps: seq<Step>)
    requires Inv(s) && Unrivalled(s.pipes)
    ensures Unrivalled(Exec(s, steps).pipes)
    decreases |steps|
  {
    hide Inv, Unrivalled, Apply;
    if steps != [] {
      UnrivalledStep(s, steps[0]);
      StepKeeps(s, steps[0]);
      UnrivalledRun(Apply(s, steps[0]), steps[1..]);
    }
  }

  /** In every run: one execution on a node belongs to one attempt, whatever the agents bind and when. */
  lemma ExecutionsAreUnique(steps: seq<Step>)
    ensures Unrivalled(Exec(Init(), steps).pipes)
  {
    hide Exec;
    Reachable([]);
    assert Exec(Init(), []) == Init() by { NoSteps(); }
    assert AllAttempts(Init().pipes) == {};
    UnrivalledRun(Init(), steps);
  }

  lemma NoSteps()
    ensures Exec(Init(), []) == Init()
  {
  }
}
