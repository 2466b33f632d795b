/** Cancelling a task, and the barriers that keep its node closed until the execution is gone. */
module StageBarriers {
  import opened Domain
  import opened StageRun
  import opened StageAgents
  import opened StageSafety
  import opened StageTheorems

  /* ---------- Cancelling misses nothing ---------- */

  lemma {:induction false} LastLiveFinds(attempts: seq<Attempt>)
    ensures LastLive(attempts).None? ==> forall k | 0 <= k < |attempts| :: !Live(attempts[k])
    ensures LastLive(attempts).Some? ==>
            exists k :: 0 <= k < |attempts| && attempts[k] == LastLive(attempts).value && Live(attempts[k])
  {
    if attempts != [] && !Live(attempts[|attempts| - 1]) {
      LastLiveFinds(attempts[..|attempts| - 1]);
      if LastLive(attempts).Some? {
        var k :| 0 <= k < |attempts| - 1 && attempts[..|attempts| - 1][k] == LastLive(attempts).value;
        assert attempts[k] == LastLive(attempts).value;
      }
    }
  }

  /** A barrier names a live attempt: its stage, node and execution. */
  predicate Names(b: Barrier, stages: seq<Stage>, k: nat) {
    && b.stage < |stages| && k < |stages[b.stage].attempts|
    && var a := stages[b.stage].attempts[k];
    Live(a) && a.id == b.attempt && a.node == b.node && a.execution == b.execution
  }

  lemma {:induction false} FindBarrierFinds(task: string, stages: seq<Stage>)
    ensures var b := FindBarrier(task, stages);
            && (b.None? ==> forall i, k | 0 <= i < |stages|
                && 0 <= k < |stages[i].attempts| :: !Live(stages[i].attempts[k]))
            && (b.Some? ==> b.value.task == task && b.value.version == 1 && exists k :: Names(b.value, stages, k))
  {
    if stages != [] {
      var n := |stages| - 1;
      LastLiveFinds(stages[n].attempts);
      if LastLive(stages[n].attempts).None? {
        FindBarrierFinds(task, stages[..n]);
        if FindBarrier(task, stages).Some? {
          var k: nat :| Names(FindBarrier(task, stages).value, stages[..n], k);
          assert Names(FindBarrier(task, stages).value, stages, k);
        }
      } else {
        var k :| 0 <= k < |stages[n].attempts| && stages[n].attempts[k] == LastLive(stages[n].attempts).value;
        assert Names(FindBarrier(task, stages).value, stages, k);
      }
    }
  }

  /** A cancel ends every live attempt, and if there was one, exactly that one is behind the new barrier. */
  lemma CancelMissesNothing(steps: seq<Step>, id: string, i: nat, k: nat)
    requires var s := Exec(Init(), steps); id in s.pipes && Apply(s, CancelTask(id)) != s
    ensures var s := Exec(Init(), steps);
            var s' := Apply(s, CancelTask(id));
            && id in s'.pipes && s'.pipes[id].status == Cancelled && !LiveAt(s'.pipes[id], i, k)
            && (LiveAt(s.pipes[id], i, k) ==>
                  var a := s.pipes[id].stages[i].attempts[k];
                  && a.node !in s.barriers
                  && s'.barriers == s.barriers[a.node := Barrier(a.node, id, i, a.id, a.execution, 1)])
  {
    hide Exec, Inv, PipeOk, Cancel, PipeStep;
    Reachable(steps);
    var s := Exec(Init(), steps);
    var p := s.pipes[id];
    PipeAt(s, id);
    CancelStep(p, id);
    FindBarrierFinds(id, p.stages);
    var q := Cancel(p, id).value;
    StepOk("", id, p, q);
    if LiveAt(q, i, k) {
      LiveIsLast(q, id, i, k);
    }
    if LiveAt(p, i, k) {
      var b := FindBarrier(id, p.stages).value;
      var m: nat :| Names(b, p.stages, m);
      assert LiveAt(p, b.stage, m);
      OneLiveAttempt(steps, id, i, k, b.stage, m);
    }
  }

  /** What a cancel leaves of a stage: what has ended stands, the rest is cancelled and free. */
  predicate CalledOff(st: Stage, st': Stage) {
    && (st.status == SSucceeded || st.status == SFailed ==> st'.status == st.status && st'.output == st.output)
    && (st.status != SSucceeded && st.status != SFailed ==>
          st'.status == SCancelled && st'.token == "" && st'.expires == 0 && st'.retryAt == 0)
    && !HasLive(st') && st'.count == st.count
  }

  lemma CalledOffAll(p: Pipe, task: string, i: nat)
    requires PipeOk(p, task) && i < |p.stages| && p.status != Cancelled
    ensures CalledOff(p.stages[i], EndStage(p.stages[i]))
  {
    hide PipeOk, TaskOk;
    StageAt(p, task, i);
  }

  /** What the administrator's cancel makes of a task that has not ended. */
  lemma CancelMakes(p: Pipe, task: string)
    requires PipeOk(p, task)
    ensures Cancel(p, task).Some? <==> !p.deleted && !IsTerminal(p.status)
    ensures Cancel(p, task).Some? ==>
              var q := Cancel(p, task).value;
              && q.status == Cancelled && !q.deleted && q.result == p.result && q.artifacts == p.artifacts
              && |q.stages| == |p.stages|
              && (if IsQueued(p.status) then q.stages == p.stages
                  else && q.node == "" && q.active == None
                       && forall i | 0 <= i < |p.stages| :: q.stages[i] == EndStage(p.stages[i]))
  {
    hide PipeOk, EndStage, StageOk, FindBarrier;
    TaskAt(p, task);
    FindBarrierFinds(task, p.stages);
    if IsQueued(p.status) && FindBarrier(task, p.stages).Some? {
      var k: nat :| Names(FindBarrier(task, p.stages).value, p.stages, k);
      LiveIsLast(p, task, FindBarrier(task, p.stages).value.stage, k);
      StageAt(p, task, FindBarrier(task, p.stages).value.stage);
    }
  }

  /**
   In every reachable state a cancel takes effect exactly if the task has not ended and no barrier stands
   in the way; a queued task is just marked, any other one lets go of its node and of all open stages.
   */
  lemma CancelsExactly(steps: seq<Step>, id: string)
    requires id in Exec(Init(), steps).pipes
    ensures var s := Exec(Init(), steps);
            var s', p := Apply(s, CancelTask(id)), s.pipes[id];
            var barrier := FindBarrier(id, p.stages);
            if !p.deleted && !IsTerminal(p.status) && (barrier.Some? ==> barrier.value.node !in s.barriers) then
              && id in s'.pipes && s'.pipes == s.pipes[id := s'.pipes[id]] && s'.pipes[id].status == Cancelled
              && |s'.pipes[id].stages| == |p.stages|
              && (IsQueued(p.status) ==> s'.pipes[id].stages == p.stages)
              && (!IsQueued(p.status) ==>
                    && s'.pipes[id].node == "" && s'.pipes[id].active == None
                    && forall i | 0 <= i < |p.stages| :: CalledOff(p.stages[i], s'.pipes[id].stages[i]))
            else s' == s
  {
    hide Exec, Inv, PipeOk, Cancel, FindBarrier, EndStage, CalledOff;
    Reachable(steps);
    var s := Exec(Init(), steps);
    var p := s.pipes[id];
    PipeAt(s, id);
    CancelMakes(p, id);
    forall i | 0 <= i < |p.stages| && p.status != Cancelled ensures CalledOff(p.stages[i], EndStage(p.stages[i])) {
      CalledOffAll(p, id, i);
    }
  }

  /** Without a live attempt no barrier is set. */
  lemma IdleCancelSetsNoBarrier(s: Sys, id: string)
    requires id in s.pipes && forall i, k :: !LiveAt(s.pipes[id], i, k)
    ensures Apply(s, CancelTask(id)).barriers == s.barriers
  {
    hide Cancel;
    var b := FindBarrier(id, s.pipes[id].stages);
    FindBarrierFinds(id, s.pipes[id].stages);
    forall k: nat | b.Some? ensures !Names(b.value, s.pipes[id].stages, k) {
      assert !LiveAt(s.pipes[id], b.value.stage, k);
    }
  }

  /* ---------- Compare and set ---------- */

  /** Both records are about the same attempt. */
  predicate SameBarrier(a: Barrier, b: Barrier) {
    a.node == b.node && a.task == b.task && a.stage == b.stage && a.attempt == b.attempt
  }

  /** The attempt behind a barrier has ended, for ever. */
  predicate Ended(pipes: map<string, Pipe>, b: Barrier) {
    && b.task in pipes && b.stage < |pipes[b.task].stages|
    && forall k | 0 <= k < |pipes[b.task].stages[b.stage].attempts| ::
         pipes[b.task].stages[b.stage].attempts[k].id == b.attempt ==> !Live(pipes[b.task].stages[b.stage].attempts[k])
  }

  predicate Known(pipes: map<string, Pipe>, b: Barrier) {
    && b.task in pipes && b.stage < |pipes[b.task].stages|
    && exists k :: 0 <= k < |pipes[b.task].stages[b.stage].attempts|
        && pipes[b.task].stages[b.stage].attempts[k].id == b.attempt
  }

  /** What a reader holds is an earlier version of the stored barrier, if that is still the same barrier. */
  predicate Behind(l: Barrier, b: Barrier) {
    SameBarrier(l, b) ==> l.version <= b.version && (l.version == b.version ==> l == b)
  }

  predicate BarriersOk(s: Sys) {
    && (forall n | n in s.barriers ::
          && s.barriers[n].node == n && Ended(s.pipes, s.barriers[n])
          && Known(s.pipes, s.barriers[n]))
    && (forall t | t in s.readers :: Ended(s.pipes, s.readers[t]) && Known(s.pipes, s.readers[t]))
    && (forall t, n | t in s.readers && n in s.barriers :: Behind(s.readers[t], s.barriers[n]))
  }

  lemma StaysEnded(s: Sys, step: Step, b: Barrier)
    requires Inv(s) && Ended(s.pipes, b) && Known(s.pipes, b)
    ensures Ended(Apply(s, step).pipes, b) && Known(Apply(s, step).pipes, b)
  {
    hide Inv, PipeOk, Apply, StageOk, StageFenced;
    EveryPipeSteps(s, step, b.task);
    var p, q := s.pipes[b.task], Apply(s, step).pipes[b.task];
    var actor :| PipeStep(actor, b.task, p, q);
    assert StageStep(actor, p.stages[b.stage], q.stages[b.stage]);
    StepOk(actor, b.task, p, q);
    StageAt(q, b.task, b.stage);
    var m :| 0 <= m < |p.stages[b.stage].attempts| && p.stages[b.stage].attempts[m].id == b.attempt;
    var attempts := q.stages[b.stage].attempts;
    assert attempts[m].id == b.attempt && !Live(attempts[m]);
    forall k | 0 <= k < |attempts| && attempts[k].id == b.attempt ensures !Live(attempts[k]) {
      SameIdSameAttempt(q.stages[b.stage], k, m);
    }
  }

  lemma SameIdSameAttempt(st: Stage, k: nat, m: nat)
    requires StageOk(st) && k < |st.attempts| && m < |st.attempts| && st.attempts[k].id == st.attempts[m].id
    ensures k == m
  {
  }

  lemma AllStayEnded(s: Sys, step: Step)
    requires Inv(s) && BarriersOk(s)
    ensures forall n | n in s.barriers ::
              && Ended(Apply(s, step).pipes, s.barriers[n])
              && Known(Apply(s, step).pipes, s.barriers[n])
    ensures forall t | t in s.readers ::
              && Ended(Apply(s, step).pipes, s.readers[t])
              && Known(Apply(s, step).pipes, s.readers[t])
  {
    hide Inv, Ended, Known, Apply;
    forall n | n in s.barriers ensures Ended(Apply(s, step).pipes, s.barriers[n])
      && Known(Apply(s, step).pipes, s.barriers[n]) {
      StaysEnded(s, step, s.barriers[n]);
    }
    forall t | t in s.readers ensures Ended(Apply(s, step).pipes, s.readers[t])
      && Known(Apply(s, step).pipes, s.readers[t]) {
      StaysEnded(s, step, s.readers[t]);
    }
  }

  /** A new barrier is about an attempt that was live, so no reader has seen it before. */
  lemma NewBarrier(s: Sys, id: string)
    requires Inv(s) && BarriersOk(s) && id in s.pipes && Cancel(s.pipes[id], id).Some?
             && FindBarrier(id, s.pipes[id].stages).Some?
    ensures var b := FindBarrier(id, s.pipes[id].stages).value;
            var pipes := s.pipes[id := Cancel(s.pipes[id], id).value];
            && Ended(pipes, b) && Known(pipes, b)
            && (forall t | t in s.readers :: !SameBarrier(s.readers[t], b))
  {
    hide Inv, PipeOk, Cancel, StageOk, StageFenced, Behind, FindBarrier;
    var p := s.pipes[id];
    var b := FindBarrier(id, p.stages).value;
    PipeAt(s, id);
    CancelStep(p, id);
    var q := Cancel(p, id).value;
    FindBarrierFinds(id, p.stages);
    var k: nat :| Names(b, p.stages, k);
    StepOk("", id, p, q);
    assert StageStep("", p.stages[b.stage], q.stages[b.stage]);
    assert q.stages[b.stage].attempts[k].id == b.attempt;
    forall m | 0 <= m < |q.stages[b.stage].attempts| ensures !Live(q.stages[b.stage].attempts[m]) {
      if LiveAt(q, b.stage, m) { LiveIsLast(q, id, b.stage, m); }
    }
  }

  /** Reading, deferring, binding and lifting. */
  lemma ReaderStep(s: Sys, step: Step)
    requires BarriersOk(s) && (step.ReadBarrier? || step.BindBarrier? || step.DeferBarrier? || step.LiftBarrier?)
    ensures BarriersOk(Apply(s, step))
  {
    hide Ended, Known;
    if (step.BindBarrier? || step.DeferBarrier?) && Current(s, step.tok) {
      var l := s.readers[step.tok];
      var b := s.barriers[l.node];
      var execution := if step.BindBarrier? then step.execution else b.execution;
      EndedRegardless(s.pipes, b, Bump(b, execution));
      EndedRegardless(s.pipes, l, Bump(l, execution));
    }
  }

  lemma BarrierStep(s: Sys, step: Step)
    requires Inv(s) && BarriersOk(s)
    ensures BarriersOk(Apply(s, step))
  {
    hide Inv, Ended, Known, Work, Claim, Cancel, FindBarrier, Current, Behind;
    AllStayEnded(s, step);
    if step.CancelTask? {
      if step.id in s.pipes && Cancel(s.pipes[step.id], step.id).Some?
         && FindBarrier(step.id, s.pipes[step.id].stages).Some? {
        NewBarrier(s, step.id);
        forall t | t in s.readers ensures Behind(s.readers[t], FindBarrier(step.id, s.pipes[step.id].stages).value) {
          Unrelated(s.readers[t], FindBarrier(step.id, s.pipes[step.id].stages).value);
        }
      }
    } else if step.ReadBarrier? || step.BindBarrier? || step.DeferBarrier? || step.LiftBarrier? {
      ReaderStep(s, step);
    }
  }

  lemma Unrelated(l: Barrier, b: Barrier)
    requires !SameBarrier(l, b)
    ensures Behind(l, b)
  {
  }

  lemma EndedRegardless(pipes: map<string, Pipe>, a: Barrier, b: Barrier)
    requires SameBarrier(a, b) && Ended(pipes, a) && Known(pipes, a)
    ensures Ended(pipes, b) && Known(pipes, b)
  {
  }

  lemma {:induction false} ExecBarriers(s: Sys, steps: seq<Step>)
    requires Inv(s) && BarriersOk(s)
    ensures BarriersOk(Exec(s, steps))
    decreases |steps|
  {
    hide Inv, BarriersOk, Apply;
    if steps != [] {
      BarrierStep(s, steps[0]);
      StepKeeps(s, steps[0]);
      ExecBarriers(Apply(s, steps[0]), steps[1..]);
    }
  }

  /**
   When a reader's version is the stored one, the stored barrier is what the reader holds if and
   only if it is about the same attempt.  The store compares versions only.
   */
  lemma VersionsIdentifyWithinOneBarrier(steps: seq<Step>, tok: string)
    requires Current(Exec(Init(), steps), tok)
    ensures var s := Exec(Init(), steps);
            var stored := s.barriers[s.readers[tok].node];
            stored == s.readers[tok] <==> SameBarrier(stored, s.readers[tok])
  {
    hide Apply, Inv, Ended, Known;
    assert Inv(Init()) && BarriersOk(Init()) by { EmptyIsOk(); }
    ExecBarriers(Init(), steps);
    var s := Exec(Init(), steps);
    assert Behind(s.readers[tok], s.barriers[s.readers[tok].node]);
  }

  lemma EmptyIsOk()
    ensures Inv(Init()) && BarriersOk(Init())
  {
  }

  /* ---------- How a barrier goes ---------- */

  /** A node is opened only by a reader that knows an execution and holds the stored version. */
  lemma OpenedOnlyKnowing(s: Sys, step: Step, node: string)
    requires node in s.barriers && node !in Apply(s, step).barriers
    ensures step.LiftBarrier? && step.tok in s.readers && s.readers[step.tok].node == node
    ensures s.readers[step.tok].execution != "" && s.readers[step.tok].version == s.barriers[node].version
  {
    hide Work, Claim, Cancel, FindBarrier, Clashes;
  }

  /** And it can always be opened: by reading, naming the execution if it is not known yet, and lifting. */
  lemma BarrierCanGo(s: Sys, node: string, tok: string, execution: string)
    requires node in s.barriers && s.barriers[node].node == node && tok !in s.readers && execution != ""
    ensures var known := Exec(s, [ReadBarrier(tok, node), BindBarrier(tok, execution)]);
            && known.pipes == s.pipes && tok in known.readers && node in known.barriers
            && known.barriers[node] == known.readers[tok]
            && known.barriers[node].execution
                == (if s.barriers[node].execution == "" then execution else s.barriers[node].execution)
            && SameBarrier(known.barriers[node], s.barriers[node])
            && Apply(known, LiftBarrier(tok)) == known.(barriers := s.barriers - {node})
  {
    hide Work, Claim, Cancel, FindBarrier, Clashes;
    var read, bind := ReadBarrier(tok, node), BindBarrier(tok, execution);
    var s1 := Apply(s, read);
    var s2 := Apply(s1, bind);
    assert Exec(s, [read, bind]) == Exec(s1, [bind]) == Exec(s2, []) == s2 by {
      assert [read, bind][1..] == [bind] && [bind][1..] == [];
    }
    assert s2.barriers - {node} == s.barriers - {node};
  }

  /** A check that finds the execution still at work puts everybody else's copy out of date. */
  lemma DeferringOutdates(s: Sys, tok: string, other: string)
    requires Current(s, tok) && other in s.readers && s.readers[other].node == s.readers[tok].node
    requires s.readers[other].version <= s.barriers[s.readers[tok].node].version
    ensures var s' := Apply(s, DeferBarrier(tok));
            other in s'.readers && !Current(s', other) && s'.barriers.Keys == s.barriers.Keys && s'.pipes == s.pipes
  {
  }
}
