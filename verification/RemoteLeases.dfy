/** What a lease on a tk2sd run is worth: nobody else moves the run, and nobody waits longer than that. */
module RemoteLeases {
  import opened Domain
  import opened RemoteRun
  import opened RemoteAgents
  import opened RemoteSafety
  import opened RemoteTheorems

  /** Taken by somebody else, and not a claim of the lease after it has run out. */
  predicate Outside(step: Step, token: string, expires: nat) {
    ActorOf(step) != token && (step.Start? ==> step.now < expires)
  }

  predicate Held(s: Sys, id: string) {
    id in s.rows && s.rows[id].run.Some? && s.rows[id].run.value.token != ""
  }

  /** While the lease runs, others can do no more to the run than record that it is to be cancelled. */
  lemma LeaseExcludesStep(s: Sys, step: Step, id: string)
    requires Inv(s) && Held(s, id)
    requires Outside(step, s.rows[id].run.value.token, s.rows[id].run.value.expires)
    ensures Held(Apply(s, step), id)
    ensures var r, r' := s.rows[id].run.value, Apply(s, step).rows[id].run.value; r' == r.(cancel := r'.cancel)
  {
    hide Inv, Work, RowOk, AgentOk, ClaimEnabled;
    if step.Go? && step.tok in s.agents {
      InvAt(s, step.tok);
      var a := s.agents[step.tok];
      WorkIsTransaction(s.rows[a.task], step.tok, a, s.jobs, step.w);
    } else if step.Heartbeat? && step.tok in s.agents {
      InvAt(s, step.tok);
    } else if step.ClaimNext? && ClaimEnabled(s, step) {
      assert Claimable(s.rows[step.id]) by { OnlyFreeRows(s, step); }
    }
  }

  lemma OnlyFreeRows(s: Sys, step: Step)
    requires step.ClaimNext? && ClaimEnabled(s, step)
    ensures step.id in s.rows && Claimable(s.rows[step.id])
  {
    hide Admits, KeyOk;
  }

  /** Over whole runs. */
  lemma {:induction false} LeaseExcludes(s: Sys, steps: seq<Step>, id: string)
    requires Inv(s) && Held(s, id)
    requires forall step | step in steps :: Outside(step, s.rows[id].run.value.token, s.rows[id].run.value.expires)
    ensures Held(Exec(s, steps), id)
    ensures var r, r' := s.rows[id].run.value, Exec(s, steps).rows[id].run.value; r' == r.(cancel := r'.cancel)
    decreases |steps|
  {
    hide Inv, Apply, Outside;
    if steps != [] {
      LeaseExcludesStep(s, steps[0], id);
      StepKeeps(s, steps[0]);
      LeaseExcludes(Apply(s, steps[0]), steps[1..], id);
    }
  }

  /** The run is neither over nor parked. */
  predicate Live(r: Run) {
    r.phase != Terminal && !r.reconcile
  }

  /**
   In every reachable state a new agent gets a run exactly if it is live, of the agent's node and
   without a lease that still runs; it then holds the lease for its time.
   */
  lemma GrantedExactly(
    instance: string, steps: seq<Step>, tok: string, id: string, node: string, now: nat, ttl: int)
    requires var s := Exec(Init(instance), steps); id in s.rows && tok !in s.agents && tok != "" && ttl >= 1
    ensures var s := Exec(Init(instance), steps);
            var s' := Apply(s, Start(tok, id, node, now, ttl));
            var run := s.rows[id].run;
            && (tok in s'.agents <==>
                  && run.Some? && Live(run.value) && run.value.node == node
                  && (run.value.token == "" || run.value.expires <= now))
            && (tok in s'.agents ==>
                  s'.rows[id] == s.rows[id].(run := Some(run.value.(token := tok, expires := now + ttl))))
            && (tok !in s'.agents ==> s' == s)
  {
    hide Exec;
    Reachable(instance, steps);
    var s := Exec(Init(instance), steps);
    assert RowOk(s.instance, id, s.rows[id], s.jobs, s.seen);
  }

  /** A heartbeat extends a lease exactly in time, and changes nothing else. */
  lemma RenewsExactly(instance: string, steps: seq<Step>, tok: string, now: nat, ttl: int)
    requires tok in Exec(Init(instance), steps).agents && ttl >= 1
    ensures var s := Exec(Init(instance), steps);
            var s', id := Apply(s, Heartbeat(tok, now, ttl)), s.agents[tok].task;
            && id in s.rows && s.rows[id].run.Some?
            && var r := s.rows[id].run.value;
            if r.token == tok && now < r.expires
            then s' == s.(rows := s.rows[id := s.rows[id].(run := Some(r.(expires := now + ttl)))])
            else s' == s
  {
    hide Exec, Inv;
    Reachable(instance, steps);
    InvAt(Exec(Init(instance), steps), tok);
  }
}
