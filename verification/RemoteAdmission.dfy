/** Slot admission against a snapshot of the node's capacity that may be stale. */
module RemoteAdmission {
  import opened Domain
  import opened RemoteRun
  import opened RemoteAgents
  import opened RemoteSafety
  import opened RemoteTheorems

  /** Active slots of ours that the snapshot does not count among its leases. */
  function Unleased(rows: map<string, Row>, node: string, leased: set<string>): set<string> {
    ActiveOn(rows, node) - OverlapOn(rows, node, leased)
  }

  /** Our uncounted slots, what the node says is occupied and what is cooling fit its capacity. */
  predicate Fits(s: Sys, node: string, a: Admission) {
    |Unleased(s.rows, node, a.leased)| + a.occupied + a.cooling <= a.capacity
  }

  predicate SameSnapshot(step: Step, node: string, a: Admission) {
    step.ClaimNext? && step.node == node ==> step.admission == Some(a)
  }

  /** Splitting the active slots by the snapshot. */
  lemma SlotsSplit(rows: map<string, Row>, node: string, leased: set<string>)
    ensures |ActiveOn(rows, node)| == |Unleased(rows, node, leased)| + |OverlapOn(rows, node, leased)|
  {
    assert ActiveOn(rows, node) == Unleased(rows, node, leased) + OverlapOn(rows, node, leased);
  }

  /** A report that makes sense and says that the node takes work. */
  predicate Usable(a: Admission) {
    && a.canDispatch && a.queued <= 0
    && 1 <= a.capacity && 0 <= a.occupied && 0 <= a.cooling && a.occupied + a.cooling <= a.capacity
  }

  /**
   A task is admitted exactly when one more slot fits the argument and the configured limit and,
   under a usable report that does not claim fewer leases than it lists, one more slot fits what the
   report leaves beside the slots of ours it does not count.
   */
  lemma AdmitsExactly(rows: map<string, Row>, node: string, configured: int, argument: int,
      admission: Option<Admission>)
    ensures Admits(rows, node, configured, argument, admission) <==>
              && 1 <= argument && |ActiveOn(rows, node)| + 1 <= argument && |ActiveOn(rows, node)| + 1 <= configured
              && (admission.Some? ==>
                    var a := admission.value;
                    && Usable(a) && |OverlapOn(rows, node, a.leased)| <= a.occupied
                    && |Unleased(rows, node, a.leased)| + 1 + a.occupied + a.cooling <= a.capacity)
  {
    hide ActiveOn, OverlapOn, Unleased;
    if admission.Some? {
      SlotsSplit(rows, node, admission.value.leased);
    }
  }

  /** A successful claim takes one slot, uncounted by any snapshot. */
  lemma ClaimTakesOne(s: Sys, step: Step, leased: set<string>)
    requires step.ClaimNext? && ClaimEnabled(s, step)
    ensures ActiveOn(Apply(s, step).rows, step.node) == ActiveOn(s.rows, step.node) + {step.id}
    ensures step.id !in ActiveOn(s.rows, step.node)
    ensures Unleased(Apply(s, step).rows, step.node, leased) == Unleased(s.rows, step.node, leased) + {step.id}
  {
    hide Admits, KeyOk, SubmissionKey;
  }

  /** A claim that succeeds leaves its node within both configured limits. */
  lemma ClaimRespectsLimits(s: Sys, step: Step)
    requires step.ClaimNext? && ClaimEnabled(s, step)
    ensures |ActiveOn(Apply(s, step).rows, step.node)| <= Min(step.capacity, step.configured)
  {
    hide ActiveOn, OverlapOn, Apply, KeyOk, SubmissionKey;
    ClaimTakesOne(s, step, {});
  }

  /** The first claim under a snapshot establishes the bound, whatever the state was. */
  lemma ClaimEstablishes(s: Sys, step: Step, a: Admission)
    requires step.ClaimNext? && ClaimEnabled(s, step) && step.admission == Some(a)
    ensures Fits(Apply(s, step), step.node, a)
  {
    hide ActiveOn, OverlapOn, Apply;
    ClaimTakesOne(s, step, a.leased);
    SlotsSplit(s.rows, step.node, a.leased);
  }

  /** Only a claim of this very task makes its run. */
  lemma RunsComeFromClaims(s: Sys, step: Step, id: string)
    requires Inv(s) && id in s.rows && s.rows[id].run.None? && Apply(s, step).rows[id].run.Some?
    ensures step.ClaimNext? && step.id == id && ClaimEnabled(s, step)
    ensures Apply(s, step).rows[id].task.node == step.node
  {
    hide RowsOk, AgentsOk, LogOk, AgentOk, RowOk, Work, Admits, KeyOk;
    if step.Go? && step.tok in s.agents {
      InvAt(s, step.tok);
      var a := s.agents[step.tok];
      WorkIsTransaction(s.rows[a.task], step.tok, a, s.jobs, step.w);
    }
  }

  /** An uncounted slot was there before, unless this step claimed it. */
  lemma SlotWasThere(actor: string, key: string, a: Row, b: Row, node: string)
    requires RowInv(key, a) && RowStep(actor, key, a, b) && a.run.Some?
    requires b.task.slot && b.task.node == node
    ensures a.task.slot && a.task.node == node
    ensures a.run.value.upstream != "" ==> b.run.Some? && b.run.value.upstream == a.run.value.upstream
  {
  }

  lemma OnlyClaimsAdd(s: Sys, step: Step, node: string, leased: set<string>)
    requires Inv(s) && !(step.ClaimNext? && step.node == node && ClaimEnabled(s, step))
    ensures Unleased(Apply(s, step).rows, node, leased) <= Unleased(s.rows, node, leased)
  {
    var s' := Apply(s, step);
    forall id | id in Unleased(s'.rows, node, leased)
      ensures id in Unleased(s.rows, node, leased)
    {
      if id in s.rows {
        SlotStays(s, step, node, leased, id);
      } else {
        NewRowsAreIdle(s, step, id);
      }
    }
  }

  lemma NewRowsAreIdle(s: Sys, step: Step, id: string)
    requires Inv(s) && id !in s.rows && id in Apply(s, step).rows
    ensures !Apply(s, step).rows[id].task.slot
  {
    hide RowsOk, AgentsOk, LogOk, Work, Admits;
    if step.Go? && step.tok in s.agents {
      InvAt(s, step.tok);
      WorkIsTransaction(s.rows[s.agents[step.tok].task], step.tok, s.agents[step.tok], s.jobs, step.w);
    }
  }

  lemma SlotStays(s: Sys, step: Step, node: string, leased: set<string>, id: string)
    requires Inv(s) && id in s.rows && id in Unleased(Apply(s, step).rows, node, leased)
    requires !(step.ClaimNext? && step.node == node && ClaimEnabled(s, step))
    ensures id in Unleased(s.rows, node, leased)
  {
    hide Apply, AgentsOk, LogOk, RunOk, Evolves, ClaimEnabled;
    var s' := Apply(s, step);
    EveryRowSteps(s, step, id);
    assert RowOk(s.instance, id, s.rows[id], s.jobs, s.seen);
    if s.rows[id].run.None? {
      RunsComeFromClaims(s, step, id);
    } else {
      SlotWasThere(ActorOf(step), SubmissionKey(s.instance, id), s.rows[id], s'.rows[id], node);
    }
  }

  lemma AdmissionStep(s: Sys, step: Step, node: string, a: Admission)
    requires Inv(s) && Fits(s, node, a) && SameSnapshot(step, node, a)
    ensures Fits(Apply(s, step), node, a)
  {
    hide Unleased, Apply, ClaimEnabled, Inv;
    if step.ClaimNext? && step.node == node && ClaimEnabled(s, step) {
      ClaimEstablishes(s, step, a);
    } else {
      OnlyClaimsAdd(s, step, node, a.leased);
      SubsetSize(Unleased(Apply(s, step).rows, node, a.leased), Unleased(s.rows, node, a.leased));
    }
  }

  /** Any number of claims under one snapshot, interleaved with anything else, stay within it. */
  lemma {:induction false} AdmissionHolds(s: Sys, steps: seq<Step>, node: string, a: Admission)
    requires Inv(s) && Fits(s, node, a)
    requires forall i | 0 <= i < |steps| :: SameSnapshot(steps[i], node, a)
    ensures Fits(Exec(s, steps), node, a)
    decreases |steps|
  {
    hide Inv, Fits, Apply;
    if steps != [] {
      AdmissionStep(s, steps[0], node, a);
      StepKeeps(s, steps[0]);
      AdmissionHolds(Apply(s, steps[0]), steps[1..], node, a);
    }
  }

  /** From the first successful claim on, for the rest of the run. */
  lemma AdmissionAfterFirstClaim(s: Sys, claim: Step, steps: seq<Step>, a: Admission)
    requires Inv(s) && claim.ClaimNext? && ClaimEnabled(s, claim) && claim.admission == Some(a)
    requires forall i | 0 <= i < |steps| :: SameSnapshot(steps[i], claim.node, a)
    ensures Fits(Exec(Apply(s, claim), steps), claim.node, a)
  {
    hide Inv, Fits, Apply, ClaimEnabled;
    ClaimEstablishes(s, claim, a);
    StepKeeps(s, claim);
    AdmissionHolds(Apply(s, claim), steps, claim.node, a);
  }
}
