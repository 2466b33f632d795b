/**
 How tk2sd runs end: the final status of a task is what the upstream said last, or one of the
 three local reasons, and nothing else; and what the upstream said last is what gets stored.
 */
module RemoteOutcomes {
  import opened Domain
  import opened RemoteRun
  import opened RemoteAgents
  import opened RemoteSafety
  import opened RemoteTheorems

  type Report = (string, Upstream)

  /* ---------- What the upstream has said ---------- */

  /** The agent asks the upstream to cancel. */
  predicate AsksToCancel(a: Agent) {
    a.pc == Judging(UQueued) && a.local.cancel == Requested
  }

  /** What an agent is told about its task in one step. */
  function Hears(a: Agent, w: World): set<Report> {
    if a.pc.Polling? then (if w.query.Answer? then {(a.task, w.query.status)} else {})
    else if AsksToCancel(a) then
      match w.cancel
      case CancelDone => {(a.task, UCancelled)}
      case Cancel409 => if w.confirm.Answer? then {(a.task, w.confirm.status)} else {}
      case CancelFailed => {}
    else {}
  }

  function HeardIn(s: Sys, step: Step): set<Report> {
    if step.Go? && step.tok in s.agents then Hears(s.agents[step.tok], step.w) else {}
  }

  /** Everything the upstream said during a run. */
  function Said(s: Sys, steps: seq<Step>): set<Report>
    decreases |steps|
  {
    if steps == [] then {} else HeardIn(s, steps[0]) + Said(Apply(s, steps[0]), steps[1..])
  }

  /* ---------- How rows end ---------- */

  /** Task and run agree about the end, and there is a reason for it. */
  predicate Outcome(id: string, t: Task, r: Run, said: set<Report>) {
    && IsConclusive(r.upstreamStatus)
    && (r.upstreamStatus == UFailed <==> t.status == Failed)
    && (r.upstreamStatus == UCancelled <==> t.status == Cancelled)
    && (r.upstreamStatus == USucceeded <==> t.status == Succeeded || t.status == Reconciling || t.status == Cancelling)
    && (r.upstreamStatus == UCancelled <==> r.cancel == Confirmed) && r.cancel != Requested
    && (r.upstreamStatus == USucceeded ==>
          && (id, USucceeded) in said && t.error == NoError && t.internalUrl != ""
          && (t.status == Succeeded <==> !t.delivery)
          && t.publicUrl == (if t.delivery then "" else t.internalUrl))
    && (r.upstreamStatus != USucceeded ==> t.internalUrl == "" && t.publicUrl == "")
    && (r.upstreamStatus == UFailed ==>
          && (t.error == GenerationFailed || t.error == InputFailed || t.error == SubmitRejected)
          && (t.error == GenerationFailed ==> (id, UFailed) in said)
          && (t.error == InputFailed ==> r.attempts == 0))
    && (r.upstreamStatus == UCancelled ==> t.error == NoError && ((id, UCancelled) in said || r.attempts == 0))
  }

  /** A live run has no result and shows only what was seen of it. */
  predicate Unsettled(id: string, t: Task, r: Run, said: set<Report>) {
    && !IsConclusive(r.upstreamStatus) && t.internalUrl == "" && t.publicUrl == ""
    && (r.upstreamStatus == URunning ==> (id, URunning) in said)
  }

  predicate Settles(id: string, row: Row, said: set<Report>) {
    match row.run
    case None => row.task.internalUrl == "" && row.task.publicUrl == ""
    case Some(r) =>
      && row.task.node == r.node
      && (r.phase == Terminal ==> Outcome(id, row.task, r, said))
      && (r.phase != Terminal ==> Unsettled(id, row.task, r, said))
  }

  /** The completion an agent is about to store has its reason. */
  predicate Founded(c: Completion, l: Run, id: string, delivery: bool, said: set<Report>) {
    match c.status
    case USucceeded => c.url != "" && c.error == NoError && (c.upload <==> delivery) && (id, USucceeded) in said
    case UFailed =>
      && c.url == ""
      && (|| (c.error == GenerationFailed && (id, UFailed) in said)
          || (c.error == InputFailed && l.phase == Preparing)
          || c.error == SubmitRejected)
    case UCancelled =>
      && c.url == "" && c.error == NoError
      && ((id, UCancelled) in said || l.phase == Preparing || l.phase == Prepared)
    case _ => false
  }

  predicate Backed(a: Agent, row: Row, said: set<Report>) {
    match a.pc
    case Materialising => a.local.phase == Preparing
    case Rereading(answer) => (a.task, answer) in said
    case Judging(answer) => (a.task, answer) in said
    case Observing(status, _) => (a.task, status) in said
    case Finishing(c) => Founded(c, a.local, a.task, row.task.delivery, said)
    case _ => true
  }

  predicate RowsSettle(s: Sys, said: set<Report>) {
    forall id | id in s.rows :: Settles(id, s.rows[id], said)
  }

  predicate AgentsBacked(s: Sys, said: set<Report>) {
    forall tok | tok in s.agents ::
      s.agents[tok].task in s.rows && Backed(s.agents[tok], s.rows[s.agents[tok].task], said)
  }

  /* ---------- One step ---------- */

  /** Storing a founded completion. */
  lemma CompleteSettles(instance: string, tok: string, row: Row, a: Agent, now: nat, jobs: Jobs, seen: set<string>,
      said: set<Report>)
    requires RowOk(instance, a.task, row, jobs, seen) && AgentOk(instance, tok, a, row, jobs, seen)
    requires Settles(a.task, row, said) && Backed(a, row, said) && a.pc.Finishing?
    requires Complete(row, a.node, tok, now, a.pc.completion).Some?
    ensures Settles(a.task, Complete(row, a.node, tok, now, a.pc.completion).value, said)
  {
    hide SubmissionKey, PcOk;
  }

  lemma ObserveSettles(id: string, row: Row, node: string, tok: string, now: nat, status: Upstream,
      cancel: CancelState, said: set<Report>)
    requires Settles(id, row, said) && (id, status) in said && Observe(row, node, tok, now, status, cancel).Some?
    ensures Settles(id, Observe(row, node, tok, now, status, cancel).value, said)
  {
  }

  /** The other transactions of an agent leave a live run live. */
  lemma OthersSettle(id: string, row: Row, tok: string, a: Agent, w: World, said: set<Report>)
    requires Settles(id, row, said) && !a.pc.Finishing? && !a.pc.Observing? && Transaction(row, tok, a, w).Some?
    ensures Settles(id, Transaction(row, tok, a, w).value, said)
  {
    hide Complete, Observe;
  }

  lemma WorkSettles(instance: string, tok: string, row: Row, a: Agent, jobs: Jobs, seen: set<string>, w: World,
      said: set<Report>)
    requires RowOk(instance, a.task, row, jobs, seen) && AgentOk(instance, tok, a, row, jobs, seen)
    requires Settles(a.task, row, said) && Backed(a, row, said)
    ensures Settles(a.task, Work(row, tok, a, jobs, w).row, said)
  {
    hide Work, Complete, Observe, Prepare, Begin, Bind, Release, Settles, RowOk, AgentOk;
    WorkIsTransaction(row, tok, a, jobs, w);
    if Transaction(row, tok, a, w).Some? {
      if a.pc.Finishing? {
        CompleteSettles(instance, tok, row, a, w.now, jobs, seen, said);
      } else if a.pc.Observing? {
        ObserveSettles(a.task, row, a.node, tok, w.now, a.pc.status, a.pc.cancel, said);
      } else {
        OthersSettle(a.task, row, tok, a, w, said);
      }
    }
  }

  /** No transaction changes whether a delivery is asked for. */
  lemma SameDelivery(row: Row, tok: string, a: Agent, jobs: Jobs, w: World)
    ensures Work(row, tok, a, jobs, w).row.task.delivery == row.task.delivery
  {
    hide Work;
    WorkIsTransaction(row, tok, a, jobs, w);
  }

  lemma JudgeBacks(row: Row, a: Agent, jobs: Jobs, w: World, said: set<Report>)
    requires a.pc.Judging? && Backed(a, row, said) && Hears(a, w) <= said
    ensures Backed(Judge(row, a, jobs, a.pc.answer, w).agent, row, said)
  {
    assert w.cancel.Cancel409? && AsksToCancel(a) && w.confirm.Answer? ==> (a.task, w.confirm.status) in Hears(a, w);
    assert w.cancel.CancelDone? && AsksToCancel(a) ==> (a.task, UCancelled) in Hears(a, w);
  }

  /** What an agent holds after its step has its reason in what was said by then. */
  lemma WorkBacks(row: Row, tok: string, a: Agent, jobs: Jobs, w: World, said: set<Report>)
    requires Backed(a, row, said) && Hears(a, w) <= said
    ensures var e := Work(row, tok, a, jobs, w); Backed(e.agent, e.row, said)
  {
    hide Prepare, Begin, Bind, Observe, Complete, Release, Judge, EvidenceOk, CanCreate;
    SameDelivery(row, tok, a, jobs, w);
    if a.pc.Judging? {
      JudgeBacks(row, a, jobs, w, said);
    } else if a.pc.Polling? {
      assert w.query.Answer? ==> (a.task, w.query.status) in Hears(a, w);
    }
  }

  /** The transactions of everyone else, on a row. */
  lemma RowSettles(key: string, id: string, row: Row, said: set<Report>, node: string, tok: string, now: nat, ttl: int,
      delivery: bool)
    requires RowInv(key, row) && Settles(id, row, said)
    ensures Claimable(row) ==> Settles(id, Claim(row, node, key, delivery), said)
    ensures var b := Acquire(row, node, tok, now, ttl); b.Some? ==> Stands(id, row, b.value, said)
    ensures var b := Renew(row, node, tok, now, ttl); b.Some? ==> Stands(id, row, b.value, said)
    ensures RequestCancel(row).Recorded? ==> Stands(id, row, RequestCancel(row).row, said)
    ensures AdminCancelCommit(row).Some? ==> Stands(id, row, AdminCancelCommit(row).value, said)
    ensures SoftDelete(row).Some? ==> Stands(id, row, SoftDelete(row).value, said)
  {
  }

  predicate Stands(id: string, a: Row, b: Row, said: set<Report>) {
    Settles(id, b, said) && b.task.delivery == a.task.delivery
  }

  /** The steps without an agent's work. */
  lemma EnvironmentSettles(s: Sys, step: Step, id: string, said: set<Report>)
    requires Inv(s) && !step.Go? && id in s.rows && Settles(id, s.rows[id], said)
    ensures id in Apply(s, step).rows && Settles(id, Apply(s, step).rows[id], said)
    ensures s.rows[id].run.Some? ==> Apply(s, step).rows[id].task.delivery == s.rows[id].task.delivery
  {
    hide AgentsOk, LogOk, Work, Admits, RowInv, Settles, Claim, Acquire, Renew, RequestCancel, AdminCancelCommit,
      SoftDelete;
    var key, row := SubmissionKey(s.instance, id), s.rows[id];
    assert RowOk(s.instance, id, row, s.jobs, s.seen);
    var node := if step.ClaimNext? || step.Start? then step.node
                else if step.Heartbeat? && step.tok in s.agents then s.agents[step.tok].node else "";
    var tok := if step.Start? || step.Heartbeat? then step.tok else "";
    var now := if step.Start? || step.Heartbeat? then step.now else 0;
    var ttl := if step.Start? || step.Heartbeat? then step.ttl else 0;
    RowSettles(key, id, row, said, node, tok, now, ttl, step.ClaimNext? && step.delivery);
  }

  lemma SaidGrows(id: string, row: Row, said: set<Report>, more: set<Report>)
    requires Settles(id, row, said) && said <= more
    ensures Settles(id, row, more)
  {
  }

  lemma BackedGrows(a: Agent, row: Row, said: set<Report>, more: set<Report>)
    requires Backed(a, row, said) && said <= more
    ensures Backed(a, row, more)
  {
  }

  lemma RowsStep(s: Sys, step: Step, said: set<Report>)
    requires Inv(s) && RowsSettle(s, said) && AgentsBacked(s, said)
    ensures RowsSettle(Apply(s, step), said + HeardIn(s, step))
  {
    hide Inv, Settles, Backed, Work, Hears, RowOk, AgentOk;
    var more := said + HeardIn(s, step);
    var s' := Apply(s, step);
    forall id | id in s'.rows ensures Settles(id, s'.rows[id], more) {
      if id !in s.rows {
        NewRow(s, step, id, more);
      } else {
        SaidGrows(id, s.rows[id], said, more);
        if !step.Go? {
          EnvironmentSettles(s, step, id, more);
        } else if step.tok in s.agents {
          RowWork(s, step, id, said, more);
        }
      }
    }
  }

  lemma RowWork(s: Sys, step: Step, id: string, said: set<Report>, more: set<Report>)
    requires Inv(s) && AgentsBacked(s, said) && step.Go? && step.tok in s.agents && id in s.rows
    requires Settles(id, s.rows[id], more) && said <= more
    ensures id in Apply(s, step).rows && Settles(id, Apply(s, step).rows[id], more)
  {
    hide Inv, Settles, Backed, Work, Hears, RowOk, AgentOk;
    InvAt(s, step.tok);
    var a := s.agents[step.tok];
    WorkIsTransaction(s.rows[a.task], step.tok, a, s.jobs, step.w);
    if a.task == id {
      BackedGrows(a, s.rows[id], said, more);
      WorkSettles(s.instance, step.tok, s.rows[id], a, s.jobs, s.seen, step.w, more);
    }
  }

  lemma NewRow(s: Sys, step: Step, id: string, said: set<Report>)
    requires Inv(s) && id !in s.rows && id in Apply(s, step).rows
    ensures Settles(id, Apply(s, step).rows[id], said)
  {
    hide Inv, Work, RowOk, AgentOk;
    if step.Go? && step.tok in s.agents {
      InvAt(s, step.tok);
      WorkIsTransaction(s.rows[s.agents[step.tok].task], step.tok, s.agents[step.tok], s.jobs, step.w);
    }
  }

  lemma AgentsStep(s: Sys, step: Step, said: set<Report>)
    requires Inv(s) && RowsSettle(s, said) && AgentsBacked(s, said)
    ensures AgentsBacked(Apply(s, step), said + HeardIn(s, step))
  {
    hide Inv, Settles, Backed, Apply, RowOk, AgentOk;
    var more := said + HeardIn(s, step);
    var s' := Apply(s, step);
    forall tok | tok in s'.agents
      ensures s'.agents[tok].task in s'.rows && Backed(s'.agents[tok], s'.rows[s'.agents[tok].task], more)
    {
      OneAgent(s, step, said, more, tok);
    }
  }

  lemma OneAgent(s: Sys, step: Step, said: set<Report>, more: set<Report>, tok: string)
    requires Inv(s) && RowsSettle(s, said) && AgentsBacked(s, said) && more == said + HeardIn(s, step)
    requires tok in Apply(s, step).agents
    ensures var s' := Apply(s, step);
            s'.agents[tok].task in s'.rows && Backed(s'.agents[tok], s'.rows[s'.agents[tok].task], more)
  {
    hide Inv, Settles, Backed, Work, Hears, RowOk, AgentOk, Claim, ClaimEnabled, Renew, RequestCancel,
      AdminCancelCommit, SoftDelete, Acquire;
    var s' := Apply(s, step);
    if tok in s.agents {
      var a := s.agents[tok];
      InvAt(s, tok);
      BackedGrows(a, s.rows[a.task], said, more);
      if step.Go? && step.tok == tok {
        WorkIsTransaction(s.rows[a.task], tok, a, s.jobs, step.w);
        WorkBacks(s.rows[a.task], tok, a, s.jobs, step.w, more);
      } else {
        HasRun(s, tok);
        DeliveryStands(s, step, a.task, said);
        assert s'.agents[tok] == a || s'.agents[tok] == a.(pc := Releasing(false));
        SameReasons(a, s'.agents[tok], s.rows[a.task], s'.rows[a.task], more);
      }
    } else {
      assert step.Start? && step.tok == tok && s'.agents[tok].pc == Deciding;
      SameReasons(s'.agents[tok], s'.agents[tok], s'.rows[step.id], s'.rows[step.id], more);
    }
  }

  lemma HasRun(s: Sys, tok: string)
    requires Inv(s) && tok in s.agents
    ensures s.agents[tok].task in s.rows && s.rows[s.agents[tok].task].run.Some?
  {
    hide Inv;
    InvAt(s, tok);
  }

  lemma SameReasons(a: Agent, a': Agent, row: Row, row': Row, said: set<Report>)
    requires a' == a || a' == a.(pc := Releasing(false))
    requires Backed(a, row, said) || a.pc == Deciding
    requires row'.task.delivery == row.task.delivery
    ensures Backed(a', row', said)
  {
  }

  lemma DeliveryStands(s: Sys, step: Step, id: string, said: set<Report>)
    requires Inv(s) && RowsSettle(s, said) && id in s.rows && s.rows[id].run.Some?
    ensures id in Apply(s, step).rows && Apply(s, step).rows[id].task.delivery == s.rows[id].task.delivery
  {
    hide Inv, Settles, Work, RowOk, AgentOk;
    if !step.Go? {
      EnvironmentSettles(s, step, id, said);
    } else if step.tok in s.agents {
      InvAt(s, step.tok);
      var a := s.agents[step.tok];
      WorkIsTransaction(s.rows[a.task], step.tok, a, s.jobs, step.w);
      SameDelivery(s.rows[a.task], step.tok, a, s.jobs, step.w);
    }
  }

  lemma {:induction false} OutcomesInRun(s: Sys, steps: seq<Step>, said: set<Report>)
    requires Inv(s) && RowsSettle(s, said) && AgentsBacked(s, said)
    ensures RowsSettle(Exec(s, steps), said + Said(s, steps))
    ensures AgentsBacked(Exec(s, steps), said + Said(s, steps))
    decreases |steps|
  {
    hide Inv, Apply, RowsSettle, AgentsBacked, HeardIn;
    if steps == [] {
      assert said + {} == said;
    } else {
      var more := said + HeardIn(s, steps[0]);
      RowsStep(s, steps[0], said);
      AgentsStep(s, steps[0], said);
      StepKeeps(s, steps[0]);
      OutcomesInRun(Apply(s, steps[0]), steps[1..], more);
      assert said + Said(s, steps) == more + Said(Apply(s, steps[0]), steps[1..]);
    }
  }

  /* ---------- The promises ---------- */

  lemma ReachableSettles(instance: string, steps: seq<Step>, id: string)
    requires id in Exec(Init(instance), steps).rows
    ensures Settles(id, Exec(Init(instance), steps).rows[id], Said(Init(instance), steps))
  {
    hide Exec, Said, Settles, Apply;
    Reachable(instance, []);
    assert Exec(Init(instance), []) == Init(instance) by { NoSteps(Init(instance)); }
    OutcomesInRun(Init(instance), steps, {});
    assert {} + Said(Init(instance), steps) == Said(Init(instance), steps);
  }

  /**
   In every reachable state a run that has ended and its task tell one story: failed, cancelled or
   succeeded alike, the result address stored exactly with a success and public exactly without a
   delivery; and a success, a failed generation or a cancel of something submitted was said by the
   upstream.
   */
  lemma OutcomeIsWhatWasSaid(instance: string, steps: seq<Step>, id: string)
    requires var s := Exec(Init(instance), steps);
             id in s.rows && s.rows[id].run.Some? && s.rows[id].run.value.phase == Terminal
    ensures var row := Exec(Init(instance), steps).rows[id];
            Outcome(id, row.task, row.run.value, Said(Init(instance), steps))
  {
    hide Exec, Said, Outcome;
    ReachableSettles(instance, steps, id);
  }

  /** The last word of the upstream in a poll, if it is final. */
  function LastWord(a: Agent, w: World): Option<Upstream> {
    if !a.pc.Judging? then None
    else if IsConclusive(a.pc.answer) then Some(a.pc.answer)
    else if AsksToCancel(a) && w.cancel.CancelDone? then Some(UCancelled)
    else if AsksToCancel(a) && w.cancel.Cancel409? && w.confirm.Answer? && IsConclusive(w.confirm.status)
    then Some(w.confirm.status)
    else None
  }

  /** What the task shows at the end; a success that is to be delivered is not one yet. */
  function FinalStatus(word: Upstream, delivery: bool): Status {
    match word
    case USucceeded => if delivery then Reconciling else Succeeded
    case UFailed => Failed
    case _ => Cancelled
  }

  /** The upstream has been heard to run the job, in this poll. */
  predicate HeardRunning(a: Agent, w: World) {
    a.pc == Judging(URunning) || (AsksToCancel(a) && w.cancel.Cancel409? && w.confirm == Answer(URunning))
  }

  /** A poll that is not final is observed as it was heard; a request to cancel something running is refused. */
  lemma LiveWordIsObserved(s: Sys, tok: string, w: World)
    requires tok in s.agents && s.agents[tok].task in s.rows
    requires s.agents[tok].pc == Judging(UQueued) || s.agents[tok].pc == Judging(URunning)
    requires LastWord(s.agents[tok], w).None?
    ensures var a := s.agents[tok];
            var pc' := Apply(s, Go(tok, w)).agents[tok].pc;
            && pc'.Observing?
            && (pc'.status == URunning <==> HeardRunning(a, w)) && (pc'.status == UQueued <==> !HeardRunning(a, w))
            && pc'.cancel == if a.local.cancel == Requested && HeardRunning(a, w) then Rejected else a.local.cancel
  {
  }

  /** The completion says what the upstream said, with the address that goes with it. */
  predicate Repeats(c: Completion, word: Upstream, url: string) {
    c.status == word && c.url == (if word == USucceeded then url else "")
  }

  /** A poll leads to a completion exactly on a last word, and a success only with a usable address. */
  lemma LastWordDecides(s: Sys, tok: string, w: World)
    requires tok in s.agents && s.agents[tok].task in s.rows && s.agents[tok].pc.Judging?
    ensures var word := LastWord(s.agents[tok], w);
            var a' := Apply(s, Go(tok, w)).agents[tok];
            && (a'.pc.Finishing? <==> word.Some? && (word.value == USucceeded ==> w.url != ""))
            && (a'.pc.Finishing? ==> Repeats(a'.pc.completion, word.value, w.url))
            && a'.task == s.agents[tok].task && a'.node == s.agents[tok].node
  {
  }

  /**
   In every run: once the upstream has had its last word, and whatever others do before the agent's
   next step, that step ends the run with this word if and only if the lease is still held then.
   */
  lemma LastWordIsStored(
    instance: string, before: seq<Step>, tok: string, w: World, between: seq<Step>, w': World)
    requires var s := Exec(Init(instance), before);
             && tok in s.agents && LastWord(s.agents[tok], w).Some?
             && (LastWord(s.agents[tok], w) == Some(USucceeded) ==> w.url != "")
             && var s' := Apply(s, Go(tok, w));
             && tok in Exec(s', between).agents && Exec(s', between).agents[tok] == s'.agents[tok]
    ensures var s := Exec(Init(instance), before);
            var word, id := LastWord(s.agents[tok], w).value, s.agents[tok].task;
            var t := Exec(Apply(s, Go(tok, w)), between);
            var t' := Apply(t, Go(tok, w'));
            && id in t.rows && t.rows[id].run.Some? && id in t'.rows && t'.rows[id].run.Some?
            && var r, r' := t.rows[id].run.value, t'.rows[id].run.value;
            if r.token == tok && w'.now < r.expires
            then && r'.phase == Terminal && r'.upstreamStatus == word
                 && t'.rows[id].task.internalUrl == (if word == USucceeded then w.url else "")
                 && t'.rows[id].task.status == FinalStatus(word, t.rows[id].task.delivery)
            else r' == r
  {
    hide Exec, Apply, Inv, LastWord;
    Reachable(instance, before);
    var s := Exec(Init(instance), before);
    InvAt(s, tok);
    OnlyJudgingHears(s.agents[tok], w);
    LastWordDecides(s, tok, w);
    StepKeeps(s, Go(tok, w));
    ExecKeeps(Apply(s, Go(tok, w)), between);
    var t := Exec(Apply(s, Go(tok, w)), between);
    var said := SettledAfter(instance, before, Go(tok, w), between);
    InvAt(t, tok);
    Commits(t, tok, w', said);
  }

  lemma OnlyJudgingHears(a: Agent, w: World)
    requires LastWord(a, w).Some?
    ensures a.pc.Judging? && IsConclusive(LastWord(a, w).value)
  {
  }

  lemma SettledAfter(instance: string, before: seq<Step>, step: Step, between: seq<Step>)
    returns (said: set<Report>)
    ensures var t := Exec(Apply(Exec(Init(instance), before), step), between);
            RowsSettle(t, said) && AgentsBacked(t, said)
  {
    hide Exec, Said, Apply, Inv, HeardIn;
    Reachable(instance, []);
    assert Exec(Init(instance), []) == Init(instance) by { NoSteps(Init(instance)); }
    OutcomesInRun(Init(instance), before, {});
    Reachable(instance, before);
    var s := Exec(Init(instance), before);
    said := {} + Said(Init(instance), before);
    RowsStep(s, step, said);
    AgentsStep(s, step, said);
    StepKeeps(s, step);
    said := said + HeardIn(s, step);
    OutcomesInRun(Apply(s, step), between, said);
    said := said + Said(Apply(s, step), between);
  }

  /** A completion that may be stored is stored exactly under the lease. */
  lemma Commits(s: Sys, tok: string, w: World, said: set<Report>)
    requires Inv(s) && tok in s.agents && s.agents[tok].pc.Finishing?
    requires var c := s.agents[tok].pc.completion; IsConclusive(c.status) && (c.status == USucceeded ==> c.url != "")
    requires var a := s.agents[tok];
             a.task in s.rows && Settles(a.task, s.rows[a.task], said) && Backed(a, s.rows[a.task], said)
    ensures var id, c := s.agents[tok].task, s.agents[tok].pc.completion;
            var s' := Apply(s, Go(tok, w));
            && id in s'.rows && s.rows[id].run.Some? && s'.rows[id].run.Some?
            && var r, r' := s.rows[id].run.value, s'.rows[id].run.value;
            if r.token == tok && w.now < r.expires
            then && r'.phase == Terminal && r'.upstreamStatus == c.status && s'.rows[id].task.internalUrl == c.url
                 && s'.rows[id].task.status == FinalStatus(c.status, s.rows[id].task.delivery)
            else r' == r
  {
    hide Inv, Work;
    InvAt(s, tok);
    var a := s.agents[tok];
    WorkIsTransaction(s.rows[a.task], tok, a, s.jobs, w);
  }
}
