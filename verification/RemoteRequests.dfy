/** What claims and cancels of tk2sd tasks achieve, in every reachable state. */
module RemoteRequests {
  import opened Domain
  import opened RemoteRun
  import opened RemoteAgents
  import opened RemoteSafety
  import opened RemoteTheorems
  import opened RemoteOutcomes
  import opened RemoteLeases

  /** A task that nobody has taken up yet. */
  predicate Waits(row: Row) {
    IsQueued(row.task.status) && !row.task.deleted && row.run.None?
  }

  /** A run at its very beginning, free for any agent of its node. */
  predicate IsUntouched(r: Run, node: string) {
    && r.node == node && r.phase == Preparing && r.token == "" && Live(r)
    && r.cancel == NoCancel && r.attempts == 0 && r.body == NoBody && r.upstream == ""
  }

  /**
   A task is claimed exactly if it waits, its key can be used and the node admits it; it then holds a
   slot there, has an untouched run under its own key, and will be delivered if the node asks for that.
   */
  lemma ClaimsExactly(instance: string, steps: seq<Step>, claim: Step)
    requires claim.ClaimNext? && claim.id in Exec(Init(instance), steps).rows && claim.node != ""
    ensures var s := Exec(Init(instance), steps);
            var s', id := Apply(s, claim), claim.id;
            if && Waits(s.rows[id]) && KeyOk(instance, SubmissionKey(instance, id))
               && Admits(s.rows, claim.node, claim.configured, claim.capacity, claim.admission)
            then
              && id in s'.rows && s' == s.(rows := s.rows[id := s'.rows[id]])
              && var t, t' := s.rows[id].task, s'.rows[id].task;
              && t' == t.(status := Dispatching, node := claim.node, slot := true, delivery := claim.delivery)
              && s'.rows[id].run.Some? && IsUntouched(s'.rows[id].run.value, claim.node)
              && s'.rows[id].run.value.key == SubmissionKey(instance, id)
            else s' == s
  {
    hide Exec, Admits, KeyOk;
    Reachable(instance, steps);
    ExecInstance(Init(instance), steps);
    var s := Exec(Init(instance), steps);
    assert RowOk(s.instance, claim.id, s.rows[claim.id], s.jobs, s.seen);
  }

  /** The run goes on and has not been seen to run, nor has a cancel of it been refused. */
  predicate StillCancellable(r: Run) {
    r.phase != Terminal && r.upstreamStatus != URunning && r.cancel != Rejected
  }

  /**
   A request to cancel is recorded exactly as long as that can still be done, and shows at once; a task
   that has ended is reported as cancelled exactly if it was.
   */
  lemma CancelsExactly(instance: string, steps: seq<Step>, id: string)
    requires var s := Exec(Init(instance), steps); id in s.rows && s.rows[id].run.Some?
    ensures var s := Exec(Init(instance), steps);
            var s', row := Apply(s, CancelRequest(id)), s.rows[id];
            && (if StillCancellable(row.run.value)
                then s'.rows == s.rows[id := Row(row.task.(status := Cancelling),
                                                 Some(row.run.value.(cancel := Requested)))]
                else s' == s)
            && (RequestCancel(row).AlreadyCancelled? <==>
                  row.run.value.phase == Terminal && row.task.status == Cancelled)
            && (RequestCancel(row).NotCancellable? <==>
                  && !StillCancellable(row.run.value)
                  && !(row.run.value.phase == Terminal && row.task.status == Cancelled))
  {
    hide Exec, Said, Outcome;
    Reachable(instance, steps);
    var s := Exec(Init(instance), steps);
    assert RowOk(s.instance, id, s.rows[id], s.jobs, s.seen);
    if s.rows[id].run.value.phase == Terminal {
      OutcomeIsWhatWasSaid(instance, steps, id);
      EndedAlike(id, s.rows[id].task, s.rows[id].run.value, Said(Init(instance), steps));
    }
  }

  lemma EndedAlike(id: string, t: Task, r: Run, said: set<Report>)
    requires Outcome(id, t, r, said)
    ensures r.upstreamStatus == UCancelled <==> t.status == Cancelled
  {
  }

  /** A task is deleted exactly once it has ended, and its run with it stands as it was. */
  lemma DeletesExactly(instance: string, steps: seq<Step>, id: string)
    requires id in Exec(Init(instance), steps).rows
    ensures var s := Exec(Init(instance), steps);
            var s', row := Apply(s, Delete(id)), s.rows[id];
            if IsTerminal(row.task.status) && !row.task.deleted
            then && s' == s.(rows := s.rows[id := row.(task := row.task.(deleted := true))])
                 && !row.task.slot
            else s' == s
  {
    hide Exec;
    Reachable(instance, steps);
    var s := Exec(Init(instance), steps);
    assert RowOk(s.instance, id, s.rows[id], s.jobs, s.seen);
  }

  lemma AdminOnRow(key: string, id: string, row: Row, said: set<Report>)
    requires RowInv(key, row) && Settles(id, row, said)
    ensures var next := if AdminCancelCommit(row).Some? then AdminCancelCommit(row).value else row;
            if IsTerminal(row.task.status) || row.task.deleted then next == row
            else next == row.(task := row.task.(status := if row.run.None? then Cancelled else Cancelling))
  {
  }

  /** The administrator's cancel ends what waits, turns what is at work to cancelling, and leaves the rest. */
  lemma AdminCancelsExactly(instance: string, steps: seq<Step>, id: string)
    requires id in Exec(Init(instance), steps).rows
    ensures var s := Exec(Init(instance), steps);
            var s', row := Apply(s, AdminCancel(id)), s.rows[id];
            if IsTerminal(row.task.status) || row.task.deleted then s' == s
            else var status := if row.run.None? then Cancelled else Cancelling;
                 s'.rows == s.rows[id := row.(task := row.task.(status := status))]
  {
    hide Exec, Said, Settles, RowInv, AdminCancelCommit;
    Reachable(instance, steps);
    var s := Exec(Init(instance), steps);
    assert RowOk(s.instance, id, s.rows[id], s.jobs, s.seen);
    assert s.rows[id := s.rows[id]] == s.rows;
    ReachableSettles(instance, steps, id);
    AdminOnRow(SubmissionKey(s.instance, id), id, s.rows[id], Said(Init(instance), steps));
  }
}
