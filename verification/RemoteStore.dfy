/**
 The tables behind the remote protocol, changed in place.  A method is one transaction: it
 updates one table after the other and puts everything back when a later update matches no
 row.  Each is proved to do to the pair of rows exactly what the operation of the same name
 in `RemoteRun` says.
 */
module RemoteStore {
  import opened Domain
  import R = RemoteRun
  import opened RemoteAgents
  import opened ModelRouting

  /** The routing snapshot frozen with a task. */
  datatype Snapshot = Snapshot(model: string, tk2sd: bool, requirements: Requirements, expires: nat)

  datatype ClaimResult = Claimed(id: string) | Busy | Empty | KeyRefused

  /** The capacity snapshot as it arrives: leased ids come as a list and may hold blanks. */
  datatype Report = Report(capacity: int, occupied: int, cooling: int, queued: int, canDispatch: bool,
                           leasedIds: seq<string>)

  function Leased(ids: seq<string>): set<string> {
    set id | id in ids && id != ""
  }

  function AsAdmission(report: Option<Report>): Option<Admission> {
    match report
    case None => None
    case Some(a) => Some(Admission(a.capacity, a.occupied, a.cooling, a.queued, a.canDispatch, Leased(a.leasedIds)))
  }

  /** Queue elements that fulfil a predicate, as a set. */
  function Among(ids: seq<string>, chosen: set<string>): set<string> {
    set id | id in ids && id in chosen
  }

  predicate Distinct(ids: seq<string>) {
    forall i, j | 0 <= i < j < |ids| :: ids[i] != ids[j]
  }

  lemma AmongGrows(ids: seq<string>, i: nat, chosen: set<string>)
    requires Distinct(ids) && i < |ids|
    ensures |Among(ids[..i + 1], chosen)| == |Among(ids[..i], chosen)| + if ids[i] in chosen then 1 else 0
  {
    assert ids[..i + 1] == ids[..i] + [ids[i]];
    assert ids[i] !in ids[..i];
    assert Among(ids[..i + 1], chosen) == Among(ids[..i], chosen) + if ids[i] in chosen then {ids[i]} else {};
  }

  type Tasks = map<string, R.Task>
  type Runs = map<string, R.Run>

  /** The two tables as the protocol sees them. */
  function Join(tasks: Tasks, runs: Runs): map<string, R.Row> {
    map id | id in tasks :: R.Row(tasks[id], if id in runs then Some(runs[id]) else None)
  }

  lemma JoinPut(tasks: Tasks, runs: Runs, id: string, t: R.Task, r: R.Run)
    requires id in tasks
    ensures Join(tasks[id := t], runs[id := r]) == Join(tasks, runs)[id := R.Row(t, Some(r))]
    ensures tasks[id := tasks[id]] == tasks && tasks[id := t].Keys == tasks.Keys
    ensures (runs[id := r]).Keys == runs.Keys + {id}
  {
  }

  class Store {
    const instance: string
    var order: seq<string>                       // task ids by queue sequence
    var snapshots: map<string, Option<Snapshot>> // None when the stored JSON does not decode
    var tasks: map<string, R.Task>
    var runs: map<string, R.Run>

    constructor (instance: string)
      ensures Valid() && this.instance == instance && Rows() == map[]
    {
      this.instance := instance;
      order, snapshots, tasks, runs := [], map[], map[], map[];
    }

    ghost predicate Valid()
      reads this
    {
      && runs.Keys <= tasks.Keys && snapshots.Keys == tasks.Keys
      && Distinct(order) && (set id | id in order) == tasks.Keys
    }

    function Rows(): map<string, R.Row>
      reads this
    {
      Join(tasks, runs)
    }

    function RowOf(id: string): Option<R.Row>
      reads this
    {
      if id in tasks then Some(R.Row(tasks[id], if id in runs then Some(runs[id]) else None)) else None
    }

    method Acquire(id: string, node: string, token: string, now: nat, ttl: int) returns (run: Option<R.Run>)
      requires Valid()
      modifies this`runs
      ensures Valid()
      ensures var row := old(RowOf(id));
              var next := if row.Some? then R.Acquire(row.value, node, token, now, ttl) else None;
              && (run.Some? <==> next.Some?)
              && (run.Some? ==> next.value.run == run)
              && Rows() == if next.Some? then old(Rows())[id := next.value] else old(Rows())
    {
      hide Join, Distinct;
      if token == "" || ttl < 1 { return None; }
      if id in runs && runs[id].node == node && runs[id].phase != R.Terminal && !runs[id].reconcile
         && runs[id].expires <= now
         && tasks[id].node == runs[id].node && tasks[id].slot && !tasks[id].deleted {
        JoinPut(tasks, runs, id, tasks[id], runs[id].(token := token, expires := now + ttl));
        runs := runs[id := runs[id].(token := token, expires := now + ttl)];
        return Some(runs[id]);
      }
      return None;
    }

    method Renew(id: string, node: string, token: string, now: nat, ttl: int) returns (ok: bool)
      requires Valid()
      modifies this`runs
      ensures Valid()
      ensures var row := old(RowOf(id));
              var next := if row.Some? then R.Renew(row.value, node, token, now, ttl) else None;
              ok == next.Some? && Rows() == if ok then old(Rows())[id := next.value] else old(Rows())
    {
      hide Join, Distinct;
      ok := ttl >= 1 && id in runs && R.Holds(runs[id], node, token, now) && runs[id].phase != R.Terminal;
      if ok {
        var r := runs[id].(expires := now + ttl);
        JoinPut(tasks, runs, id, tasks[id], r);
        runs := runs[id := r];
      }
    }

    method Release(id: string, node: string, token: string, now: nat, reconcile: bool) returns (ok: bool)
      requires Valid()
      modifies this`runs
      ensures Valid()
      ensures var row := old(RowOf(id));
              var next := if row.Some? then R.Release(row.value, node, token, now, reconcile) else None;
              ok == next.Some? && Rows() == if ok then old(Rows())[id := next.value] else old(Rows())
    {
      hide Join, Distinct;
      ok := id in runs && R.Holds(runs[id], node, token, now) && runs[id].phase != R.Terminal;
      if ok {
        var r := runs[id].(token := "", expires := 0, reconcile := reconcile);
        JoinPut(tasks, runs, id, tasks[id], r);
        runs := runs[id := r];
      }
    }

    method Prepare(id: string, node: string, token: string, now: nat, body: R.Body) returns (ok: bool)
      requires Valid()
      modifies this`runs
      ensures Valid()
      ensures var row := old(RowOf(id));
              var next := if row.Some? then R.Prepare(row.value, node, token, now, body) else None;
              ok == next.Some? && Rows() == if ok then old(Rows())[id := next.value] else old(Rows())
    {
      hide Join, Distinct;
      ok := body != R.NoBody && id in runs && R.Holds(runs[id], node, token, now)
            && runs[id].phase == R.Preparing && runs[id].cancel == R.NoCancel;
      if ok {
        var r := runs[id].(phase := R.Prepared, body := body, hash := R.Sha256(body));
        JoinPut(tasks, runs, id, tasks[id], r);
        runs := runs[id := r];
      }
    }

    method Begin(id: string, node: string, token: string, now: nat) returns (ok: bool)
      requires Valid()
      modifies this`runs
      ensures Valid()
      ensures var row := old(RowOf(id));
              var next := if row.Some? then R.Begin(row.value, node, token, now) else None;
              ok == next.Some? && Rows() == if ok then old(Rows())[id := next.value] else old(Rows())
    {
      hide Join, Distinct;
      ok := id in runs && R.Holds(runs[id], node, token, now) && !runs[id].reconcile
            && (runs[id].phase == R.SubmitIntent || (runs[id].phase == R.Prepared && runs[id].cancel == R.NoCancel));
      if ok {
        var r := runs[id].(phase := R.SubmitIntent, attempts := runs[id].attempts + 1);
        JoinPut(tasks, runs, id, tasks[id], r);
        runs := runs[id := r];
      }
    }

    /** The run is updated first; a task that does not match takes that back. */
    method Bind(id: string, node: string, token: string, now: nat, job: string) returns (ok: bool)
      requires Valid()
      modifies this`runs, this`tasks
      ensures Valid()
      ensures var row := old(RowOf(id));
              var next := if row.Some? then R.Bind(row.value, node, token, now, job) else None;
              ok == next.Some? && Rows() == if ok then old(Rows())[id := next.value] else old(Rows())
    {
      hide Join, Distinct;
      if job == "" || id !in runs || !R.Holds(runs[id], node, token, now) || runs[id].phase != R.SubmitIntent {
        return false;
      }
      var rollback := runs;
      var r := runs[id].(phase := R.Submitted, upstream := job, upstreamStatus := R.UQueued);
      runs := runs[id := r];
      var t := tasks[id];
      if t.node != node || !t.slot || !IsActive(t.status) {
        runs := rollback;
        return false;
      }
      t := t.(job := job, status := if t.status == Cancelling then Cancelling else Running);
      JoinPut(tasks, rollback, id, t, r);
      tasks := tasks[id := t];
      return true;
    }

    method Observe(id: string, node: string, token: string, now: nat, status: R.Upstream, cancel: R.CancelState)
      returns (ok: bool)
      requires Valid()
      modifies this`runs, this`tasks
      ensures Valid()
      ensures var row := old(RowOf(id));
              var next := if row.Some? then R.Observe(row.value, node, token, now, status, cancel) else None;
              ok == next.Some? && Rows() == if ok then old(Rows())[id := next.value] else old(Rows())
    {
      hide Join, Distinct;
      if (status != R.UQueued && status != R.URunning) || cancel == R.Confirmed
         || id !in runs || !R.Holds(runs[id], node, token, now) || runs[id].phase != R.Submitted { return false; }
      var r := runs[id].(upstreamStatus := status,
                         cancel := if cancel == R.Rejected then R.Rejected else runs[id].cancel);
      var t := if cancel == R.Rejected && tasks[id].status == Cancelling then tasks[id].(status := Running)
          else tasks[id];
      JoinPut(tasks, runs, id, t, r);
      runs := runs[id := r];
      if cancel == R.Rejected && tasks[id].status == Cancelling {
        tasks := tasks[id := t];
      }
      return true;
    }

    /** Reads the run, then updates the task, then the run. */
    method RequestCancel(id: string) returns (out: R.CancelOutcome)
      requires Valid()
      modifies this`runs, this`tasks
      ensures Valid()
      ensures var row := old(RowOf(id));
              && out == (if row.Some? then R.RequestCancel(row.value) else R.NotFound)
              && Rows() == if out.Recorded? then old(Rows())[id := out.row] else old(Rows())
    {
      hide Join, Distinct;
      if id !in runs { return R.NotFound; }
      var r, t := runs[id], tasks[id];
      if r.phase == R.Terminal {
        return if r.upstreamStatus == R.UCancelled then R.AlreadyCancelled else R.NotCancellable;
      }
      if r.upstreamStatus == R.URunning || r.cancel == R.Rejected { return R.NotCancellable; }
      if !t.slot || t.deleted || !IsActive(t.status) { return R.Conflict; }
      t, r := t.(status := Cancelling), r.(cancel := R.Requested);
      JoinPut(tasks, runs, id, t, r);
      tasks := tasks[id := t];
      runs := runs[id := r];
      return R.Recorded(R.Row(t, Some(r)));
    }

    /** The terminal step: the run first, then the task, all or nothing. */
    method Complete(id: string, node: string, token: string, now: nat, c: R.Completion) returns (ok: bool)
      requires Valid()
      modifies this`runs, this`tasks
      ensures Valid()
      ensures var row := old(RowOf(id));
              var next := if row.Some? then R.Complete(row.value, node, token, now, c) else None;
              ok == next.Some? && Rows() == if ok then old(Rows())[id := next.value] else old(Rows())
    {
      hide Join, Distinct;
      if (c.status != R.USucceeded && c.status != R.UFailed && c.status != R.UCancelled)
         || (c.status == R.USucceeded && c.url == "")
         || id !in runs || !R.Holds(runs[id], node, token, now) || runs[id].phase == R.Terminal { return false; }
      var rollback := runs;
      var r, t := runs[id], tasks[id];
      var cancel := if c.status == R.UCancelled then R.Confirmed else if r.cancel == R.Requested then R.Rejected
          else r.cancel;
      r := r.(phase := R.Terminal, upstreamStatus := c.status, cancel := cancel, token := "", expires := 0);
      runs := runs[id := r];
      var status := if c.status == R.USucceeded then Succeeded else if c.status == R.UFailed then Failed else Cancelled;
      var public := c.url;
      if c.upload && c.status == R.USucceeded {
        status, public := Reconciling, "";
      }
      if t.node != node || !t.slot || t.deleted || !IsActive(t.status) {
        runs := rollback;
        return false;
      }
      t := t.(status := status, slot := false, error := c.error,
              internalUrl := if t.internalUrl != "" then t.internalUrl else c.url, publicUrl := public);
      JoinPut(tasks, rollback, id, t, r);
      tasks := tasks[id := t];
      return true;
    }

    /* ---------- Claiming ---------- */

    /** A queued task this node could take, given its catalogue of fresh, enabled and present models. */
    predicate Eligible(id: string, catalog: map<string, Option<Capability>>, now: nat)
      reads this
    {
      && RowOf(id).Some? && R.Claimable(RowOf(id).value)
      && id in snapshots && snapshots[id].Some?
      && var route := snapshots[id].value;
      && now < route.expires
      && tasks[id].model in catalog && catalog[tasks[id].model].Some?
      && route.model == tasks[id].model && route.tk2sd && Accepts(catalog[tasks[id].model].value, route.requirements)
    }

    /** Nothing in front of position `n` of the queue is eligible. */
    predicate NoneBefore(n: nat, catalog: map<string, Option<Capability>>, now: nat)
      reads this
      requires n <= |order|
    {
      forall i | 0 <= i < n :: !Eligible(order[i], catalog, now)
    }

    /** How many active slots of the node the report already counts: one pass over the active rows. */
    method CountOverlap(node: string, leasedIds: seq<string>) returns (overlap: nat)
      requires Valid()
      ensures overlap == |OverlapOn(Rows(), node, Leased(leasedIds))|
    {
      var leased := {};
      for i := 0 to |leasedIds|
        invariant leased == Leased(leasedIds[..i])
      {
        assert leasedIds[..i + 1] == leasedIds[..i] + [leasedIds[i]];
        if leasedIds[i] != "" { leased := leased + {leasedIds[i]}; }
      }
      assert leasedIds[..|leasedIds|] == leasedIds;
      overlap := 0;
      ghost var all := OverlapOn(Rows(), node, leased);
      for i := 0 to |order|
        invariant overlap == |Among(order[..i], all)|
      {
        AmongGrows(order, i, all);
        var id := order[i];
        if tasks[id].node == node && tasks[id].slot && id in runs && runs[id].upstream != ""
           && runs[id].upstream in leased {
          overlap := overlap + 1;
        }
      }
      assert order[..|order|] == order;
      assert Among(order, all) == all;
    }

    /** The first task of the queue that is eligible, skipping the others. */
    method FirstEligible(catalog: map<string, Option<Capability>>, now: nat) returns (found: Option<string>)
      requires Valid()
      ensures found.None? ==> NoneBefore(|order|, catalog, now)
      ensures found.Some? ==>
                exists n :: && 0 <= n < |order| && order[n] == found.value
                            && Eligible(order[n], catalog, now) && NoneBefore(n, catalog, now)
    {
      for i := 0 to |order|
        invariant NoneBefore(i, catalog, now)
      {
        var id := order[i];
        var t := tasks[id];
        if !IsQueued(t.status) || t.deleted || t.slot || id in runs { continue; }
        if t.model !in catalog || catalog[t.model].None? || id !in snapshots || snapshots[id].None? { continue; }
        var route, capability := snapshots[id].value, catalog[t.model].value;
        if route.expires <= now || route.model != t.model || !route.tk2sd { continue; }
        if !Accepts(capability, route.requirements) { continue; }
        return Some(id);
      }
      return None;
    }

    method ClaimNext(node: string, configured: int, delivery: bool, argument: int, report: Option<Report>,
                     catalog: map<string, Option<Capability>>, now: nat) returns (out: ClaimResult)
      requires Valid()
      modifies this`runs, this`tasks
      ensures Valid()
      ensures out.Busy? <==> !Admits(old(Rows()), node, configured, argument, AsAdmission(report))
      ensures out.Empty? ==> old(NoneBefore(|order|, catalog, now))
      ensures out.Claimed? ==>
                && old(Eligible(out.id, catalog, now)) && KeyOk(instance, SubmissionKey(instance, out.id))
                && (exists n :: 0 <= n < |order| && order[n] == out.id && old(NoneBefore(n, catalog, now)))
      ensures Rows() == if out.Claimed?
              then old(Rows())[out.id := R.Claim(old(RowOf(out.id)).value, node, SubmissionKey(instance, out.id),
                                                 delivery)]
                        else old(Rows())
    {
      hide Join, Distinct;
      if argument < 1 { return Busy; }
      var capacity := Min(argument, configured);
      var active := |ActiveOn(Rows(), node)|;
      if report.Some? {
        var a := report.value;
        if !a.canDispatch || a.queued > 0 || a.capacity < 1 || a.occupied < 0 || a.cooling < 0
           || a.occupied > a.capacity || a.cooling > a.capacity - a.occupied { return Busy; }
        var overlap := CountOverlap(node, a.leasedIds);
        if overlap > a.occupied { return Busy; }
        capacity := Min(capacity, a.capacity - a.occupied - a.cooling + overlap);
      }
      if active >= capacity { return Busy; }
      var found := FirstEligible(catalog, now);
      if found.None? { return Empty; }
      var id := found.value;
      var key := SubmissionKey(instance, id);
      if !KeyOk(instance, key) { return KeyRefused; }
      var t := tasks[id].(status := Dispatching, node := node, slot := true, delivery := delivery);
      JoinPut(tasks, runs, id, t, R.FreshRun(node, key));
      tasks := tasks[id := t];
      runs := runs[id := R.FreshRun(node, key)];
      return Claimed(id);
    }
  }
}
