/** The upload queue, changed in place: recovery of exhausted jobs, claiming, failing, completing. */
module DeliveryStore {
  import opened Domain
  import D = Delivery

  const BATCH: nat := 100

  /** The first `n` exhausted jobs in queue order. */
  function Pick(order: seq<string>, items: D.Items, now: nat, n: nat): (ids: seq<string>)
    ensures |ids| <= n
    ensures forall id | id in ids :: id in order && id in items && D.Exhausted(items[id], now)
    ensures |ids| < n ==> forall id | id in order && id in items && D.Exhausted(items[id], now) :: id in ids
  {
    if order == [] || n == 0 then []
    else if order[0] in items && D.Exhausted(items[order[0]], now) then [order[0]] + Pick(order[1..], items, now, n - 1)
    else Pick(order[1..], items, now, n)
  }

  /** Ending the listed jobs, each together with its task. */
  function RecoverAll(items: D.Items, ids: seq<string>, now: nat): D.Items {
    map id | id in items :: if id in ids then D.Recover(items[id], now) else items[id]
  }

  predicate Distinct(ids: seq<string>) {
    forall i, j | 0 <= i < j < |ids| :: ids[i] != ids[j]
  }

  lemma RecoverNone(items: D.Items, now: nat)
    ensures RecoverAll(items, [], now) == items
  {
  }

  lemma RecoverOne(items: D.Items, ids: seq<string>, id: string, now: nat)
    requires id in items && D.Exhausted(items[id], now) && id !in ids
    ensures id in RecoverAll(items, ids, now) && RecoverAll(items, ids, now)[id] == items[id]
    ensures RecoverAll(items, ids + [id], now) == RecoverAll(items, ids, now)[id := D.GiveUp(items[id])]
  {
  }

  /** A batch that is not full was all there is. */
  lemma RecoveredAll(items: D.Items, ids: seq<string>, order: seq<string>, now: nat)
    requires forall id | id in items && items[id].job.Some? :: id in order
    requires forall id | id in order && id in items && D.Exhausted(items[id], now) :: |ids| < BATCH ==> id in ids
    ensures |ids| < BATCH ==> forall id | id in RecoverAll(items, ids, now) ::
            !D.Exhausted(RecoverAll(items, ids, now)[id], now)
  {
  }

  /** The first claimable job in queue order. */
  predicate IsFirst(order: seq<string>, items: D.Items, id: string, now: nat) {
    && id in items && D.Claimable(items[id], now)
    && exists n :: 0 <= n < |order| && order[n] == id
                   && forall i | 0 <= i < n :: order[i] in items && !D.Claimable(items[order[i]], now)
  }

  lemma {:induction false} PickIsDistinct(order: seq<string>, items: D.Items, now: nat, n: nat)
    requires Distinct(order)
    ensures Distinct(Pick(order, items, now, n))
  {
    if order != [] && n > 0 {
      PickIsDistinct(order[1..], items, now, n - 1);
      PickIsDistinct(order[1..], items, now, n);
      assert order[0] !in order[1..];
    }
  }

  /* ---------- The two tables ---------- */

  datatype Task = Task(official: bool, status: Status, cause: D.Cause, origin: Option<string>, public: string)

  type Tasks = map<string, Task>
  type Jobs = map<string, D.Job>

  function Assemble(t: Task, job: Option<D.Job>): D.Item {
    D.Item(t.official, t.status, t.cause, t.origin, t.public, job)
  }

  function JobIn(jobs: Jobs, id: string): Option<D.Job> {
    if id in jobs then Some(jobs[id]) else None
  }

  function Join(tasks: Tasks, jobs: Jobs): D.Items {
    map id | id in tasks :: Assemble(tasks[id], JobIn(jobs, id))
  }

  lemma JoinPut(tasks: Tasks, jobs: Jobs, id: string, t: Task, j: D.Job)
    requires id in tasks
    ensures Join(tasks[id := t], jobs[id := j]) == Join(tasks, jobs)[id := Assemble(t, Some(j))]
    ensures tasks[id := tasks[id]] == tasks
  {
  }

  lemma JoinAt(tasks: Tasks, jobs: Jobs, id: string)
    ensures id in Join(tasks, jobs) <==> id in tasks
    ensures id in tasks ==> Join(tasks, jobs)[id] == Assemble(tasks[id], JobIn(jobs, id))
  {
  }

  class Queue {
    var order: seq<string>
    var tasks: Tasks
    var jobs: Jobs

    constructor ()
      ensures Valid() && Items() == map[]
    {
      order, tasks, jobs := [], map[], map[];
    }

    /** Every job belongs to a task, and the queue lists each job once. */
    ghost predicate Valid()
      reads this
    {
      && Distinct(order)
      && jobs.Keys <= tasks.Keys
      && (forall id :: id in order <==> id in jobs)
    }

    function Items(): D.Items
      reads this
    {
      Join(tasks, jobs)
    }

    /** Ends one job, then the task if it still waits for the delivery. */
    method End(id: string, job: D.Job)
      requires Valid() && id in jobs
      modifies this`tasks, this`jobs
      ensures Valid() && Items() == old(Items())[id := D.FailTask(Assemble(old(tasks)[id], Some(job)))]
    {
      hide Join;
      var t := tasks[id];
      if t.status == Reconciling {
        t := t.(status := Failed, cause := D.UploadFailed);
      }
      JoinPut(tasks, jobs, id, t, job);
      jobs := jobs[id := job];
      tasks := tasks[id := t];
    }

    /** One batch of exhausted jobs is ended; afterwards none is left, or a full batch was ended. */
    method Recover(now: nat) returns (ended: seq<string>)
      requires Valid()
      modifies this`tasks, this`jobs
      ensures Valid()
      ensures ended == Pick(order, old(Items()), now, BATCH)
      ensures Items() == RecoverAll(old(Items()), ended, now)
      ensures |ended| == BATCH || forall id | id in Items() :: !D.Exhausted(Items()[id], now)
    {
      hide Join, RecoverAll, D.Exhausted;
      ended := Pick(order, Items(), now, BATCH);
      PickIsDistinct(order, Items(), now, BATCH);
      ghost var before := Items();
      JoinedJobsAreListed();
      RecoverNone(before, now);
      for i := 0 to |ended|
        invariant Valid()
        invariant Items() == RecoverAll(before, ended[..i], now)
      {
        var id := ended[i];
        assert ended[..i + 1] == ended[..i] + [id];
        RecoverOne(before, ended[..i], id, now);
        JoinAt(tasks, jobs, id);
        End(id, jobs[id].(status := D.Undelivered, token := "", expires := 0, next := 0));
      }
      assert ended[..|ended|] == ended;
      RecoveredAll(before, ended, order, now);
    }

    /** The first job that is due with attempts left. */
    method ClaimFirst(token: string, now: nat, ttl: nat) returns (claimed: Option<string>)
      requires Valid()
      modifies this`jobs
      ensures Valid()
      ensures claimed.None? ==> Items() == old(Items()) && forall id | id in Items() :: !D.Claimable(Items()[id], now)
      ensures claimed.Some? ==>
                && IsFirst(order, old(Items()), claimed.value, now)
                && var after := D.Claim(old(Items())[claimed.value], token, now, ttl);
                after.Some? && Items() == old(Items())[claimed.value := after.value]
    {
      hide Join;
      JoinedJobsAreListed();
      for i := 0 to |order|
        invariant unchanged(this)
        invariant forall j | 0 <= j < i :: order[j] in Items() && !D.Claimable(Items()[order[j]], now)
      {
        var id := order[i];
        JoinAt(tasks, jobs, id);
        var job := jobs[id];
        if job.attempt < D.MAX_ATTEMPTS && D.Due(job, now) {
          job := job.(status := D.Uploading, attempt := job.attempt + 1, token := token, expires := now + ttl,
                      next := 0);
          JoinPut(tasks, jobs, id, tasks[id], job);
          jobs := jobs[id := job];
          return Some(id);
        }
      }
      return None;
    }

    /** Recovery first, in a transaction of its own. */
    method ClaimNext(token: string, now: nat, ttl: nat) returns (claimed: Option<string>)
      requires Valid()
      modifies this`tasks, this`jobs
      ensures Valid()
      ensures var recovered := RecoverAll(old(Items()), Pick(order, old(Items()), now, BATCH), now);
              && (claimed.None? ==>
                    && Items() == recovered
                    && forall id | id in recovered :: !D.Claimable(recovered[id], now))
              && (claimed.Some? ==>
                    && IsFirst(order, recovered, claimed.value, now)
                    && var after := D.Claim(recovered[claimed.value], token, now, ttl);
                    after.Some? && Items() == recovered[claimed.value := after.value])
    {
      hide Join, RecoverAll, Pick, IsFirst, D.Claim;
      var ended := Recover(now);
      claimed := ClaimFirst(token, now, ttl);
    }

    /** Back to the queue while attempts are left; otherwise the task fails with its job. */
    method Fail(id: string, token: string, retryable: bool, next: nat) returns (ok: bool)
      requires Valid()
      modifies this`tasks, this`jobs
      ensures Valid()
      ensures var after := if id in old(Items()) then D.FailAttempt(old(Items())[id], token, retryable, next) else None;
              ok == after.Some? && Items() == if ok then old(Items())[id := after.value] else old(Items())
    {
      hide Join;
      JoinAt(tasks, jobs, id);
      if token == "" || id !in jobs || jobs[id].status != D.Uploading || jobs[id].token != token { return false; }
      var job := jobs[id].(token := "", expires := 0);
      if retryable && job.attempt < D.MAX_ATTEMPTS {
        job := job.(status := D.RetryWait, next := next);
        JoinPut(tasks, jobs, id, tasks[id], job);
        jobs := jobs[id := job];
      } else {
        End(id, job.(status := D.Undelivered, next := 0));
      }
      return true;
    }

    /** The job is marked first; a task that no longer waits takes that back. */
    method Complete(id: string, token: string, url: string) returns (ok: bool)
      requires Valid()
      modifies this`tasks, this`jobs
      ensures Valid()
      ensures var after := if id in old(Items()) then D.Complete(old(Items())[id], token, url) else None;
              ok == after.Some? && Items() == if ok then old(Items())[id := after.value] else old(Items())
    {
      hide Join;
      JoinAt(tasks, jobs, id);
      if token == "" || id !in jobs || jobs[id].status != D.Uploading || jobs[id].token != token { return false; }
      var rollback := jobs;
      jobs := jobs[id := jobs[id].(status := D.Delivered, url := url, token := "", expires := 0)];
      var t := tasks[id];
      if t.status != Reconciling || t.origin.None? {
        jobs := rollback;
        return false;
      }
      t := t.(status := Succeeded, cause := D.NoCause, public := url);
      JoinPut(tasks, rollback, id, t, jobs[id]);
      tasks := tasks[id := t];
      return true;
    }

    /** A new round for the job, taken back unless the task failed with its delivery. */
    method Retry(id: string) returns (ok: bool)
      requires Valid()
      modifies this`tasks, this`jobs
      ensures Valid()
      ensures var after := if id in old(Items()) then D.Retry(old(Items())[id]) else None;
              ok == after.Some? && Items() == if ok then old(Items())[id := after.value] else old(Items())
    {
      hide Join;
      JoinAt(tasks, jobs, id);
      if id !in jobs || jobs[id].status != D.Undelivered { return false; }
      var rollback := jobs;
      var job := jobs[id];
      job := job.(status := D.Pending, round := job.round + 1, attempt := 0, next := 0, token := "", expires := 0);
      jobs := jobs[id := job];
      var t := tasks[id];
      if t.status != Failed || t.cause != D.UploadFailed || t.origin.None? {
        jobs := rollback;
        return false;
      }
      t := t.(status := Reconciling, cause := D.NoCause);
      JoinPut(tasks, rollback, id, t, job);
      tasks := tasks[id := t];
      return true;
    }

    lemma JoinedJobsAreListed()
      requires Valid()
      ensures Items().Keys == tasks.Keys
      ensures forall id | id in Items() && Items()[id].job.Some? :: id in order
    {
    }
  }
}
