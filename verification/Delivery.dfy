/**
 Delivery of results through upload jobs: one job per task, bounded attempts in rounds, leases
 that may be taken over, and a task status that has to tell the same story as the job.
 */
module Delivery {
  import opened Domain

  datatype UploadStatus = Pending | Uploading | RetryWait | Delivered | Undelivered
  datatype Cause = NoCause | UploadFailed | OtherCause

  /** An empty token and a zero time stand for NULL. */
  datatype Job = Job(status: UploadStatus, round: nat, attempt: nat, next: nat, token: string, expires: nat,
                     url: string)

  const MAX_ATTEMPTS: nat := 3

  /** A task with its upload job; `official` tells whether its node speaks minimax-v2. */
  datatype Item = Item(official: bool, status: Status, cause: Cause, origin: Option<string>, public: string,
                       job: Option<Job>)

  predicate Open(s: UploadStatus) {
    s == Pending || s == Uploading || s == RetryWait
  }

  /* ---------- The transactions ---------- */

  /** Generation is done and the result has to be uploaded first. */
  function Deliver(x: Item, origin: string): Option<Item> {
    if x.job.Some? || origin == "" || !IsActive(x.status)
       || (x.official && x.status != Dispatching && x.status != Running) then None
    else Some(x.(status := Reconciling, cause := NoCause, public := "",
                 origin := if x.origin.Some? && !x.official then x.origin else Some(origin),
                 job := Some(Job(Pending, 1, 0, 0, "", 0, ""))))
  }

  /** Due now, with attempts left or used up. */
  predicate Due(j: Job, now: nat) {
    j.status == Pending || (j.status == RetryWait && j.next <= now) || (j.status == Uploading && j.expires <= now)
  }

  predicate Claimable(x: Item, now: nat) {
    x.job.Some? && x.job.value.attempt < MAX_ATTEMPTS && Due(x.job.value, now)
  }

  predicate Exhausted(x: Item, now: nat) {
    && x.job.Some? && x.job.value.attempt >= MAX_ATTEMPTS
    && (x.job.value.status == Pending || x.job.value.status == RetryWait
        || (x.job.value.status == Uploading && x.job.value.expires <= now))
  }

  function Claim(x: Item, token: string, now: nat, ttl: nat): Option<Item> {
    if !Claimable(x, now) then None else
    var j := x.job.value;
    Some(x.(job := Some(j.(status := Uploading, attempt := j.attempt + 1, token := token, expires := now + ttl,
                           next := 0))))
  }

  /** The task fails with its delivery, if it is still waiting for it. */
  function FailTask(x: Item): Item {
    if x.status == Reconciling then x.(status := Failed, cause := UploadFailed) else x
  }

  function GiveUp(x: Item): Item
    requires x.job.Some?
  {
    FailTask(x.(job := Some(x.job.value.(status := Undelivered, token := "", expires := 0, next := 0))))
  }

  function Recover(x: Item, now: nat): Item {
    if Exhausted(x, now) then GiveUp(x) else x
  }

  predicate Leased(x: Item, token: string) {
    token != "" && x.job.Some? && x.job.value.status == Uploading && x.job.value.token == token
  }

  function FailAttempt(x: Item, token: string, retryable: bool, next: nat): Option<Item> {
    if !Leased(x, token) then None else
    var j := x.job.value;
    if retryable && j.attempt < MAX_ATTEMPTS
    then Some(x.(job := Some(j.(status := RetryWait, next := next, token := "", expires := 0))))
    else Some(GiveUp(x))
  }

  function Complete(x: Item, token: string, url: string): Option<Item> {
    if !Leased(x, token) || x.status != Reconciling || x.origin.None? then None else
    Some(x.(status := Succeeded, cause := NoCause, public := url,
            job := Some(x.job.value.(status := Delivered, url := url, token := "", expires := 0))))
  }

  function Retry(x: Item): Option<Item> {
    if x.job.None? || x.job.value.status != Undelivered
       || x.status != Failed || x.cause != UploadFailed || x.origin.None? then None else
    Some(x.(status := Reconciling, cause := NoCause,
            job := Some(x.job.value.(status := Pending, round := x.job.value.round + 1, attempt := 0, next := 0,
                                     token := "", expires := 0))))
  }

  /** The administrator's cancel as it meets a task that holds no slot any more. */
  function AdminCancel(x: Item): Option<Item> {
    if (x.status == Dispatching || x.status == Running || x.status == Reconciling) && !x.official
    then Some(x.(status := Cancelling))
    else None
  }

  /* ---------- Runs ---------- */

  datatype Step =
    | Accept(id: string, official: bool)
    | Generated(id: string, origin: string)
    | Moved(id: string, status: Status)
    | Ended(id: string, status: Status)
    | ClaimJob(id: string, token: string, now: nat, ttl: nat)
    | RecoverJob(id: string, now: nat)
    | FailJob(id: string, token: string, retryable: bool, next: nat)
    | CompleteJob(id: string, token: string, url: string)
    | RetryJob(id: string)
    | CancelTask(id: string)

  type Items = map<string, Item>

  function ItemStep(x: Item, step: Step): Option<Item> {
    match step
    case Accept(_, _) => None
    case Generated(_, origin) => Deliver(x, origin)
    case Moved(_, status) =>
      if x.job.None? && IsActive(x.status) && (status == Dispatching || status == Running || status == Cancelling)
      then Some(x.(status := status)) else None
    case Ended(_, status) =>
      if x.job.None? && IsActive(x.status) && IsTerminal(status)
      then Some(x.(status := status, cause := if status == Failed then OtherCause else NoCause)) else None
    case ClaimJob(_, token, now, ttl) => if token == "" then None else Claim(x, token, now, ttl)  // tokens are drawn
    case RecoverJob(_, now) => Some(Recover(x, now))
    case FailJob(_, token, retryable, next) => FailAttempt(x, token, retryable, next)
    case CompleteJob(_, token, url) => Complete(x, token, url)
    case RetryJob(_) => Retry(x)
    case CancelTask(_) => AdminCancel(x)
  }

  function Apply(s: Items, step: Step): Items {
    if step.Accept? then
      (if step.id in s then s else s[step.id := Item(step.official, Dispatching, NoCause, None, "", None)])
    else if step.id in s && ItemStep(s[step.id], step).Some? then s[step.id := ItemStep(s[step.id], step).value]
    else s
  }

  function Exec(s: Items, steps: seq<Step>): Items
    decreases |steps|
  {
    if steps == [] then s else Exec(Apply(s, steps[0]), steps[1..])
  }

  /* ---------- Job and task tell the same story ---------- */

  predicate Coupled(x: Item) {
    x.job.Some? ==>
      && (Open(x.job.value.status) <==> x.status == Reconciling)
      && (x.job.value.status == Undelivered <==> x.status == Failed && x.cause == UploadFailed)
      && (x.job.value.status == Delivered <==> x.status == Succeeded)
      && (x.status == Succeeded ==> x.public == x.job.value.url)
  }

  /** Within bounds: attempts, the lease of an upload, the stored origin. */
  predicate JobOk(x: Item) {
    && (x.job.Some? ==>
          var j := x.job.value;
          && j.round >= 1 && j.attempt <= MAX_ATTEMPTS && x.origin.Some?
          && (j.status == Uploading ==> j.attempt >= 1)
          && (j.token != "" <==> j.status == Uploading)
          && (j.status == Pending ==> j.attempt == 0)
          && (j.token == "" ==> j.expires == 0) && (j.status != RetryWait ==> j.next == 0))
    && (x.job.None? ==> x.cause != UploadFailed && x.status != Reconciling)
    && (x.job.None? || x.job.value.status != Delivered ==> x.public == "")
    && (x.cause != NoCause ==> x.status == Failed)
  }

  predicate AllCoupled(s: Items) {
    forall id | id in s :: Coupled(s[id])
  }

  predicate AllOk(s: Items) {
    forall id | id in s :: JobOk(s[id])
  }

  /** A cancel that would pull a task out from under its upload. */
  predicate Orphans(s: Items, step: Step) {
    step.CancelTask? && step.id in s && s[step.id].job.Some? && !s[step.id].official && s[step.id].status == Reconciling
  }

  lemma JobStep(s: Items, step: Step)
    requires AllOk(s)
    ensures AllOk(Apply(s, step))
  {
  }

  /** One step keeps the story straight exactly when it is not such a cancel. */
  lemma CouplingStep(s: Items, step: Step)
    requires AllOk(s) && AllCoupled(s)
    ensures AllCoupled(Apply(s, step)) <==> !Orphans(s, step)
  {
    if Orphans(s, step) {
      assert !Coupled(Apply(s, step)[step.id]);
    } else {
      forall id | id in Apply(s, step) ensures Coupled(Apply(s, step)[id]) {
        if id in s { assert Coupled(s[id]) && JobOk(s[id]); }
      }
    }
  }

  predicate NeverOrphans(s: Items, steps: seq<Step>)
    decreases |steps|
  {
    steps == [] || (!Orphans(s, steps[0]) && NeverOrphans(Apply(s, steps[0]), steps[1..]))
  }

  /** Over every run in which no cancel hits a pending delivery of a node other than minimax-v2. */
  lemma {:induction false} StoriesAgree(s: Items, steps: seq<Step>)
    requires AllOk(s) && AllCoupled(s) && NeverOrphans(s, steps)
    ensures AllOk(Exec(s, steps)) && AllCoupled(Exec(s, steps))
    decreases |steps|
  {
    hide Apply, AllOk, AllCoupled, Orphans;
    if steps != [] {
      CouplingStep(s, steps[0]);
      JobStep(s, steps[0]);
      StoriesAgree(Apply(s, steps[0]), steps[1..]);
    }
  }

  /** Deliveries of minimax-v2 nodes need no such condition. */
  lemma {:induction false} OfficialStoriesAgree(s: Items, steps: seq<Step>, id: string)
    requires id in s && s[id].official && JobOk(s[id]) && Coupled(s[id])
    ensures id in Exec(s, steps) && Coupled(Exec(s, steps)[id]) && JobOk(Exec(s, steps)[id])
    decreases |steps|
  {
    if steps != [] {
      var t := Apply(s, steps[0]);
      assert id in t && t[id].official && JobOk(t[id]) && Coupled(t[id]);
      OfficialStoriesAgree(t, steps[1..], id);
    }
  }

  /** The run that shows the condition is needed, and what comes of it: the upload can never be delivered. */
  lemma CancelOrphansTheUpload()
    ensures var s := Exec(map[], [Accept("t", false), Generated("t", "u"), CancelTask("t")]);
            && "t" in s && s["t"].status == Cancelling && s["t"].job.Some? && s["t"].job.value.status == Pending
            && !Coupled(s["t"])
  {
    var steps := [Accept("t", false), Generated("t", "u"), CancelTask("t")];
    var s1 := Apply(map[], steps[0]);
    var s2 := Apply(s1, steps[1]);
    var s3 := Apply(s2, steps[2]);
    assert Exec(map[], steps) == Exec(s1, steps[1..]) == Exec(s2, steps[2..]) == Exec(s3, steps[3..]) == s3;
  }

  lemma OrphanStep(x: Item, step: Step)
    requires x.status == Cancelling && x.job.Some? && ItemStep(x, step).Some?
    ensures var y := ItemStep(x, step).value;
            && y.status == Cancelling && y.job.Some?
            && (y.job.value.status == Delivered <==> x.job.value.status == Delivered)
  {
  }

  lemma {:induction false} OrphansStay(s: Items, steps: seq<Step>, id: string)
    requires id in s && s[id].job.Some? && s[id].status == Cancelling
    ensures var t := Exec(s, steps);
            && id in t && t[id].status == Cancelling && t[id].job.Some?
            && (t[id].job.value.status == Delivered <==> s[id].job.value.status == Delivered)
    decreases |steps|
  {
    hide ItemStep;
    if steps != [] {
      if steps[0].id == id && ItemStep(s[id], steps[0]).Some? {
        OrphanStep(s[id], steps[0]);
      }
      OrphansStay(Apply(s, steps[0]), steps[1..], id);
    }
  }

  /** After such a cancel, whatever happens next: the task stays Cancelling and its upload is never delivered. */
  lemma OrphansAreNeverDelivered(s: Items, cancel: Step, steps: seq<Step>)
    requires AllCoupled(s) && Orphans(s, cancel)
    ensures var t := Exec(Apply(s, cancel), steps);
            && cancel.id in t && t[cancel.id].status == Cancelling && t[cancel.id].job.Some?
            && t[cancel.id].job.value.status != Delivered
  {
    assert Coupled(s[cancel.id]);
    OrphansStay(Apply(s, cancel), steps, cancel.id);
  }

  /* ---------- Bounded attempts ---------- */

  /** Successful claims of one job during a run. */
  function Claims(s: Items, steps: seq<Step>, id: string): nat
    decreases |steps|
  {
    if steps == [] then 0 else
    var hit := steps[0].ClaimJob? && steps[0].id == id && id in s && ItemStep(s[id], steps[0]).Some?;
    (if hit then 1 else 0) + Claims(Apply(s, steps[0]), steps[1..], id)
  }

  /** Attempts made so far, over all rounds. */
  function Spent(j: Job): int {
    MAX_ATTEMPTS * (j.round - 1) + j.attempt
  }

  lemma SpentStep(s: Items, step: Step, id: string)
    requires id in s && JobOk(s[id]) && s[id].job.Some?
    ensures id in Apply(s, step) && JobOk(Apply(s, step)[id]) && Apply(s, step)[id].job.Some?
    ensures var j, j' := s[id].job.value, Apply(s, step)[id].job.value;
            && (if step.ClaimJob? && step.id == id && ItemStep(s[id], step).Some? then 1 else 0) <= Spent(j') - Spent(j)
            && j.round <= j'.round
            && (j.round == j'.round ==> Spent(j') - Spent(j) == if step.ClaimJob? && step.id == id
                && ItemStep(s[id], step).Some? then 1 else 0)
  {
  }

  /**
   A round's attempts are a measure that every claim uses up: within one round the claims are
   exactly the growth of the attempt number, and over all rounds there are at most three each.
   */
  lemma {:induction false} ClaimsAreBounded(s: Items, steps: seq<Step>, id: string)
    requires id in s && JobOk(s[id]) && s[id].job.Some?
    ensures var t := Exec(s, steps);
            && id in t && t[id].job.Some? && JobOk(t[id])
            && var j, j' := s[id].job.value, t[id].job.value;
            && j.round <= j'.round
            && Claims(s, steps, id) <= Spent(j') - Spent(j)
            && (j.round == j'.round ==> Claims(s, steps, id) == j'.attempt - j.attempt <= MAX_ATTEMPTS - j.attempt)
            && Claims(s, steps, id) + Spent(j) <= MAX_ATTEMPTS * j'.round
    decreases |steps|
  {
    hide ItemStep, JobOk;
    if steps == [] {
      InBounds(s[id]);
    } else {
      SpentStep(s, steps[0], id);
      ClaimsAreBounded(Apply(s, steps[0]), steps[1..], id);
    }
  }

  lemma InBounds(x: Item)
    requires JobOk(x) && x.job.Some?
    ensures x.job.value.round >= 1 && x.job.value.attempt <= MAX_ATTEMPTS
            && Spent(x.job.value) <= MAX_ATTEMPTS * x.job.value.round
  {
  }

  /** An open job is never stuck: once its times are over it can be claimed or is ended, never both. */
  lemma NeverStuck(x: Item, now: nat)
    requires JobOk(x) && x.job.Some? && Open(x.job.value.status)
    requires now >= x.job.value.expires && now >= x.job.value.next
    ensures Claimable(x, now) <==> !Exhausted(x, now)
    ensures Exhausted(x, now) ==> Recover(x, now).job.value.status == Undelivered
  {
  }

  /** A job is claimed exactly if it is open with attempts left, its time has come and no lease on it runs. */
  lemma ClaimableExactly(x: Item, now: nat)
    requires JobOk(x) && x.job.Some?
    ensures var j := x.job.value;
            Claimable(x, now) <==>
              Open(j.status) && j.attempt < MAX_ATTEMPTS && (j.token == "" || j.expires <= now) && j.next <= now
  {
  }

  /** Taken by another worker, and not after the lease has run out. */
  predicate Outside(step: Step, id: string, token: string, expires: nat) {
    && ((step.FailJob? || step.CompleteJob?) && step.id == id ==> step.token != token)
    && ((step.ClaimJob? || step.RecoverJob?) && step.id == id ==> step.now < expires)
  }

  /** As long as a lease runs nobody but its holder changes the job. */
  lemma {:induction false} LeaseExcludes(s: Items, steps: seq<Step>, id: string)
    requires id in s && JobOk(s[id]) && s[id].job.Some? && s[id].job.value.token != ""
    requires forall step | step in steps :: Outside(step, id, s[id].job.value.token, s[id].job.value.expires)
    ensures id in Exec(s, steps) && Exec(s, steps)[id].job == s[id].job
    decreases |steps|
  {
    hide Outside;
    if steps != [] {
      assert Outside(steps[0], id, s[id].job.value.token, s[id].job.value.expires);
      UntouchedJob(s, steps[0], id);
      LeaseExcludes(Apply(s, steps[0]), steps[1..], id);
    }
  }

  lemma UntouchedJob(s: Items, step: Step, id: string)
    requires id in s && JobOk(s[id]) && s[id].job.Some? && s[id].job.value.token != ""
    requires Outside(step, id, s[id].job.value.token, s[id].job.value.expires)
    ensures id in Apply(s, step) && Apply(s, step)[id].job == s[id].job && JobOk(Apply(s, step)[id])
  {
  }

  /** A worker whose lease was taken over, or whose job was ended, changes nothing. */
  lemma LostLeaseIsPowerless(x: Item, token: string, url: string, retryable: bool, next: nat)
    requires x.job.Some? ==> x.job.value.token != token
    ensures FailAttempt(x, token, retryable, next).None? && Complete(x, token, url).None?
  {
  }
}
