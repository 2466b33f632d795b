/**
 What each step of a delivery achieves, in every state of a run in which no cancel has pulled a task
 out from under its upload: exactly when it takes effect, and what can happen next.
 */
module DeliveryTheorems {
  import opened Domain
  import opened Delivery

  predicate Holds(x: Item, token: string) {
    token != "" && x.job.Some? && x.job.value.token == token
  }

  /** The job can be claimed from this time on. */
  ghost predicate WaitsUntil(x: Item, time: nat) {
    forall now: nat :: Claimable(x, now) <==> time <= now
  }

  /** Nobody will claim the job unless an administrator retries it. */
  ghost predicate IsOver(x: Item) {
    x.job.Some? && forall now: nat :: !Claimable(x, now) && !Exhausted(x, now)
  }

  /** Only this task has changed, and of it only what belongs to the delivery. */
  predicate Only(s: Items, s': Items, id: string) {
    && id in s && id in s' && s' == s[id := s'[id]]
    && s'[id].official == s[id].official
  }

  /** A job is claimed exactly when it may be; then it is held for its time, and one attempt is spent. */
  lemma ClaimsExactly(s: Items, id: string, token: string, now: nat, ttl: nat)
    requires AllOk(s) && token != ""
    ensures var s' := Apply(s, ClaimJob(id, token, now, ttl));
            if id in s && Claimable(s[id], now) then
              && Only(s, s', id) && Holds(s'[id], token)
              && s'[id].job.value.attempt == s[id].job.value.attempt + 1
              && s'[id].job.value.round == s[id].job.value.round
              && (s'[id].job.value.attempt < MAX_ATTEMPTS ==> WaitsUntil(s'[id], now + ttl))
              && (s'[id].job.value.attempt == MAX_ATTEMPTS ==>
                    forall t: nat :: !Claimable(s'[id], t) && (Exhausted(s'[id], t) <==> now + ttl <= t))
            else s' == s
  {
    assert id in s ==> JobOk(s[id]);
  }

  /** The holder of the lease, and nobody else, delivers; the address goes to job and task. */
  lemma CompletesExactly(s: Items, id: string, token: string, url: string)
    requires AllOk(s) && AllCoupled(s)
    ensures var s' := Apply(s, CompleteJob(id, token, url));
            if id in s && Holds(s[id], token) then
              && Only(s, s', id) && IsOver(s'[id]) && s'[id].origin == s[id].origin
              && s'[id].status == Succeeded && s'[id].public == url == s'[id].job.value.url && s'[id].cause == NoCause
            else s' == s
  {
    if id in s {
      assert JobOk(s[id]) && Coupled(s[id]);
    }
  }

  /**
   The holder of the lease, and nobody else, reports a failure: with attempts left a failure worth
   retrying puts the job back until its time, any other one ends job and task.
   */
  lemma FailsExactly(s: Items, id: string, token: string, retryable: bool, next: nat)
    requires AllOk(s) && AllCoupled(s)
    ensures var s' := Apply(s, FailJob(id, token, retryable, next));
            if id in s && Holds(s[id], token) then
              && Only(s, s', id)
              && (if retryable && s[id].job.value.attempt < MAX_ATTEMPTS
                  then WaitsUntil(s'[id], next) && s'[id].status == Reconciling
                       && s'[id].job.value.attempt == s[id].job.value.attempt
                  else IsOver(s'[id]) && s'[id].status == Failed && s'[id].cause == UploadFailed)
            else s' == s
  {
    if id in s {
      assert JobOk(s[id]) && Coupled(s[id]);
    }
  }

  /** Recovery ends exactly the exhausted jobs, each with its task. */
  lemma RecoversExactly(s: Items, id: string, now: nat)
    requires AllOk(s) && AllCoupled(s)
    ensures var s' := Apply(s, RecoverJob(id, now));
            if id in s && Exhausted(s[id], now)
            then Only(s, s', id) && IsOver(s'[id]) && s'[id].status == Failed && s'[id].cause == UploadFailed
            else s' == s
  {
    if id in s {
      assert JobOk(s[id]) && Coupled(s[id]);
      assert s[id := s[id]] == s;
    }
  }

  /** An administrator retries exactly the deliveries that failed: a new round, due at once. */
  lemma RetriesExactly(s: Items, id: string)
    requires AllOk(s) && AllCoupled(s)
    ensures var s' := Apply(s, RetryJob(id));
            if id in s && s[id].job.Some? && s[id].status == Failed then
              && Only(s, s', id) && WaitsUntil(s'[id], 0) && s'[id].status == Reconciling && s'[id].cause == NoCause
              && s'[id].job.value.round == s[id].job.value.round + 1 && s'[id].job.value.attempt == 0
            else s' == s
  {
    if id in s {
      assert JobOk(s[id]) && Coupled(s[id]);
    }
  }

  /**
   A generated result starts its delivery exactly if there is none yet, its address is known and the
   task is still at work, for minimax-v2 also not being cancelled; the first origin stays except there.
   */
  lemma DeliversExactly(s: Items, id: string, origin: string)
    requires AllOk(s)
    ensures var s' := Apply(s, Generated(id, origin));
            if && id in s && s[id].job.None? && origin != ""
               && (s[id].status == Dispatching || s[id].status == Running
                   || (s[id].status == Cancelling && !s[id].official))
            then
              && Only(s, s', id) && WaitsUntil(s'[id], 0) && s'[id].status == Reconciling && s'[id].cause == NoCause
              && s'[id].job.value.round == 1 && s'[id].job.value.attempt == 0 && s'[id].public == ""
              && (s[id].origin == None || s[id].official ==> s'[id].origin == Some(origin))
              && (s[id].origin.Some? && !s[id].official ==> s'[id].origin == s[id].origin)
            else s' == s
  {
    assert id in s ==> JobOk(s[id]);
  }

  /** A cancel reaches exactly the tasks at work on other nodes than minimax-v2, their delivery included. */
  lemma CancelsExactly(s: Items, id: string)
    requires AllOk(s)
    ensures var s' := Apply(s, CancelTask(id));
            if && id in s && !s[id].official
               && (s[id].status == Dispatching || s[id].status == Running || s[id].status == Reconciling)
            then s' == s[id := s[id].(status := Cancelling)]
            else s' == s
  {
  }
}
