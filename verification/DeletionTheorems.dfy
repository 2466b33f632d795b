/** What each step of a deletion achieves: exactly when it takes effect, and what can happen next. */
module DeletionTheorems {
  import opened Domain
  import opened Deletion

  /** The item can be taken by its node from this time on. */
  ghost predicate WaitsUntil(x: Item, time: nat) {
    forall node, now: nat :: Claimable(x, node, now) <==> node == x.target.node && time <= now
  }

  /** Nobody will take the item. */
  ghost predicate IsOver(x: Item) {
    forall node, now: nat :: !Claimable(x, node, now)
  }

  /** Only this item of this job has changed, and it still stands for the same thing. */
  predicate Only(s: Jobs, s': Jobs, id: string, i: nat) {
    && id in s && id in s' && s' == s[id := s'[id]] && i < |s[id].items| && i < |s'[id].items|
    && s'[id].items == s[id].items[i := s'[id].items[i]] && s'[id].items[i].target == s[id].items[i].target
    && s'[id].total == s[id].total && s'[id].shown == s[id].shown
  }

  predicate Holds(s: Jobs, id: string, i: nat, token: string) {
    token != "" && id in s && i < |s[id].items| && s[id].items[i].token == token
  }

  /** Under way as long as anything is open, and then what the counts say. */
  predicate StatusFollows(j: Job) {
    j.status ==
      if Count(j.items, Open) > 0 then InProgress
      else FinalStatus(Count(j.items, Done), Count(j.items, Broken))
  }

  /** An item is taken exactly when it may be, for its time; the job is then under way. */
  lemma TakesExactly(s: Jobs, id: string, i: nat, node: string, token: string, now: nat, ttl: nat)
    requires AllBalanced(s)
    ensures var s' := Apply(s, Take(id, i, node, token, now, ttl));
            if token != "" && id in s && i < |s[id].items| && Claimable(s[id].items[i], node, now) then
              && Only(s, s', id, i) && Holds(s', id, i, token) && WaitsUntil(s'[id].items[i], now + ttl)
              && s'[id].items[i].attempts == s[id].items[i].attempts + 1 && s'[id].status == InProgress
            else s' == s
  {
    hide Bytes;
    if id in s && i < |s[id].items| && Claimable(s[id].items[i], node, now) {
      assert Balanced(s[id]);
      CountPositive(s[id].items, i, Open);
    }
  }

  /** The holder, and nobody else, reports an item as gone; its bytes are counted and the job follows. */
  lemma FinishesExactly(s: Jobs, id: string, i: nat, token: string, absent: bool, bytes: nat)
    requires AllBalanced(s)
    ensures var s' := Apply(s, Finish(id, i, token, absent, bytes));
            if Holds(s, id, i, token) then
              && Only(s, s', id, i) && IsOver(s'[id].items[i]) && StatusFollows(s'[id])
              && (s'[id].items[i].status == AlreadyAbsent <==> absent)
              && (s'[id].items[i].status == Deleted <==> !absent)
              && s'[id].items[i].bytes == bytes && s'[id].bytes == s[id].bytes + bytes
            else s' == s
  {
    hide Bytes;
    if Holds(s, id, i, token) {
      var j := s[id];
      assert Balanced(j) && ItemOk(j.items[i]);
      CompleteBalances(j, i, token, absent, bytes);
      GroupsPartition(Complete(j, i, token, absent, bytes).value.items);
      if Count(Complete(j, i, token, absent, bytes).value.items, Open) == 0 {
        CountPositive(Complete(j, i, token, absent, bytes).value.items, i, Done);
      }
    }
  }

  /** The holder, and nobody else, reports a failure; unless it is final the item waits for its time. */
  lemma BreaksExactly(s: Jobs, id: string, i: nat, token: string, next: nat, terminal: bool)
    requires AllBalanced(s)
    ensures var s' := Apply(s, Break(id, i, token, next, terminal));
            if Holds(s, id, i, token) then
              && Only(s, s', id, i) && StatusFollows(s'[id]) && s'[id].items[i].attempts == s[id].items[i].attempts
              && (if terminal then s'[id].items[i].status == ItemFailed
                  else s'[id].items[i].status == RetryWait && WaitsUntil(s'[id].items[i], next))
            else s' == s
  {
    hide Bytes;
    if Holds(s, id, i, token) {
      var j := s[id];
      assert Balanced(j) && ItemOk(j.items[i]);
      FailBalances(j, i, token, next, terminal);
      var j' := Fail(j, i, token, next, terminal).value;
      CountPositive(j'.items, i, if terminal then Broken else Open);
    }
  }

  /** Chosen for another try: a failed item of one of the nodes, or of any if none is named. */
  predicate Chosen(x: Item, nodes: set<string>) {
    x.status == ItemFailed && (x.target.node in nodes || |nodes| == 0)
  }

  /** A retry takes effect exactly if it names no empty node and chooses something: that can be taken at once. */
  lemma RetriesExactly(s: Jobs, id: string, nodes: set<string>)
    ensures var s' := Apply(s, Again(id, nodes));
            if "" !in nodes && id in s && exists x | x in s[id].items :: Chosen(x, nodes) then
              && id in s' && s' == s[id := s'[id]] && s'[id].status == Waiting && |s'[id].items| == |s[id].items|
              && (forall i | 0 <= i < |s[id].items| ::
                    if Chosen(s[id].items[i], nodes)
                    then WaitsUntil(s'[id].items[i], 0) && s'[id].items[i].token == ""
                         && s'[id].items[i].target == s[id].items[i].target
                         && s'[id].items[i].attempts == s[id].items[i].attempts
                    else s'[id].items[i] == s[id].items[i])
            else s' == s
  {
    hide Count, Bytes;
    if id in s {
      assert forall x | x in s[id].items :: Chosen(x, nodes) <==> Retried(x, nodes);
    }
  }

  /** Everything shown can be taken at once. */
  ghost predicate AllDue(j: Job) {
    && AsShown(j) && j.status == (if j.shown == [] then AllDeleted else Waiting)
    && forall i | 0 <= i < |j.items| :: WaitsUntil(j.items[i], 0) && j.items[i].attempts == 0 && j.items[i].bytes == 0
  }

  /** A preview is confirmed exactly if the candidates are still those it showed. */
  lemma ConfirmsExactly(s: Jobs, id: string, cs: seq<Candidate>)
    ensures var s' := Apply(s, Agree(id, cs));
            if id in s && s[id].status == Preview && s[id].shown == cs
            then id in s' && s' == s[id := s'[id]] && s'[id].shown == cs && AllDue(s'[id])
            else s' == s
  {
  }

  /** A request under a new id starts at once; a preview under a new id waits for its confirmation. */
  lemma StartsExactly(s: Jobs, id: string, cs: seq<Candidate>)
    ensures var asked, shown := Apply(s, Ask(id, cs)), Apply(s, Look(id, cs));
            if id in s then asked == shown == s
            else
              && id in asked && asked == s[id := asked[id]] && asked[id].shown == cs && AllDue(asked[id])
              && id in shown && shown == s[id := shown[id]] && shown[id].shown == cs && shown[id].status == Preview
  {
  }
}
