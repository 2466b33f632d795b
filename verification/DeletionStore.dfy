/** The deletion tables, changed in place, with the recounts done as loops over the items. */
module DeletionStore {
  import opened Domain
  import D = Deletion

  /** Counting the items of a job by status group. */
  method Recount(items: seq<D.Item>) returns (done: nat, broken: nat, open: nat)
    ensures done == D.Count(items, D.Done) && broken == D.Count(items, D.Broken) && open == D.Count(items, D.Open)
  {
    done, broken, open := 0, 0, 0;
    for k := 0 to |items|
      invariant done == D.Count(items[..k], D.Done) && broken == D.Count(items[..k], D.Broken)
                && open == D.Count(items[..k], D.Open)
    {
      assert items[..k + 1][..k] == items[..k];
      var s := items[k].status;
      if D.IsDone(s) { done := done + 1; }
      else if s == D.ItemFailed { broken := broken + 1; }
      else if s != D.Skipped { open := open + 1; }
    }
    assert items[..|items|] == items;
  }

  class Store {
    var jobs: D.Jobs
    var queue: seq<(string, nat)>  // items by creation time: job and position

    constructor ()
      ensures Valid() && jobs == map[]
    {
      jobs, queue := map[], [];
    }

    ghost predicate Valid()
      reads this
    {
      forall q | q in queue :: q.0 in jobs && q.1 < |jobs[q.0].items|
    }

    /** The oldest item of the node that is due; its job is running from then on. */
    method Claim(node: string, token: string, now: nat, ttl: nat) returns (claimed: Option<(string, nat)>)
      requires Valid()
      modifies this`jobs
      ensures Valid()
      ensures claimed.Some? ==>
                && claimed.value.0 in old(jobs)
                && var next := D.Claim(old(jobs)[claimed.value.0], claimed.value.1, node, token, now, ttl);
                && next.Some? && jobs == old(jobs)[claimed.value.0 := next.value]
                && exists n :: 0 <= n < |queue| && queue[n] == claimed.value
                    && forall k | 0 <= k < n :: !D.Claimable(old(jobs)[queue[k].0].items[queue[k].1], node, now)
      ensures claimed.None? ==>
                && jobs == old(jobs)
                && (token == "" || forall q | q in queue :: !D.Claimable(jobs[q.0].items[q.1], node, now))
    {
      if token == "" { return None; }
      for k := 0 to |queue|
        invariant jobs == old(jobs)
        invariant forall m | 0 <= m < k :: !D.Claimable(jobs[queue[m].0].items[queue[m].1], node, now)
      {
        var (id, i) := queue[k];
        assert queue[k] in queue;
        var j := jobs[id];
        var x := j.items[i];
        if D.Claimable(x, node, now) {
          x := x.(status := D.Deleting, token := token, expires := now + ttl, attempts := x.attempts + 1);
          j := j.(items := j.items[i := x]);
          if j.status == D.Waiting { j := j.(status := D.InProgress); }
          jobs := jobs[id := j];
          return Some(queue[k]);
        }
      }
      return None;
    }

    method Fail(id: string, i: nat, token: string, next: nat, terminal: bool) returns (ok: bool)
      requires Valid()
      modifies this`jobs
      ensures Valid()
      ensures var after := if id in old(jobs) then D.Fail(old(jobs)[id], i, token, next, terminal) else None;
              ok == after.Some? && jobs == if ok then old(jobs)[id := after.value] else old(jobs)
    {
      hide D.Count;
      if id !in jobs || !D.Held(jobs[id], i, token) { return false; }
      var j := jobs[id];
      var items := j.items[i := j.items[i].(status := if terminal then D.ItemFailed else D.RetryWait,
                                            next := if terminal then 0 else next, token := "", expires := 0)];
      var done, broken, open := Recount(items);
      var status := D.InProgress;
      if terminal && open == 0 {
        status := if done > 0 then D.PartialFailed else D.JobFailed;
      }
      jobs := jobs[id := j.(items := items, status := status, failed := broken)];
      return true;
    }

    method Complete(id: string, i: nat, token: string, absent: bool, bytes: nat) returns (ok: bool)
      requires Valid()
      modifies this`jobs
      ensures Valid()
      ensures var after := if id in old(jobs) then D.Complete(old(jobs)[id], i, token, absent, bytes) else None;
              ok == after.Some? && jobs == if ok then old(jobs)[id := after.value] else old(jobs)
    {
      hide D.Count;
      if id !in jobs || !D.Held(jobs[id], i, token) { return false; }
      var j := jobs[id];
      var items := j.items[i := j.items[i].(status := if absent then D.AlreadyAbsent else D.Deleted, bytes := bytes,
                                            token := "", expires := 0)];
      var done, broken, open := Recount(items);
      var status := D.InProgress;
      if done + broken == |items| {
        status := if broken > 0 then D.PartialFailed else D.AllDeleted;
      }
      jobs := jobs[id := j.(items := items, status := status, succeeded := done, failed := broken,
                            bytes := j.bytes + bytes)];
      return true;
    }

    method Retry(id: string, nodes: set<string>) returns (ok: bool)
      requires Valid()
      modifies this`jobs
      ensures Valid()
      ensures var after := if id in old(jobs) then D.Retry(old(jobs)[id], nodes) else None;
              ok == after.Some? && jobs == if ok then old(jobs)[id := after.value] else old(jobs)
    {
      hide D.Count;
      if "" in nodes || id !in jobs { return false; }
      var j := jobs[id];
      var items := j.items;
      var touched := 0;
      for k := 0 to |j.items|
        invariant |items| == |j.items|
        invariant forall m | 0 <= m < |items| :: items[m] == if m < k then D.RetryItem(j.items[m], nodes)
                  else j.items[m]
        invariant touched > 0 <==> exists m :: 0 <= m < k && D.Retried(j.items[m], nodes)
      {
        if D.Retried(items[k], nodes) {
          items := items[k := items[k].(status := D.Pending, next := 0, token := "", expires := 0)];
          touched := touched + 1;
        }
      }
      assert items == D.RetryItems(j.items, nodes);
      if touched == 0 { return false; }
      var done, broken, open := Recount(items);
      jobs := jobs[id := j.(items := items, status := D.Waiting, failed := broken)];
      return true;
    }
  }

  /* ---------- Summing up candidates ---------- */

  datatype Progress = Progress(node: string, count: nat, bytes: nat)

  function Total(cs: seq<D.Candidate>): nat {
    if cs == [] then 0 else Total(cs[..|cs| - 1]) + cs[|cs| - 1].size
  }

  function OnNode(cs: seq<D.Candidate>, node: string): Progress {
    if cs == [] then Progress(node, 0, 0) else
    var p := OnNode(cs[..|cs| - 1], node);
    if cs[|cs| - 1].node == node then Progress(node, p.count + 1, p.bytes + cs[|cs| - 1].size) else p
  }

  /** Totals over the nodes listed. */
  function SumCount(nodes: seq<Progress>): nat {
    if nodes == [] then 0 else SumCount(nodes[..|nodes| - 1]) + nodes[|nodes| - 1].count
  }

  function SumBytes(nodes: seq<Progress>): nat {
    if nodes == [] then 0 else SumBytes(nodes[..|nodes| - 1]) + nodes[|nodes| - 1].bytes
  }

  lemma {:induction false} SumUpdate(nodes: seq<Progress>, k: nat, p: Progress)
    requires k < |nodes|
    ensures SumCount(nodes[k := p]) == SumCount(nodes) - nodes[k].count + p.count
    ensures SumBytes(nodes[k := p]) == SumBytes(nodes) - nodes[k].bytes + p.bytes
  {
    var n := |nodes| - 1;
    if k == n {
      assert nodes[k := p][..n] == nodes[..n];
    } else {
      assert nodes[k := p][..n] == nodes[..n][k := p];
      SumUpdate(nodes[..n], k, p);
    }
  }

  predicate Listed(nodes: seq<Progress>, node: string) {
    exists k :: 0 <= k < |nodes| && nodes[k].node == node
  }

  /** What every listed node stands for, and that no node is listed twice or forgotten. */
  predicate Faithful(nodes: seq<Progress>, cs: seq<D.Candidate>) {
    && (forall k | 0 <= k < |nodes| :: nodes[k] == OnNode(cs, nodes[k].node))
    && (forall j, k | 0 <= j < k < |nodes| :: nodes[j].node != nodes[k].node)
    && (forall i | 0 <= i < |cs| :: Listed(nodes, cs[i].node))
  }

  lemma ListedStays(nodes: seq<Progress>, more: seq<Progress>, node: string)
    requires Listed(nodes, node) && |nodes| <= |more| && forall k | 0 <= k < |nodes| :: more[k].node == nodes[k].node
    ensures Listed(more, node)
  {
    var k :| 0 <= k < |nodes| && nodes[k].node == node;
    assert more[k].node == node;
  }

  /** Another candidate on a node already listed. */
  lemma FaithfulBump(nodes: seq<Progress>, cs: seq<D.Candidate>, c: D.Candidate, k: nat)
    requires Faithful(nodes, cs) && k < |nodes| && nodes[k].node == c.node
    ensures Faithful(nodes[k := Progress(c.node, nodes[k].count + 1, nodes[k].bytes + c.size)], cs + [c])
  {
    var more := nodes[k := Progress(c.node, nodes[k].count + 1, nodes[k].bytes + c.size)];
    assert (cs + [c])[..|cs|] == cs;
    forall i | 0 <= i < |cs + [c]| ensures Listed(more, (cs + [c])[i].node) {
      if i < |cs| {
        ListedStays(nodes, more, cs[i].node);
      } else {
        assert more[k].node == c.node;
      }
    }
  }

  /** The first candidate on a node. */
  lemma FaithfulAdd(nodes: seq<Progress>, cs: seq<D.Candidate>, c: D.Candidate)
    requires Faithful(nodes, cs) && !Listed(nodes, c.node)
    ensures Faithful(nodes + [Progress(c.node, 1, c.size)], cs + [c])
  {
    var more := nodes + [Progress(c.node, 1, c.size)];
    assert (cs + [c])[..|cs|] == cs;
    NobodyThere(nodes, cs, c.node);
    forall i | 0 <= i < |cs + [c]| ensures Listed(more, (cs + [c])[i].node) {
      if i < |cs| {
        ListedStays(nodes, more, cs[i].node);
      } else {
        assert more[|nodes|].node == c.node;
      }
    }
  }

  lemma {:induction false} NobodyThere(nodes: seq<Progress>, cs: seq<D.Candidate>, node: string)
    requires (forall i | 0 <= i < |cs| :: Listed(nodes, cs[i].node)) && !Listed(nodes, node)
    ensures OnNode(cs, node) == Progress(node, 0, 0)
  {
    if cs != [] {
      NobodyThere(nodes, cs[..|cs| - 1], node);
    }
  }

  lemma Extended(nodes: seq<Progress>, p: Progress, cs: seq<D.Candidate>, c: D.Candidate)
    ensures SumCount(nodes + [p]) == SumCount(nodes) + p.count && SumBytes(nodes + [p]) == SumBytes(nodes) + p.bytes
    ensures Total(cs + [c]) == Total(cs) + c.size
  {
    assert (nodes + [p])[..|nodes|] == nodes && (cs + [c])[..|cs|] == cs;
  }

  lemma NothingYet()
    ensures Faithful([], []) && SumCount([]) == 0 && SumBytes([]) == 0 && Total([]) == 0
  {
  }

  /** One pass over the candidates; per-node figures add up to the totals. */
  method Summarise(cs: seq<D.Candidate>) returns (count: nat, bytes: nat, nodes: seq<Progress>)
    ensures count == |cs| && bytes == Total(cs)
    ensures Faithful(nodes, cs) && SumCount(nodes) == count && SumBytes(nodes) == bytes
  {
    hide Faithful, Listed, OnNode, SumCount, SumBytes, Total;
    count, bytes, nodes := 0, 0, [];
    NothingYet();
    for i := 0 to |cs|
      invariant count == i && bytes == Total(cs[..i])
      invariant Faithful(nodes, cs[..i]) && SumCount(nodes) == count && SumBytes(nodes) == bytes
    {
      var c := cs[i];
      assert cs[..i + 1] == cs[..i] + [c];
      bytes := bytes + c.size;
      count := count + 1;
      var k := Locate(nodes, c.node);
      Extended(nodes, Progress(c.node, 1, c.size), cs[..i], c);
      if k == |nodes| {
        FaithfulAdd(nodes, cs[..i], c);
        nodes := nodes + [Progress(c.node, 1, c.size)];
      } else {
        var p := Progress(c.node, nodes[k].count + 1, nodes[k].bytes + c.size);
        SumUpdate(nodes, k, p);
        FaithfulBump(nodes, cs[..i], c, k);
        nodes := nodes[k := p];
      }
    }
    assert cs[..|cs|] == cs;
  }

  method Locate(nodes: seq<Progress>, node: string) returns (k: nat)
    ensures k <= |nodes| && (k < |nodes| ==> nodes[k].node == node) && (k == |nodes| <==> !Listed(nodes, node))
  {
    k := 0;
    while k < |nodes| && nodes[k].node != node
      invariant k <= |nodes| && forall m | 0 <= m < k :: nodes[m].node != node
    {
      k := k + 1;
    }
  }
}
