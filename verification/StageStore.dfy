/**
 The stage tables, changed in place.  Each method is one transaction, statement by statement;
 `Bind` is the one that keeps its earlier updates when a later one matches no row.  Each is
 proved to do to a task's rows what the operation of the same name in `StageRun` says.
 */
module StageStore {
  import opened Domain
  import R = StageRun

  datatype Head = Head(status: Status, deleted: bool, node: string, active: Option<nat>, result: string)

  type Heads = map<string, Head>
  type Stages = map<string, seq<R.Stage>>
  type Artifacts = map<string, map<nat, R.Artifact>>

  function Register(artifacts: map<nat, R.Artifact>, i: nat, a: R.Artifact): map<nat, R.Artifact> {
    artifacts[i := a]
  }

  function Assemble(h: Head, stages: seq<R.Stage>, artifacts: map<nat, R.Artifact>): R.Pipe {
    R.Pipe(h.status, h.deleted, h.node, h.active, h.result, stages, artifacts)
  }

  function Join(heads: Heads, stages: Stages, artifacts: Artifacts): map<string, R.Pipe>
    requires stages.Keys == heads.Keys == artifacts.Keys
  {
    map id | id in heads :: Assemble(heads[id], stages[id], artifacts[id])
  }

  lemma JoinPut(heads: Heads, stages: Stages, artifacts: Artifacts, id: string, h: Head, st: seq<R.Stage>,
      a: map<nat, R.Artifact>)
    requires stages.Keys == heads.Keys == artifacts.Keys && id in heads
    ensures heads[id := h].Keys == heads.Keys && stages[id := st].Keys == heads.Keys
            && artifacts[id := a].Keys == heads.Keys
    ensures Join(heads[id := h], stages[id := st], artifacts[id := a])
            == Join(heads, stages, artifacts)[id := Assemble(h, st, a)]
    ensures heads[id := heads[id]] == heads && artifacts[id := artifacts[id]] == artifacts
  {
  }

  lemma PutTwice(pipes: map<string, R.Pipe>, id: string, p: R.Pipe)
    ensures forall q: R.Pipe {:trigger pipes[id := q]} :: pipes[id := p][id := q] == pipes[id := q]
  {
  }

  class Store {
    var heads: Heads
    var stages: Stages
    var artifacts: Artifacts
    var barriers: map<string, R.Barrier>

    constructor ()
      ensures Valid() && Pipes() == map[] && barriers == map[]
    {
      heads, stages, artifacts, barriers := map[], map[], map[], map[];
    }

    ghost predicate Valid()
      reads this
    {
      stages.Keys == heads.Keys == artifacts.Keys
    }

    function Pipes(): map<string, R.Pipe>
      requires Valid()
      reads this
    {
      Join(heads, stages, artifacts)
    }

    function PipeOf(id: string): Option<R.Pipe>
      requires Valid()
      reads this
    {
      if id in heads then Some(Assemble(heads[id], stages[id], artifacts[id])) else None
    }

    /** The conditions of the claim, one after the other: the stage, the stages before it, its attempts. */
    method Claimable(id: string, i: nat, node: string, now: nat, eligible: bool) returns (ok: bool)
      requires Valid() && id in heads && i < |stages[id]|
      ensures ok <==> R.CanClaim(Assemble(heads[id], stages[id], artifacts[id]), i, node, now, eligible)
    {
      var h, line := heads[id], stages[id];
      var st := line[i];
      if h.deleted || !R.AdminCanCancel(h.status) || now < st.retryAt || now < st.expires { return false; }
      if st.preferred != "" && st.preferred != node { return false; }
      if st.status == R.SPending {
        if st.count >= st.max { return false; }
      } else if st.status == R.SLeased {
        if st.count > st.max { return false; }
      } else if !R.InFlight(st.status) || st.node != node {
        return false;
      }
      for j := 0 to i
        invariant forall m | 0 <= m < j :: R.Settled(line[m].status)
      {
        if !R.Settled(line[j].status) { return false; }
      }
      var holds := R.InFlight(st.status) && st.node == node;
      for k := 0 to |st.attempts|
        invariant forall m | 0 <= m < k :: R.Live(st.attempts[m]) ==> st.attempts[m].node == node
        invariant holds <==> || (R.InFlight(st.status) && st.node == node)
                             || exists m | 0 <= m < k :: R.Live(st.attempts[m]) && st.attempts[m].node == node
      {
        if R.Live(st.attempts[k]) {
          if st.attempts[k].node != node {
            assert st.attempts[k] in st.attempts;
            return false;
          }
          holds := true;
        }
      }
      assert forall a | a in st.attempts :: R.Live(a) ==> a.node == node;
      assert holds && !R.InFlight(st.status) ==> exists a | a in st.attempts :: R.Live(a) && a.node == node;
      return eligible || holds;
    }

    /** A node behind a barrier gets nothing. */
    method Claim(id: string, i: nat, node: string, token: string, now: nat, ttl: nat, eligible: bool) returns (ok: bool)
      requires Valid()
      modifies this`stages
      ensures Valid()
      ensures var p := old(PipeOf(id));
              var next := if p.Some? && node !in barriers then R.Claim(p.value, i, node, token, now, ttl, eligible)
                  else None;
              ok == next.Some? && Pipes() == if ok then old(Pipes())[id := next.value] else old(Pipes())
    {
      hide Join, R.CanClaim;
      if node in barriers || id !in heads { return false; }
      var h := heads[id];
      if i >= |stages[id]| || token == "" { return false; }
      var can := Claimable(id, i, node, now, eligible);
      if !can { return false; }
      var st := stages[id][i := stages[id][i].(status := R.SLeased, node := node, token := token,
                                               expires := now + ttl)];
      JoinPut(heads, stages, artifacts, id, h, st, artifacts[id]);
      stages := stages[id := st];
      return true;
    }

    /** Inserts the attempt unless any task has its id, counts it, then hands the task to the node. */
    method Create(id: string, i: nat, token: string, node: string, no: nat, attempt: string, now: nat, eligible: bool)
      returns (ok: bool)
      requires Valid()
      modifies this`stages, this`heads
      ensures Valid()
      ensures var p := old(PipeOf(id));
              var next := if p.None? || R.IdTaken(old(Pipes()), attempt) then None
                          else R.Create(p.value, i, token, node, no, attempt, now, eligible);
              ok == next.Some? && Pipes() == if ok then old(Pipes())[id := next.value] else old(Pipes())
    {
      hide Join, R.Find, R.IdTaken;
      if id !in heads || i >= |stages[id]| || heads[id].deleted { return false; }
      var h, s := heads[id], stages[id][i];
      if s.status != R.SLeased || token == "" || token != s.token || node != s.node || !R.AdminCanCancel(h.status)
         || s.expires <= now {
        return false;
      }
      if !eligible || no != s.count + 1 || no > s.max || R.Find(s.attempts, attempt) < |s.attempts| { return false; }
      if R.IdTaken(Pipes(), attempt) { return false; }
      s := s.(attempts := s.attempts + [R.Attempt(attempt, no, node, "", R.ADispatching, "")]);
      s := s.(count := s.count + 1);
      h := h.(status := Dispatching, node := node, active := Some(i));
      JoinPut(heads, stages, artifacts, id, h, stages[id][i := s], artifacts[id]);
      stages := stages[id := stages[id][i := s]];
      heads := heads[id := h];
      return true;
    }

    /** Attempt, stage and task are updated one after the other, and nothing is taken back. */
    method Bind(id: string, i: nat, token: string, attempt: string, execution: string) returns (ok: bool)
      requires Valid()
      modifies this`stages, this`heads
      ensures Valid()
      ensures var p := old(PipeOf(id));
              var rivalled := p.Some? && i < |p.value.stages|
                && R.Rivalled(old(Pipes()), p.value.stages[i].attempts, attempt, execution);
              var next := if p.None? || rivalled then None else Some(R.Bind(p.value, i, token, attempt, execution));
              && ok == (next.Some? && next.value.1)
              && Pipes() == if next.Some? then old(Pipes())[id := next.value.0] else old(Pipes())
    {
      hide Join, R.Find, R.ExecutionTaken;
      if id !in heads { return false; }
      ghost var before := Pipes();
      JoinPut(heads, stages, artifacts, id, heads[id], stages[id], artifacts[id]);
      assert stages[id := stages[id]] == stages;
      if i >= |stages[id]| { return false; }
      var s := stages[id][i];
      var k := R.Find(s.attempts, attempt);
      if k == |s.attempts| || !R.Live(s.attempts[k])
         || (s.attempts[k].execution != "" && s.attempts[k].execution != execution) {
        return false;
      }
      var node := s.attempts[k].node;
      if R.ExecutionTaken(Pipes(), node, execution, attempt) { return false; }
      ghost var table := stages;
      s := s.(attempts := s.attempts[k := s.attempts[k].(execution := execution, status := R.ARunning)]);
      JoinPut(heads, table, artifacts, id, heads[id], table[id][i := s], artifacts[id]);
      stages := stages[id := stages[id][i := s]];
      if token == "" || s.token != token || s.status != R.SLeased { return false; }
      s := s.(status := R.SRunning);
      JoinPut(heads, table, artifacts, id, heads[id], table[id][i := s], artifacts[id]);
      assert stages[id][i := s] == table[id][i := s];
      assert stages[id := stages[id][i := s]] == table[id := table[id][i := s]];
      stages := stages[id := stages[id][i := s]];
      var h := heads[id];
      if h.deleted || !R.AdminCanCancel(h.status) { return false; }
      h := h.(status := Running, node := node, active := Some(i));
      JoinPut(heads, table, artifacts, id, h, table[id][i := s], artifacts[id]);
      heads := heads[id := h];
      return true;
    }

    /** Inserts the stage's artifact unless it is there; a different one under the same id is a conflict. */
    method RegisterOutput(id: string, i: nat, size: nat, digest: string, media: string, placed: bool) returns (ok: bool)
      requires Valid()
      modifies this`artifacts
      ensures Valid()
      ensures var p := old(PipeOf(id));
              var artifact := R.Artifact(if p.Some? && i + 1 == |p.value.stages| then R.FinalVideo
                                         else R.IntermediateVideo, size, digest, media);
              && ok == (p.Some? && size > 0 && i < |p.value.stages| && !p.value.deleted && placed
                        && (i !in p.value.artifacts || p.value.artifacts[i] == artifact))
              && (ok ==> artifacts == old(artifacts)[id := Register(old(artifacts)[id], i, artifact)])
              && (!ok ==> artifacts == old(artifacts))
    {
      if id !in heads || size == 0 || i >= |stages[id]| || heads[id].deleted { return false; }
      var rollback := artifacts;
      var artifact := R.Artifact(if i + 1 == |stages[id]| then R.FinalVideo else R.IntermediateVideo, size, digest,
                                 media);
      if i !in artifacts[id] {
        artifacts := artifacts[id := Register(artifacts[id], i, artifact)];
      }
      if artifacts[id][i] != artifact || !placed {
        artifacts := rollback;
        return false;
      }
      assert artifacts[id] == Register(rollback[id], i, artifact);
      return true;
    }

    /** Ends attempt and stage, feeds the next stage and settles the task. */
    method CompleteStage(id: string, i: nat, token: string, attempt: string, output: string) returns (ok: bool)
      requires Valid()
      modifies this`stages, this`heads
      ensures Valid()
      ensures var p := old(PipeOf(id));
              var next := if p.Some? then R.Complete(p.value, i, token, attempt, output) else None;
              ok == next.Some? && Pipes() == if ok then old(Pipes())[id := next.value] else old(Pipes())
      ensures !ok ==> heads == old(heads) && stages == old(stages)
    {
      hide Join, R.Find, R.AllSettled, R.Live;
      if id !in heads || i >= |stages[id]| { return false; }
      var s := stages[id][i];
      var k := R.Find(s.attempts, attempt);
      if k == |s.attempts| || !R.Live(s.attempts[k]) || s.attempts[k].status == R.ADispatching
         || token == "" || s.token != token
             || !(s.status == R.SRunning || s.status == R.SValidating || s.status == R.SDispatching) {
        return false;
      }
      s := s.(attempts := s.attempts[k := s.attempts[k].(status := R.ASucceeded, output := output)]);
      s := s.(status := R.SSucceeded, output := output, token := "", expires := 0);
      var line := stages[id][i := s];
      if output != "" && i + 1 < |line| && line[i + 1].status == R.SPending {
        line := line[i + 1 := line[i + 1].(input := output)];
      }
      var remaining := Remaining(line);
      var h := heads[id];
      if !h.deleted {
        h := if remaining == 0 then h.(status := Succeeded, result := output, active := None)
             else h.(status := Running, node := "", active := None);
      }
      JoinPut(heads, stages, artifacts, id, h, line, artifacts[id]);
      stages := stages[id := line];
      heads := heads[id := h];
      return true;
    }

    /** Output and completion in one transaction. */
    method Complete(id: string, i: nat, token: string, attempt: string, size: nat, digest: string, media: string,
        placed: bool) returns (ok: bool)
      requires Valid()
      modifies this`stages, this`heads, this`artifacts
      ensures Valid()
      ensures var p := old(PipeOf(id));
              var next := if p.Some? then R.CompleteWithOutput(p.value, id, i, token, attempt, size, digest, media,
                                                               placed) else None;
              ok == next.Some? && Pipes() == if ok then old(Pipes())[id := next.value] else old(Pipes())
    {
      hide Join, R.Complete, R.ArtifactId;
      var rollback := artifacts;
      ok := RegisterOutput(id, i, size, digest, media, placed);
      if !ok { return false; }
      JoinPut(heads, stages, rollback, id, heads[id], stages[id], artifacts[id]);
      assert stages[id := stages[id]] == stages;
      PutTwice(old(Pipes()), id, Pipes()[id]);
      ok := CompleteStage(id, i, token, attempt, R.ArtifactId(id, i));
      if !ok {
        artifacts := rollback;
      }
    }

    /** How many stages are neither succeeded nor skipped. */
    method Remaining(line: seq<R.Stage>) returns (n: nat)
      ensures n == 0 <==> R.AllSettled(line)
    {
      n := 0;
      for j := 0 to |line|
        invariant n == 0 <==> forall m | 0 <= m < j :: R.Settled(line[m].status)
      {
        if !R.Settled(line[j].status) { n := n + 1; }
      }
      assert R.AllSettled(line) <==> forall m | 0 <= m < |line| :: R.Settled(line[m].status);
    }

    method Fail(id: string, i: nat, token: string, attempt: string, retryAt: nat, terminal: bool) returns (ok: bool)
      requires Valid()
      modifies this`stages, this`heads
      ensures Valid()
      ensures var p := old(PipeOf(id));
              var next := if p.Some? then R.Fail(p.value, i, token, attempt, retryAt, terminal) else None;
              ok == next.Some? && Pipes() == if ok then old(Pipes())[id := next.value] else old(Pipes())
    {
      hide Join, R.Find;
      if id !in heads || i >= |stages[id]| { return false; }
      var s, h := stages[id][i], heads[id];
      var k := R.Find(s.attempts, attempt);
      if k < |s.attempts| {
        s := s.(attempts := s.attempts[k := s.attempts[k].(status := R.AFailed)]);
      }
      if token == "" || s.token != token { return false; }
      s := s.(status := if terminal then R.SFailed else R.SPending, retryAt := if terminal then 0 else retryAt,
              token := "", expires := 0);
      if !h.deleted {
        h := if terminal then h.(status := Failed, active := None)
          else h.(status := Running, node := "", active := None);
      }
      JoinPut(heads, stages, artifacts, id, h, stages[id][i := s], artifacts[id]);
      stages := stages[id := stages[id][i := s]];
      heads := heads[id := h];
      return true;
    }

    /** Sets the barrier first; a node that has one already makes the whole cancel fail. */
    method Cancel(id: string) returns (ok: bool)
      requires Valid()
      modifies this`stages, this`heads, this`barriers
      ensures Valid()
      ensures var p := old(PipeOf(id));
              var barrier := if p.Some? then R.FindBarrier(id, p.value.stages) else None;
              && ok == (p.Some? && R.Cancel(p.value, id).Some?
                        && (barrier.Some? ==> barrier.value.node !in old(barriers)))
              && Pipes() == (if ok then old(Pipes())[id := R.Cancel(p.value, id).value] else old(Pipes()))
              && barriers == if ok && barrier.Some? then old(barriers)[barrier.value.node := barrier.value]
                  else old(barriers)
    {
      hide Join, R.FindBarrier, R.EndStages;
      if id !in heads || heads[id].deleted { return false; }
      var h, line := heads[id], stages[id];
      var rollback := barriers;
      var barrier := R.FindBarrier(id, line);
      if barrier.Some? {
        if barrier.value.node in barriers { return false; }
        barriers := barriers[barrier.value.node := barrier.value];
      }
      if !R.AdminCanCancel(h.status) && h.status != Cancelling {
        barriers := rollback;
        return false;
      }
      if barrier.Some? || (!IsQueued(h.status) && (h.active.Some? || h.node == "")) {
        line := R.EndStages(line);
        h := h.(status := Cancelled, node := "", active := None);
      } else if IsQueued(h.status) {
        h := h.(status := Cancelled);
      } else {
        h := h.(status := Cancelling);
      }
      JoinPut(heads, stages, artifacts, id, h, line, artifacts[id]);
      stages := stages[id := line];
      heads := heads[id := h];
      return true;
    }
  }
}
