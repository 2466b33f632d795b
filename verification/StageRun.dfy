/**
 One H3 task with its stages, their attempts and its artifacts, and the store transactions
 on them.  Stage `i` of the sequence is the stage with the i-th smallest stage_order.
 */
module StageRun {
  import opened Domain

  datatype StageStatus =
    | SPending | SLeased | SDispatching | SRunning | SValidating | SUnknown
    | SSucceeded | SFailed | SCancelled | SSkipped

  datatype AttemptStatus = ADispatching | ARunning | AValidating | AUnknown | ASucceeded | AFailed

  datatype Attempt = Attempt(id: string, no: nat, node: string, execution: string, status: AttemptStatus,
                             output: string)

  /** An empty string or a zero stands for NULL. */
  datatype Stage = Stage(
    status: StageStatus, count: nat, max: nat, preferred: string, node: string,
    input: string, output: string, token: string, expires: nat, retryAt: nat,
    attempts: seq<Attempt>)

  datatype Kind = IntermediateVideo | FinalVideo
  datatype Artifact = Artifact(kind: Kind, size: nat, digest: string, media: string)

  datatype Pipe = Pipe(
    status: Status, deleted: bool, node: string, active: Option<nat>, result: string,
    stages: seq<Stage>, artifacts: map<nat, Artifact>)

  /** Stands for the hash of task and stage: that distinct stages get distinct ids is taken for granted. */
  function ArtifactId(task: string, i: nat): string {
    "art:" + Unary(i) + task
  }

  function Unary(i: nat): string {
    if i == 0 then ":" else "." + Unary(i - 1)
  }

  predicate Live(a: Attempt) {
    a.status == ADispatching || a.status == ARunning || a.status == AValidating || a.status == AUnknown
  }

  predicate InFlight(s: StageStatus) {
    s == SDispatching || s == SRunning || s == SValidating || s == SUnknown
  }

  predicate Settled(s: StageStatus) {
    s == SSucceeded || s == SSkipped
  }

  predicate AdminCanCancel(s: Status) {
    IsQueued(s) || s == Dispatching || s == Running || s == Reconciling
  }

  function SetStage(p: Pipe, i: nat, st: Stage): Pipe
    requires i < |p.stages|
  {
    p.(stages := p.stages[i := st])
  }

  /** Position of the attempt with this id, or the number of attempts. */
  function Find(attempts: seq<Attempt>, id: string): (k: nat)
    ensures k <= |attempts|
    ensures k < |attempts| ==> attempts[k].id == id
    ensures forall j | 0 <= j < k :: attempts[j].id != id
  {
    if attempts == [] || attempts[0].id == id then 0 else 1 + Find(attempts[1..], id)
  }

  /* ---------- Unique keys of the attempt table ---------- */

  function AllAttempts(pipes: map<string, Pipe>): set<Attempt> {
    set t, st, a | t in pipes && st in pipes[t].stages && a in st.attempts :: a
  }

  /** Some attempt of any task has this id. */
  predicate IdTaken(pipes: map<string, Pipe>, id: string) {
    exists a | a in AllAttempts(pipes) :: a.id == id
  }

  /** Another attempt on this node has this execution. */
  predicate ExecutionTaken(pipes: map<string, Pipe>, node: string, execution: string, id: string) {
    exists a | a in AllAttempts(pipes) :: a.id != id && a.node == node && a.execution == execution && execution != ""
  }

  /** The attempt with this id stands on a node where another one has the execution. */
  predicate Rivalled(pipes: map<string, Pipe>, attempts: seq<Attempt>, id: string, execution: string) {
    var k := Find(attempts, id);
    k < |attempts| && ExecutionTaken(pipes, attempts[k].node, execution, id)
  }

  /* ---------- The transactions ---------- */

  predicate CanClaim(p: Pipe, i: nat, node: string, now: nat, eligible: bool)
    requires i < |p.stages|
  {
    var st := p.stages[i];
    && !p.deleted && AdminCanCancel(p.status)
    && ((st.status == SPending && st.count < st.max) || (st.status == SLeased && st.count <= st.max)
        || InFlight(st.status))
    && st.retryAt <= now && st.expires <= now
    && (st.preferred == "" || st.preferred == node)
    && (InFlight(st.status) ==> st.node == node)
    && (forall a | a in st.attempts && Live(a) :: a.node == node)
    && (forall j | 0 <= j < i :: Settled(p.stages[j].status))
    && (eligible || (exists a | a in st.attempts :: Live(a) && a.node == node)
        || (st.node == node && InFlight(st.status)))
  }

  function Claim(p: Pipe, i: nat, node: string, token: string, now: nat, ttl: nat, eligible: bool): Option<Pipe> {
    if i < |p.stages| && token != "" && CanClaim(p, i, node, now, eligible)
    then Some(SetStage(p, i, p.stages[i].(status := SLeased, node := node, token := token, expires := now + ttl)))
    else None
  }

  function Renew(p: Pipe, i: nat, token: string, now: nat, ttl: nat): Option<Pipe> {
    if i < |p.stages| && token != "" && p.stages[i].token == token && now < p.stages[i].expires
       && (p.stages[i].status == SLeased || p.stages[i].status == SDispatching || p.stages[i].status == SRunning
           || p.stages[i].status == SValidating)
    then Some(SetStage(p, i, p.stages[i].(expires := now + ttl)))
    else None
  }

  function Create(p: Pipe, i: nat, token: string, node: string, no: nat, id: string, now: nat,
      eligible: bool): Option<Pipe>
  {
    if i >= |p.stages| || p.deleted then None else
    var st := p.stages[i];
    if st.status == SLeased && token != "" && st.token == token && st.node == node
       && AdminCanCancel(p.status) && now < st.expires && eligible
       && no == st.count + 1 && no <= st.max && Find(st.attempts, id) == |st.attempts|
    then Some(SetStage(p, i, st.(count := st.count + 1,
                                 attempts := st.attempts + [Attempt(id, no, node, "", ADispatching, "")]))
              .(status := Dispatching, node := node, active := Some(i)))
    else None
  }

  /**
   Binding an execution.  The error is not seen by the transaction, so what was updated
   before a later update matches no row stays: the result is always a new state.
   */
  function Bind(p: Pipe, i: nat, token: string, id: string, execution: string): (Pipe, bool) {
    if i >= |p.stages| then (p, false) else
    var st := p.stages[i];
    var k := Find(st.attempts, id);
    if k == |st.attempts| || !Live(st.attempts[k])
       || (st.attempts[k].execution != "" && st.attempts[k].execution != execution)
    then (p, false) else
    var a := st.attempts[k].(execution := execution, status := ARunning);
    var st1 := st.(attempts := st.attempts[k := a]);
    var p1 := SetStage(p, i, st1);
    if token == "" || st.token != token || st.status != SLeased then (p1, false) else
    var p2 := SetStage(p, i, st1.(status := SRunning));
    if p.deleted || !AdminCanCancel(p.status) then (p2, false) else
    (p2.(status := Running, node := a.node, active := Some(i)), true)
  }

  /** The first stage after `i` gets the output as its input if it is still pending. */
  function HandOver(stages: seq<Stage>, i: nat, output: string): seq<Stage>
    requires i < |stages|
  {
    if output != "" && i + 1 < |stages| && stages[i + 1].status == SPending
    then stages[i + 1 := stages[i + 1].(input := output)]
    else stages
  }

  predicate AllSettled(stages: seq<Stage>) {
    forall st | st in stages :: Settled(st.status)
  }

  function Complete(p: Pipe, i: nat, token: string, id: string, output: string): Option<Pipe> {
    if i >= |p.stages| then None else
    var st := p.stages[i];
    var k := Find(st.attempts, id);
    if k == |st.attempts| || !Live(st.attempts[k]) || st.attempts[k].status == ADispatching
       || token == "" || st.token != token
       || !(st.status == SRunning || st.status == SValidating || st.status == SDispatching)
    then None else
    var done := st.(status := SSucceeded, output := output, token := "", expires := 0,
                    attempts := st.attempts[k := st.attempts[k].(status := ASucceeded, output := output)]);
    var p1 := p.(stages := HandOver(p.stages[i := done], i, output));
    Some(if p.deleted then p1
         else if AllSettled(p1.stages) then p1.(status := Succeeded, result := output, active := None)
         else p1.(status := Running, node := "", active := None))
  }

  /** Register the output under the stage's own artifact id, then complete the stage, in one transaction. */
  function CompleteWithOutput(p: Pipe, task: string, i: nat, token: string, id: string, size: nat, digest: string,
      media: string, placed: bool): Option<Pipe>
  {
    if i >= |p.stages| || p.deleted || size == 0 || !placed then None else
    var artifact := Artifact(if i + 1 == |p.stages| then FinalVideo else IntermediateVideo, size, digest, media);
    if i in p.artifacts && p.artifacts[i] != artifact then None else
    Complete(p.(artifacts := p.artifacts[i := artifact]), i, token, id, ArtifactId(task, i))
  }

  function Fail(p: Pipe, i: nat, token: string, id: string, retryAt: nat, terminal: bool): Option<Pipe> {
    if i >= |p.stages| || token == "" || p.stages[i].token != token then None else
    var st := p.stages[i];
    var k := Find(st.attempts, id);
    var attempts := if k < |st.attempts| then st.attempts[k := st.attempts[k].(status := AFailed)] else st.attempts;
    var p1 := SetStage(p, i, st.(status := if terminal then SFailed else SPending,
                                 retryAt := if terminal then 0 else retryAt,
                                 token := "", expires := 0, attempts := attempts));
    Some(if p.deleted then p1
         else if terminal then p1.(status := Failed, active := None)
         else p1.(status := Running, node := "", active := None))
  }

  /* ---------- Cancelling ---------- */

  datatype Barrier = Barrier(node: string, task: string, stage: nat, attempt: string, execution: string, version: nat)

  /** The live attempt with the greatest (stage_order, attempt_no). */
  function LastLive(attempts: seq<Attempt>): Option<Attempt> {
    if attempts == [] then None
    else if Live(attempts[|attempts| - 1]) then Some(attempts[|attempts| - 1])
    else LastLive(attempts[..|attempts| - 1])
  }

  function FindBarrier(task: string, stages: seq<Stage>): Option<Barrier> {
    if stages == [] then None else
    var n := |stages| - 1;
    var a := LastLive(stages[n].attempts);
    if a.Some? then Some(Barrier(a.value.node, task, n, a.value.id, a.value.execution, 1))
    else FindBarrier(task, stages[..n])
  }

  function EndAttempts(attempts: seq<Attempt>): (r: seq<Attempt>)
    ensures |r| == |attempts|
    ensures forall k | 0 <= k < |r| ::
            r[k] == (if Live(attempts[k]) then attempts[k].(status := AFailed) else attempts[k])
  {
    seq(|attempts|, k requires 0 <= k < |attempts| => if Live(attempts[k]) then attempts[k].(status := AFailed)
        else attempts[k])
  }

  function EndStage(st: Stage): Stage {
    var st1 := st.(attempts := EndAttempts(st.attempts));
    if st.status == SSucceeded || st.status == SFailed || st.status == SSkipped || st.status == SCancelled then st1
    else st1.(status := SCancelled, token := "", expires := 0, retryAt := 0)
  }

  function EndStages(stages: seq<Stage>): (r: seq<Stage>)
    ensures |r| == |stages|
    ensures forall i | 0 <= i < |r| :: r[i] == EndStage(stages[i])
  {
    seq(|stages|, i requires 0 <= i < |stages| => EndStage(stages[i]))
  }

  function FinishCancel(p: Pipe): Pipe {
    p.(stages := EndStages(p.stages), status := Cancelled, node := "", active := None)
  }

  /** The administrator's cancel of a task; the barrier it needs is `FindBarrier`. */
  function Cancel(p: Pipe, task: string): Option<Pipe> {
    if p.deleted then None else
    var barrier := FindBarrier(task, p.stages);
    if IsQueued(p.status) then
      Some(if barrier.Some? then FinishCancel(p) else p.(status := Cancelled))
    else if p.status == Dispatching || p.status == Running || p.status == Reconciling then
      Some(if barrier.Some? || p.active.Some? || p.node == "" then FinishCancel(p) else p.(status := Cancelling))
    else if p.status == Cancelling then
      Some(if barrier.Some? || p.active.Some? || p.node == "" then FinishCancel(p) else p)
    else None
  }

  function OwnerCancel(p: Pipe): Option<Pipe> {
    if !p.deleted && p.status == QueuedOpen then Some(p.(status := Cancelled)) else None
  }

  function Delete(p: Pipe): Option<Pipe> {
    if !p.deleted && IsTerminal(p.status) then Some(p.(deleted := true)) else None
  }

  function Rebalance(p: Pipe, locked: bool): Pipe {
    if !p.deleted && IsQueued(p.status) then p.(status := if locked then QueuedLocked else QueuedOpen) else p
  }

  function NewStage(max: nat, preferred: string, input: string): Stage {
    Stage(SPending, 0, max, preferred, "", input, "", "", 0, 0, [])
  }

  predicate NewStages(stages: seq<Stage>) {
    forall st | st in stages :: st.max >= 1 && st == NewStage(st.max, st.preferred, st.input)
  }

  function NewPipe(stages: seq<Stage>): Pipe {
    Pipe(QueuedOpen, false, "", None, "", stages, map[])
  }

  /* ---------- What every transaction keeps ---------- */

  predicate HasLive(st: Stage) {
    st.attempts != [] && Live(st.attempts[|st.attempts| - 1])
  }

  /** Attempts are numbered, only the last can be live, and a live one holds the stage on its node. */
  predicate StageOk(st: Stage) {
    && |st.attempts| == st.count <= st.max && 1 <= st.max
    && (forall k | 0 <= k < |st.attempts| :: st.attempts[k].no == k + 1)
    && (forall k | 0 <= k < |st.attempts| - 1 :: !Live(st.attempts[k]))
    && (forall j, k | 0 <= j < k < |st.attempts| :: st.attempts[j].id != st.attempts[k].id)
    && (st.status == SPending || st.status == SLeased || st.status == SRunning || st.status == SSucceeded
        || st.status == SFailed || st.status == SCancelled)
    && (st.token != "" <==> st.status == SLeased || st.status == SRunning)
    && (st.token == "" ==> st.expires == 0)
    && (HasLive(st) ==> st.token != "" && st.node != "" && st.attempts[|st.attempts| - 1].node == st.node)
    && (st.status == SRunning ==> HasLive(st))
    && (st.status == SPending || (st.status == SLeased && !HasLive(st)) ==> st.count < st.max)
  }

  /** Where stage `i` of `n` stands in its task. */
  predicate SoloOk(p: Pipe, task: string, i: nat, st: Stage) {
    && (HasLive(st) ==> p.active == Some(i) && (p.status == Dispatching || p.status == Running))
    && (st.status == SCancelled ==> p.status == Cancelled)
    && (st.status == SSucceeded ==>
          && st.output == ArtifactId(task, i)
          && i in p.artifacts && (p.artifacts[i].kind == FinalVideo <==> i + 1 == |p.stages|))
    && (i in p.artifacts ==> st.status == SSucceeded)
  }

  /** Someone has claimed or tried this stage. */
  predicate Begun(st: Stage) {
    st.attempts != [] || (st.status != SPending && st.status != SCancelled)
  }

  /** Between a stage and the next: strictly in order, and the output is handed over. */
  predicate LinkOk(a: Stage, b: Stage) {
    && (Begun(b) ==> a.status == SSucceeded)
    && (a.status == SSucceeded ==> b.input == a.output)
  }

  predicate TaskOk(p: Pipe) {
    && (p.status == Succeeded <==> p.stages != [] && p.stages[|p.stages| - 1].status == SSucceeded)
    && (p.status == Succeeded ==> p.result == p.stages[|p.stages| - 1].output)
    && (IsQueued(p.status) || p.status == Dispatching || p.status == Running || IsTerminal(p.status))
    && (p.deleted ==> IsTerminal(p.status))
    && (AdminCanCancel(p.status) ==> (p.node != "" <==> p.active.Some?))
  }

  predicate PipeOk(p: Pipe, task: string) {
    && (forall i | 0 <= i < |p.stages| :: StageOk(p.stages[i]))
    && (forall i | 0 <= i < |p.stages| :: SoloOk(p, task, i, p.stages[i]))
    && (forall i | 0 < i < |p.stages| :: LinkOk(p.stages[i - 1], p.stages[i]))
    && TaskOk(p)
  }

  /** How a stage may change over any number of steps. */
  predicate StageEvolves(a: Stage, b: Stage) {
    && b.max == a.max && a.count <= b.count && |a.attempts| <= |b.attempts|
    && (a.status == SSucceeded ==> b.status == SSucceeded && b.output == a.output && b.count == a.count)
    && (forall k | 0 <= k < |a.attempts| ::
          && b.attempts[k].id == a.attempts[k].id && b.attempts[k].node == a.attempts[k].node
          && (Live(b.attempts[k]) ==> Live(a.attempts[k])))
  }

  /** Whoever is left holding the lease without having acted finds the stage as it was. */
  predicate StageFenced(actor: string, a: Stage, b: Stage) {
    b.token != "" && b.token != actor ==>
      && b.token == a.token && b.count == a.count && b.node == a.node && b.status == a.status
      && (HasLive(b) <==> HasLive(a))
  }

  predicate StageStep(actor: string, a: Stage, b: Stage) {
    StageOk(b) && StageEvolves(a, b) && StageFenced(actor, a, b)
  }

  predicate PipeStep(actor: string, task: string, a: Pipe, b: Pipe) {
    && PipeOk(b, task) && |b.stages| == |a.stages|
    && (forall i | 0 <= i < |a.stages| :: StageStep(actor, a.stages[i], b.stages[i]))
  }

  /* ---------- Reasoning about one stage ---------- */

  lemma SameStage(actor: string, st: Stage)
    requires StageOk(st)
    ensures StageStep(actor, st, st)
  {
  }

  lemma ClaimedStage(st: Stage, node: string, token: string, expires: nat)
    requires StageOk(st) && token != ""
    requires st.status == SPending || st.status == SLeased || InFlight(st.status)
    requires forall a | a in st.attempts && Live(a) :: a.node == node
    ensures StageStep(token, st, st.(status := SLeased, node := node, token := token, expires := expires))
  {
  }

  lemma RenewedStage(st: Stage, expires: nat)
    requires StageOk(st) && st.token != ""
    ensures StageStep(st.token, st, st.(expires := expires))
  {
  }

  lemma CreatedStage(st: Stage, id: string, node: string)
    requires StageOk(st) && st.status == SLeased && st.node == node && node != "" && !HasLive(st)
    requires st.count < st.max && Find(st.attempts, id) == |st.attempts|
    ensures StageStep(st.token, st,
                      st.(count := st.count + 1,
                          attempts := st.attempts + [Attempt(id, st.count + 1, node, "", ADispatching, "")]))
  {
  }

  lemma BoundStage(actor: string, st: Stage, k: nat, execution: string)
    requires StageOk(st) && k < |st.attempts| && Live(st.attempts[k])
    ensures k == |st.attempts| - 1
    ensures var st1 := st.(attempts := st.attempts[k := st.attempts[k].(execution := execution, status := ARunning)]);
            && StageStep(actor, st, st1) && HasLive(st1)
            && (st.status == SLeased ==> StageStep(st.token, st, st1.(status := SRunning)))
  {
  }

  lemma EndedStage(st: Stage, k: nat, a: Attempt, status: StageStatus, output: string, retryAt: nat)
    requires StageOk(st) && st.token != "" && k == |st.attempts| - 1 && k >= 0
    requires !Live(a) && a.id == st.attempts[k].id && a.no == st.attempts[k].no && a.node == st.attempts[k].node
    requires status == SSucceeded || status == SFailed || (status == SPending && st.count < st.max)
    ensures StageStep(st.token, st,
                      st.(status := status, output := output, token := "", expires := 0, retryAt := retryAt,
                                        attempts := st.attempts[k := a]))
    ensures !HasLive(st.(attempts := st.attempts[k := a]))
  {
  }

  lemma CancelledStage(st: Stage)
    requires StageOk(st)
    ensures StageStep("", st, EndStage(st)) && !HasLive(EndStage(st)) && EndStage(st).token == ""
    ensures EndStage(st).status == (if st.status == SSucceeded || st.status == SFailed then st.status else SCancelled)
    ensures EndStage(st).input == st.input && EndStage(st).output == st.output
            && (EndStage(st).attempts == [] <==> st.attempts == [])
  {
  }

  /* ---------- Reasoning about the task ---------- */

  /** All stages before one that has begun have succeeded. */
  lemma {:induction false} EarlierSucceeded(p: Pipe, task: string, i: nat, j: nat)
    requires PipeOk(p, task) && j < i < |p.stages| && Begun(p.stages[i])
    ensures p.stages[j].status == SSucceeded
    decreases i
  {
    assert LinkOk(p.stages[i - 1], p.stages[i]);
    if j < i - 1 {
      EarlierSucceeded(p, task, i - 1, j);
    }
  }

  /** At most one stage of a task is held, so at most one attempt of a task is live. */
  lemma HeldAlone(p: Pipe, task: string, i: nat, j: nat)
    requires PipeOk(p, task) && i < |p.stages| && j < |p.stages| && i != j && p.stages[i].token != ""
    ensures p.stages[j].token == "" && !HasLive(p.stages[j])
  {
    assert StageOk(p.stages[i]) && StageOk(p.stages[j]);
    if j < i {
      EarlierSucceeded(p, task, i, j);
    } else if p.stages[j].token != "" {
      EarlierSucceeded(p, task, j, i);
    }
  }

  /** Replacing one stage, and the task's own fields with it. */
  lemma OneStage(actor: string, task: string, p: Pipe, b: Pipe, i: nat)
    requires PipeOk(p, task) && i < |p.stages| && |b.stages| == |p.stages|
    requires forall j | 0 <= j < |p.stages| && j != i :: b.stages[j] == p.stages[j]
    requires b.artifacts == p.artifacts
    requires StageStep(actor, p.stages[i], b.stages[i]) && SoloOk(b, task, i, b.stages[i])
    requires p.stages[i].status != SSucceeded && b.stages[i].status != SSucceeded
             && b.stages[i].input == p.stages[i].input
    requires Begun(b.stages[i]) ==> i == 0 || p.stages[i - 1].status == SSucceeded
    requires forall j | 0 <= j < |p.stages| && j != i ::
               || !HasLive(p.stages[j])
               || (b.active == p.active && (b.status == Dispatching || b.status == Running))
    requires p.status != Cancelled || b.status == Cancelled
    requires TaskOk(b)
    ensures PipeStep(actor, task, p, b)
  {
    hide StageOk, StageEvolves, StageFenced, TaskOk, HasLive;
    forall j | 0 <= j < |p.stages| && j != i ensures StageStep(actor, p.stages[j], b.stages[j])
      && SoloOk(b, task, j, b.stages[j]) {
      assert StageOk(p.stages[j]) && SoloOk(p, task, j, p.stages[j]);
      SameStage(actor, p.stages[j]);
    }
    forall j | 0 < j < |b.stages| ensures LinkOk(b.stages[j - 1], b.stages[j]) {
      assert LinkOk(p.stages[j - 1], p.stages[j]);
    }
  }

  lemma NotSkipped(st: Stage)
    requires StageOk(st)
    ensures st.status != SSkipped && (InFlight(st.status) ==> st.status == SRunning)
  {
  }

  lemma ClaimStep(p: Pipe, task: string, i: nat, node: string, token: string, now: nat, ttl: nat, eligible: bool)
    requires PipeOk(p, task) && Claim(p, i, node, token, now, ttl, eligible).Some?
    ensures PipeStep(token, task, p, Claim(p, i, node, token, now, ttl, eligible).value)
  {
    hide PipeOk, PipeStep, StageStep, StageOk, Live;
    var b := Claim(p, i, node, token, now, ttl, eligible).value;
    StageAt(p, task, i);
    NotSkipped(p.stages[i]);
    ClaimedStage(p.stages[i], node, token, now + ttl);
    if i > 0 {
      StageAt(p, task, i - 1);
      NotSkipped(p.stages[i - 1]);
    }
    forall j | 0 <= j < |p.stages| && HasLive(p.stages[j]) ensures p.status == Dispatching || p.status == Running {
      StageAt(p, task, j);
    }
    OneStage(token, task, p, b, i);
  }

  lemma RenewStep(p: Pipe, task: string, i: nat, token: string, now: nat, ttl: nat)
    requires PipeOk(p, task) && Renew(p, i, token, now, ttl).Some?
    ensures PipeStep(token, task, p, Renew(p, i, token, now, ttl).value)
  {
    hide PipeOk, PipeStep, StageStep, StageOk;
    var b := Renew(p, i, token, now, ttl).value;
    StageAt(p, task, i);
    RenewedStage(p.stages[i], now + ttl);
    HeldIsNext(p, task, i);
    OneStage(token, task, p, b, i);
  }

  lemma StageAt(p: Pipe, task: string, i: nat)
    requires PipeOk(p, task) && i < |p.stages|
    ensures StageOk(p.stages[i]) && SoloOk(p, task, i, p.stages[i]) && TaskOk(p)
  {
    hide StageOk, SoloOk, LinkOk, TaskOk;
  }

  /** A held stage follows a succeeded one, and no other stage is live. */
  lemma HeldIsNext(p: Pipe, task: string, i: nat)
    requires PipeOk(p, task) && i < |p.stages| && p.stages[i].token != ""
    ensures i == 0 || p.stages[i - 1].status == SSucceeded
    ensures forall j | 0 <= j < |p.stages| && j != i :: !HasLive(p.stages[j])
    ensures p.stages[i].status == SLeased || p.stages[i].status == SRunning
    ensures p.stages[|p.stages| - 1].status != SSucceeded
    ensures HasLive(p.stages[i]) ==> (p.status == Dispatching || p.status == Running) && !p.deleted
  {
    hide StageEvolves, StageFenced;
    assert StageOk(p.stages[i]) && SoloOk(p, task, i, p.stages[i]);
    if i > 0 {
      assert LinkOk(p.stages[i - 1], p.stages[i]);
    }
    forall j | 0 <= j < |p.stages| && j != i ensures !HasLive(p.stages[j]) {
      HeldAlone(p, task, i, j);
    }
    var n := |p.stages| - 1;
    if p.stages[n].status == SSucceeded && i < n {
      EarlierSucceeded(p, task, n, i);
    }
  }

  lemma CreateStep(p: Pipe, task: string, i: nat, token: string, node: string, no: nat, id: string, now: nat,
      eligible: bool)
    requires PipeOk(p, task) && Create(p, i, token, node, no, id, now, eligible).Some?
    requires !HasLive(p.stages[i]) && node != ""
    ensures PipeStep(token, task, p, Create(p, i, token, node, no, id, now, eligible).value)
  {
    hide PipeOk, PipeStep, StageStep, StageOk;
    var b := Create(p, i, token, node, no, id, now, eligible).value;
    StageAt(p, task, i);
    CreatedStage(p.stages[i], id, node);
    HeldIsNext(p, task, i);
    OneStage(token, task, p, b, i);
  }

  lemma BindStep(p: Pipe, task: string, i: nat, token: string, id: string, execution: string)
    requires PipeOk(p, task)
    ensures PipeStep(token, task, p, Bind(p, i, token, id, execution).0)
  {
    hide PipeOk, PipeStep, StageStep, StageOk;
    var b := Bind(p, i, token, id, execution).0;
    if b == p {
      SamePipe(token, task, p);
    } else {
      var st := p.stages[i];
      var k := Find(st.attempts, id);
      StageAt(p, task, i);
      BoundStage(token, st, k, execution);
      FoundLast(st, id);
      HeldIsNext(p, task, i);
      BoundPipe(p, task, i, token, b);
    }
  }

  /** A live stage changes on its node; the task follows it or stays. */
  lemma BoundPipe(p: Pipe, task: string, i: nat, actor: string, b: Pipe)
    requires PipeOk(p, task) && i < |p.stages| && p.stages[i].token != "" && HasLive(p.stages[i])
    requires |b.stages| == |p.stages|
             && b == p.(stages := p.stages[i := b.stages[i]], status := b.status, node := b.node, active := b.active)
    requires StageStep(actor, p.stages[i], b.stages[i]) && HasLive(b.stages[i])
             && b.stages[i].input == p.stages[i].input
    requires b.stages[i].status == SLeased || b.stages[i].status == SRunning
    requires (b.status == p.status && b.node == p.node && b.active == p.active)
             || (b.status == Running && b.node != "" && b.active == Some(i))
    ensures PipeStep(actor, task, p, b)
  {
    hide PipeOk, PipeStep, StageStep, StageOk, HasLive;
    StageAt(p, task, i);
    HeldIsNext(p, task, i);
    OneStage(actor, task, p, b, i);
  }

  lemma SamePipe(actor: string, task: string, p: Pipe)
    requires PipeOk(p, task)
    ensures PipeStep(actor, task, p, p)
  {
    hide StageOk, SoloOk, LinkOk, StageStep;
    forall i | 0 <= i < |p.stages| ensures StageStep(actor, p.stages[i], p.stages[i]) {
      SameStage(actor, p.stages[i]);
    }
  }

  lemma FailStep(p: Pipe, task: string, i: nat, token: string, id: string, retryAt: nat, terminal: bool)
    requires PipeOk(p, task) && Fail(p, i, token, id, retryAt, terminal).Some?
    requires HasLive(p.stages[i]) && p.stages[i].attempts[|p.stages[i].attempts| - 1].id == id
    requires !terminal ==> p.stages[i].count < p.stages[i].max
    ensures PipeStep(token, task, p, Fail(p, i, token, id, retryAt, terminal).value)
  {
    hide PipeOk, PipeStep, StageStep, StageOk;
    var b := Fail(p, i, token, id, retryAt, terminal).value;
    var st := p.stages[i];
    var k := Find(st.attempts, id);
    StageAt(p, task, i);
    FoundLast(st, id);
    EndedStage(st, k, st.attempts[k].(status := AFailed), if terminal then SFailed else SPending, st.output,
               if terminal then 0 else retryAt);
    HeldIsNext(p, task, i);
    OneStage(token, task, p, b, i);
  }

  lemma FoundLast(st: Stage, id: string)
    requires StageOk(st) && st.attempts != []
    ensures st.attempts[|st.attempts| - 1].id == id ==> Find(st.attempts, id) == |st.attempts| - 1
    ensures Find(st.attempts, id) < |st.attempts| && Live(st.attempts[Find(st.attempts, id)]) ==>
            Find(st.attempts, id) == |st.attempts| - 1 && HasLive(st)
    ensures HasLive(st) ==> st.token != "" && st.node != "" && st.attempts[|st.attempts| - 1].node == st.node
  {
  }

  /** The stage after a held one has not begun. */
  lemma NextIsPending(p: Pipe, task: string, i: nat)
    requires PipeOk(p, task) && i + 1 < |p.stages| && p.stages[i].token != "" && p.status != Cancelled
    ensures p.stages[i + 1].status == SPending
  {
    StageAt(p, task, i);
    StageAt(p, task, i + 1);
    assert LinkOk(p.stages[i], p.stages[i + 1]);
  }

  lemma CompletedPipe(p: Pipe, task: string, i: nat, b: Pipe, artifact: Artifact)
    requires PipeOk(p, task) && i < |p.stages| && HasLive(p.stages[i]) && p.stages[i].token != ""
    requires artifact.kind == FinalVideo <==> i + 1 == |p.stages|
    requires |b.stages| == |p.stages| && b.artifacts == p.artifacts[i := artifact]
    requires StageStep(p.stages[i].token, p.stages[i], b.stages[i]) && b.stages[i].status == SSucceeded
             && !HasLive(b.stages[i])
    requires b.stages[i].output == ArtifactId(task, i) && b.stages[i].input == p.stages[i].input
    requires i + 1 < |p.stages| ==> b.stages[i + 1] == p.stages[i + 1].(input := ArtifactId(task, i))
    requires forall j | 0 <= j < |p.stages| && j != i && j != i + 1 :: b.stages[j] == p.stages[j]
    requires b.status == Running || b.status == Succeeded
    requires TaskOk(b)
    ensures PipeStep(p.stages[i].token, task, p, b)
  {
    hide PipeOk, StageOk, StageEvolves, StageFenced, TaskOk, ArtifactId;
    HeldIsNext(p, task, i);
    StageAt(p, task, i);
    forall j | 0 <= j < |p.stages| && j != i ensures StageStep(p.stages[i].token, p.stages[j], b.stages[j])
      && SoloOk(b, task, j, b.stages[j]) {
      StageAt(p, task, j);
      SameStage(p.stages[i].token, p.stages[j]);
      InputIsFree(p.stages[i].token, p.stages[j], b.stages[j].input);
    }
    forall j | 0 < j < |b.stages| ensures LinkOk(b.stages[j - 1], b.stages[j]) {
      LinkAt(p, task, j);
      if j == i + 1 { NextIsPending(p, task, i); }
      if j == i + 2 { NextIsPending(p, task, i); }
    }
    PipeOkFrom(b, task);
  }

  lemma PipeOkFrom(b: Pipe, task: string)
    requires forall i | 0 <= i < |b.stages| :: StageOk(b.stages[i]) && SoloOk(b, task, i, b.stages[i])
    requires forall i | 0 < i < |b.stages| :: LinkOk(b.stages[i - 1], b.stages[i])
    requires TaskOk(b)
    ensures PipeOk(b, task)
  {
    hide StageOk, SoloOk, LinkOk, TaskOk;
  }

  lemma LinkAt(p: Pipe, task: string, j: nat)
    requires PipeOk(p, task) && 0 < j < |p.stages|
    ensures LinkOk(p.stages[j - 1], p.stages[j])
  {
    hide StageOk, SoloOk, LinkOk, TaskOk;
  }

  lemma InputIsFree(actor: string, st: Stage, input: string)
    requires StageOk(st)
    ensures StageStep(actor, st, st.(input := input)) && (HasLive(st.(input := input)) <==> HasLive(st))
  {
  }

  lemma SettledAtTheEnd(p: Pipe, task: string, i: nat, stages: seq<Stage>)
    requires PipeOk(p, task) && i < |p.stages| == |stages| && p.stages[i].token != "" && p.status != Cancelled
    requires stages[i].status == SSucceeded && forall j | 0 <= j < |stages|
             && j != i :: stages[j].status == p.stages[j].status
    ensures AllSettled(stages) <==> i + 1 == |p.stages|
  {
    hide PipeOk, StageOk;
    StageAt(p, task, i);
    HeldIsNext(p, task, i);
    if i + 1 < |p.stages| {
      NextIsPending(p, task, i);
      assert stages[i + 1] in stages;
    } else {
      forall j | 0 <= j < i ensures stages[j].status == SSucceeded {
        EarlierSucceeded(p, task, i, j);
      }
    }
  }

  lemma CompletedTask(p: Pipe, task: string, i: nat, b: Pipe)
    requires PipeOk(p, task) && i < |p.stages| == |b.stages| && p.stages[i].token != "" && p.status != Cancelled
    requires b.stages[i].status == SSucceeded && b.stages[i].output == ArtifactId(task, i)
    requires forall j | 0 <= j < |p.stages| && j != i :: b.stages[j].status == p.stages[j].status
    requires !b.deleted && b.active == None
    requires if AllSettled(b.stages) then b.status == Succeeded && b.result == ArtifactId(task, i)
             else b.status == Running && b.node == ""
    ensures TaskOk(b)
  {
    hide PipeOk, StageOk, AllSettled, ArtifactId;
    SettledAtTheEnd(p, task, i, b.stages);
    HeldIsNext(p, task, i);
  }

  /** What a successful completion leaves, spelled out stage by stage. */
  lemma CompleteShape(p: Pipe, task: string, i: nat, token: string, id: string, size: nat, digest: string,
      media: string, placed: bool)
    requires CompleteWithOutput(p, task, i, token, id, size, digest, media, placed).Some?
    ensures i < |p.stages| && token != "" && p.stages[i].token == token && !p.deleted
    ensures var st := p.stages[i];
            var k := Find(st.attempts, id);
            && k < |st.attempts| && Live(st.attempts[k])
            && var b := CompleteWithOutput(p, task, i, token, id, size, digest, media, placed).value;
            && |b.stages| == |p.stages| && !b.deleted && b.active == None
            && b.stages[i] == st.(status := SSucceeded, output := ArtifactId(task, i), token := "", expires := 0,
                                  attempts := st.attempts[k := st.attempts[k].(status := ASucceeded,
                                    output := ArtifactId(task, i))])
            && (i + 1 < |p.stages| && p.stages[i + 1].status == SPending ==>
                b.stages[i + 1] == p.stages[i + 1].(input := ArtifactId(task, i)))
            && (forall j | 0 <= j < |p.stages| && j != i && j != i + 1 :: b.stages[j] == p.stages[j])
            && i in b.artifacts && b.artifacts == p.artifacts[i := b.artifacts[i]]
            && (b.artifacts[i].kind == FinalVideo <==> i + 1 == |p.stages|)
            && (if AllSettled(b.stages) then b.status == Succeeded && b.result == ArtifactId(task, i)
                else b.status == Running && b.node == "")
  {
    hide Live, AllSettled, ArtifactId;
    ArtifactIdNonEmpty(task, i);
  }

  lemma CompleteStep(p: Pipe, task: string, i: nat, token: string, id: string, size: nat, digest: string,
      media: string, placed: bool)
    requires PipeOk(p, task) && CompleteWithOutput(p, task, i, token, id, size, digest, media, placed).Some?
    ensures PipeStep(token, task, p, CompleteWithOutput(p, task, i, token, id, size, digest, media, placed).value)
  {
    hide PipeOk, PipeStep, StageStep, StageOk, ArtifactId, AllSettled, SoloOk, TaskOk, CompleteWithOutput;
    var b := CompleteWithOutput(p, task, i, token, id, size, digest, media, placed).value;
    CompleteShape(p, task, i, token, id, size, digest, media, placed);
    var st := p.stages[i];
    var k := Find(st.attempts, id);
    StageAt(p, task, i);
    FoundLast(st, id);
    HeldIsNext(p, task, i);
    EndedStage(st, k, st.attempts[k].(status := ASucceeded, output := ArtifactId(task, i)), SSucceeded,
               ArtifactId(task, i), st.retryAt);
    if i + 1 < |p.stages| {
      NextIsPending(p, task, i);
    }
    CompletedTask(p, task, i, b);
    CompletedPipe(p, task, i, b, b.artifacts[i]);
  }

  lemma ArtifactIdNonEmpty(task: string, i: nat)
    ensures ArtifactId(task, i) != ""
  {
  }

  lemma FinishCancelStep(p: Pipe, task: string)
    requires PipeOk(p, task) && !p.deleted && AdminCanCancel(p.status)
    ensures PipeStep("", task, p, FinishCancel(p))
    ensures forall j | 0 <= j < |p.stages| :: !HasLive(FinishCancel(p).stages[j])
  {
    hide PipeOk, StageStep, StageOk, HasLive, ArtifactId, EndStage;
    var b := FinishCancel(p);
    TaskAt(p, task);
    forall j | 0 <= j < |p.stages| ensures StageStep("", p.stages[j], b.stages[j]) && StageOk(b.stages[j])
      && SoloOk(b, task, j, b.stages[j]) && !HasLive(b.stages[j]) {
      StageAt(p, task, j);
      CancelledStage(p.stages[j]);
      StageStepOk("", p.stages[j], b.stages[j]);
    }
    forall j | 0 < j < |b.stages| ensures LinkOk(b.stages[j - 1], b.stages[j]) {
      LinkAt(p, task, j);
      StageAt(p, task, j - 1);
      StageAt(p, task, j);
      CancelledStage(p.stages[j - 1]);
      CancelledStage(p.stages[j]);
    }
    if p.stages != [] {
      StageAt(p, task, |p.stages| - 1);
      CancelledStage(p.stages[|p.stages| - 1]);
    }
    PipeOkFrom(b, task);
  }

  lemma StageStepOk(actor: string, a: Stage, b: Stage)
    requires StageStep(actor, a, b)
    ensures StageOk(b)
  {
  }

  /** Only the status of the task changes, and no attempt is live. */
  lemma StatusStep(p: Pipe, task: string, b: Pipe)
    requires PipeOk(p, task) && b == p.(status := b.status, deleted := b.deleted) && TaskOk(b)
    requires forall j | 0 <= j < |p.stages| :: !HasLive(p.stages[j])
    requires p.status == Cancelled ==> b.status == Cancelled
    ensures PipeStep("", task, p, b)
  {
    hide PipeOk, StageStep, StageOk, HasLive, ArtifactId;
    forall j | 0 <= j < |p.stages| ensures StageStep("", p.stages[j], b.stages[j]) && StageOk(b.stages[j])
      && SoloOk(b, task, j, b.stages[j]) {
      StageAt(p, task, j);
      SameStage("", p.stages[j]);
    }
    forall j | 0 < j < |b.stages| ensures LinkOk(b.stages[j - 1], b.stages[j]) {
      LinkAt(p, task, j);
    }
    PipeOkFrom(b, task);
  }

  /** A task that is neither dispatching nor running has no live attempt. */
  lemma IdleTask(p: Pipe, task: string)
    requires PipeOk(p, task) && p.status != Dispatching && p.status != Running
    ensures forall j | 0 <= j < |p.stages| :: !HasLive(p.stages[j])
  {
    hide PipeOk;
    forall j | 0 <= j < |p.stages| ensures !HasLive(p.stages[j]) {
      StageAt(p, task, j);
    }
  }

  /** An administrator's cancel always ends the task: it is never left "cancelling". */
  lemma CancelStep(p: Pipe, task: string)
    requires PipeOk(p, task) && Cancel(p, task).Some?
    ensures PipeStep("", task, p, Cancel(p, task).value)
    ensures Cancel(p, task).value.status == Cancelled
    ensures forall j | 0 <= j < |p.stages| :: !HasLive(Cancel(p, task).value.stages[j])
  {
    hide PipeOk, PipeStep, HasLive, EndStages, FindBarrier;
    TaskAt(p, task);
    if Cancel(p, task).value == FinishCancel(p) {
      FinishCancelStep(p, task);
    } else {
      IdleTask(p, task);
      StatusStep(p, task, Cancel(p, task).value);
    }
  }

  lemma TaskAt(p: Pipe, task: string)
    requires PipeOk(p, task)
    ensures TaskOk(p)
  {
    hide StageOk, SoloOk, LinkOk, TaskOk;
  }
}
