/** Two runs of the tk2sd system that show where a natural reading of its promises is too strong. */
module RemoteCounterexamples {
  import opened Domain
  import opened RemoteRun
  import opened RemoteAgents
  import opened RemoteSafety
  import opened RemoteTheorems

  lemma {:induction false} ExecSnoc(s: Sys, steps: seq<Step>, step: Step)
    ensures Exec(s, steps + [step]) == Apply(Exec(s, steps), step)
    decreases |steps|
  {
    if steps == [] {
      assert Exec(s, [step]) == Exec(Apply(s, step), []);
    } else {
      assert (steps + [step])[1..] == steps[1..] + [step];
      ExecSnoc(Apply(s, steps[0]), steps[1..], step);
    }
  }

  /** Everything goes well at time `now`, except that Submit is answered by `answer`. */
  function Calm(now: nat, answer: SubmitAnswer): World {
    World(now, Ready("p"), answer, QueryFailed, CancelFailed, QueryFailed, "")
  }

  function After(steps: seq<Step>): Sys {
    Exec(Init("i"), steps)
  }

  /** The agent and its row, with no job upstream yet. */
  predicate At(s: Sys, tok: string, row: Row, a: Agent) {
    && s.jobs == map[]
    && a.task in s.rows && s.rows[a.task] == row
    && tok in s.agents && s.agents[tok] == a
  }

  predicate OthersWait(s: Sys, s': Sys, tok: string) {
    forall t | t in s.agents && t != tok :: t in s'.agents && s'.agents[t] == s.agents[t]
  }

  /** One step of one agent. */
  lemma Next(steps: seq<Step>, tok: string, w: World, row: Row, a: Agent) returns (steps': seq<Step>)
    requires At(After(steps), tok, row, a)
    requires Work(row, tok, a, map[], w).jobs == map[] && Work(row, tok, a, map[], w).agent.task == a.task
    ensures steps' == steps + [Go(tok, w)]
    ensures var e := Work(row, tok, a, map[], w);
            && At(After(steps'), tok, e.row, e.agent)
            && After(steps').log == After(steps).log + (if e.sent.Some? then [e.sent.value] else [])
    ensures OthersWait(After(steps), After(steps'), tok) && After(steps').agents.Keys == After(steps).agents.Keys
  {
    hide Work, Exec, Init;
    steps' := steps + [Go(tok, w)];
    ExecSnoc(Init("i"), steps, Go(tok, w));
  }

  const CLAIMED := [Enqueue("t", "m"), ClaimNext("t", "n", 1, 1, false, None)]
  const FRESH := FreshRun("n", SubmissionKey("i", "t"))
  const TASK := Task("m", Dispatching, "n", true, false, false, "", "", "", NoError)

  const WAITING := Task("m", QueuedOpen, "", false, false, false, "", "", "", NoError)

  lemma Enqueued()
    ensures After([CLAIMED[0]]) == Sys("i", map["t" := Row(WAITING, None)], map[], map[], [], {})
  {
    ExecSnoc(Init("i"), [], CLAIMED[0]);
    assert [] + [CLAIMED[0]] == [CLAIMED[0]];
  }

  lemma KeyIsFine()
    ensures KeyOk("i", SubmissionKey("i", "t"))
  {
    assert SubmissionKey("i", "t") == "proxy:i:t";
  }

  lemma Claimed()
    ensures After(CLAIMED) == Sys("i", map["t" := Row(TASK, Some(FRESH))], map[], map[], [], {})
  {
    hide Exec, SubmissionKey, KeyOk;
    Enqueued();
    KeyIsFine();
    ExecSnoc(Init("i"), [CLAIMED[0]], CLAIMED[1]);
    assert [CLAIMED[0]] + [CLAIMED[1]] == CLAIMED;
    assert ActiveOn(After([CLAIMED[0]]).rows, "n") == {};
  }

  /** From the acquired lease to the call of Submit: six steps. */
  lemma FirstCall(steps: seq<Step>, task: Task) returns (steps': seq<Step>, row: Row, a: Agent)
    requires task.model == "m"
    requires At(After(steps), "k", Row(task, Some(FRESH.(token := "k", expires := 60))),
                Agent("t", "n", FRESH.(token := "k", expires := 60), Deciding))
    ensures At(After(steps'), "k", row, a) && After(steps').log == After(steps).log && steps <= steps'
    ensures After(steps').agents.Keys == After(steps).agents.Keys
    ensures a.task == "t" && a.pc == Submitting && a.node == "n"
    ensures row.task == task && row.run == Some(a.local.(phase := SubmitIntent, attempts := 1))
    ensures a.local == FRESH.(token := "k", expires := 60, phase := Prepared, body := Body("m", "p"),
                              hash := Sha256(Body("m", "p")))
  {
    hide At, After, Bind, Observe, Complete, Release, SubmissionKey;
    var w := Calm(0, Accepted("j"));
    row, a := Row(task, Some(FRESH.(token := "k", expires := 60))),
      Agent("t", "n", FRESH.(token := "k", expires := 60), Deciding);
    steps' := steps;
    var e := Work(row, "k", a, map[], w);
    steps' := Next(steps', "k", w, row, a);
    row, a := e.row, e.agent;
    assert a.pc == Materialising;
    e := Work(row, "k", a, map[], w);
    steps' := Next(steps', "k", w, row, a);
    row, a := e.row, e.agent;
    assert a.pc == Saving(Body("m", "p"));
    e := Work(row, "k", a, map[], w);
    steps' := Next(steps', "k", w, row, a);
    row, a := e.row, e.agent;
    assert a.pc == Reloading(false);
    e := Work(row, "k", a, map[], w);
    steps' := Next(steps', "k", w, row, a);
    row, a := e.row, e.agent;
    assert a.pc == Checking;
    e := Work(row, "k", a, map[], w);
    steps' := Next(steps', "k", w, row, a);
    row, a := e.row, e.agent;
    assert a.pc == Beginning;
    e := Work(row, "k", a, map[], w);
    steps' := Next(steps', "k", w, row, a);
    row, a := e.row, e.agent;
  }

  lemma StartsFirst(steps: seq<Step>, task: Task)
    requires After(steps) == Sys("i", map["t" := Row(task, Some(FRESH))], map[], map[], [], {})
    requires task.node == "n" && task.slot && !task.deleted
    ensures At(After(steps + [Start("k", "t", "n", 0, 60)]), "k",
               Row(task, Some(FRESH.(token := "k", expires := 60))),
                 Agent("t", "n", FRESH.(token := "k", expires := 60), Deciding))
    ensures After(steps + [Start("k", "t", "n", 0, 60)]).log == []
    ensures After(steps + [Start("k", "t", "n", 0, 60)]).agents.Keys == {"k"}
  {
    hide Exec, SubmissionKey;
    ExecSnoc(Init("i"), steps, Start("k", "t", "n", 0, 60));
  }

  lemma CallFails(steps: seq<Step>, tok: string, row: Row, a: Agent, answer: SubmitAnswer) returns (steps': seq<Step>)
    requires At(After(steps), tok, row, a) && a.pc == Submitting
    requires answer == Unreachable || answer == Conflict409
    ensures steps <= steps'
    ensures At(After(steps'), tok, row, a.(pc := Releasing(answer == Conflict409)))
    ensures |After(steps').log| == |After(steps).log| + 1 && After(steps').log[|After(steps).log|].task == a.task
    ensures SubmitsOf(After(steps').log, a.task) == SubmitsOf(After(steps).log, a.task) + 1
    ensures OthersWait(After(steps), After(steps'), tok)
  {
    hide At, After;
    steps' := Next(steps, tok, Calm(0, answer), row, a);
    assert After(steps').log[..|After(steps).log|] == After(steps).log;
  }

  /**
   The administrator read a free slot, then the task was claimed, then the cancel was written:
   the task shows "cancelling", the run knows of no request, and the work is submitted.
   */
  lemma AdminCancelMissesTheRun() returns (steps: seq<Step>)
    ensures CLAIMED + [AdminCancel("t")] <= steps
    ensures !SlotFree(After(CLAIMED), AdminCancel("t"))
    ensures var rows := After(CLAIMED + [AdminCancel("t")]).rows;
            && "t" in rows
            && var row := rows["t"];
            row.task.status == Cancelling && row.run.Some? && row.run.value.cancel == NoCancel
    ensures |After(steps).log| == 1 && After(steps).log[0].task == "t"
  {
    hide Exec, Init, Work, SubmissionKey;
    Claimed();
    ExecSnoc(Init("i"), CLAIMED, AdminCancel("t"));
    steps := CLAIMED + [AdminCancel("t")];
    var task := TASK.(status := Cancelling);
    assert After(steps) == Sys("i", map["t" := Row(task, Some(FRESH))], map[], map[], [], {});
    StartsFirst(steps, task);
    steps := steps + [Start("k", "t", "n", 0, 60)];
    var row, a;
    var called;
    called, row, a := FirstCall(steps, task);
    steps := CallFails(called, "k", row, a, Unreachable);
  }

  /** The second agent finds the intent and stores it again. */
  lemma SecondCalls(steps: seq<Step>, row: Row, l: Run) returns (steps': seq<Step>, again: Row)
    requires row.run == Some(l) && row.task.model == "m"
    requires l.token == "z" && l.expires == 120 && l.node == "n" && l.phase == SubmitIntent && !l.reconcile
    requires l.body == Body("m", "p") && l.hash == Sha256(l.body)
    requires At(After(steps), "z", row, Agent("t", "n", l, Deciding))
    ensures again == row.(run := Some(l.(attempts := l.attempts + 1)))
    ensures At(After(steps'), "z", again, Agent("t", "n", l, Submitting))
    ensures OthersWait(After(steps), After(steps'), "z")
  {
    hide At, After, Prepare, Bind, Observe, Complete, Release, Submit, Judge, Reload;
    var w := Calm(60, Conflict409);
    var s1 := Next(steps, "z", w, row, Agent("t", "n", l, Deciding));
    var s2 := Next(s1, "z", w, row, Agent("t", "n", l, Checking));
    steps' := Next(s2, "z", w, row, Agent("t", "n", l, Beginning));
    again := row.(run := Some(l.(attempts := l.attempts + 1)));
  }

  /** It is told of a conflict and parks the run. */
  lemma SecondParks(steps: seq<Step>, row: Row, l: Run) returns (steps': seq<Step>, parked: Row)
    requires row.run == Some(l) && row.task.model == "m"
    requires l.token == "z" && l.expires == 120 && l.node == "n" && l.phase == SubmitIntent && !l.reconcile
    requires l.body == Body("m", "p") && l.hash == Sha256(l.body)
    requires At(After(steps), "z", row, Agent("t", "n", l, Deciding))
    ensures parked.run.Some? && parked.run.value.reconcile
    ensures "t" in After(steps').rows && After(steps').rows["t"] == parked && After(steps').jobs == map[]
    ensures OthersWait(After(steps), After(steps'), "z")
  {
    hide After, Prepare, Begin, Bind, Observe, Complete, Submit, Judge, Reload;
    var s3, again := SecondCalls(steps, row, l);
    var s4 := CallFails(s3, "z", again, Agent("t", "n", l, Submitting), Conflict409);
    var a := Agent("t", "n", l, Releasing(true));
    parked := Work(again, "z", a, map[], Calm(60, Conflict409)).row;
    steps' := Next(s4, "z", Calm(60, Conflict409), again, a);
  }

  /** An agent that stored its intent before the run was parked still makes its call afterwards. */
  lemma ParkedRunStillSubmits() returns (before: seq<Step>, after: seq<Step>)
    ensures var s := After(before);
            && "t" in s.rows && s.rows["t"].run.Some? && s.rows["t"].run.value.reconcile
            && SubmitsOf(After(after).log, "t") == SubmitsOf(s.log, "t") + 1
    ensures before <= after
  {
    hide Exec, Init, Work, SubmissionKey;
    Claimed();
    StartsFirst(CLAIMED, TASK);
    var steps, row, a := FirstCall(CLAIMED + [Start("k", "t", "n", 0, 60)], TASK);
    var takeover := Start("z", "t", "n", 60, 60);
    ExecSnoc(Init("i"), steps, takeover);
    assert "z"[0] != "k"[0] && "z" !in After(steps).agents;
    steps := steps + [takeover];
    var l := row.run.value.(token := "z", expires := 120);
    var parked;
    before, parked := SecondParks(steps, row.(run := Some(l)), l);
    after := CallFails(before, "k", parked, a, Unreachable);
  }
}
