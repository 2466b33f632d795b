/** Two runs of the H3 pipeline: a version that comes back, and a try that is given up early. */
module StageCounterexamples {
  import opened Domain
  import opened StageRun
  import opened StageAgents
  import opened StageSafety
  import opened StageTheorems
  import opened StageBarriers

  /* ---------- Chaining steps ---------- */

  lemma {:induction false} ExecConcat(s: Sys, xs: seq<Step>, ys: seq<Step>)
    ensures Exec(s, xs + ys) == Exec(Exec(s, xs), ys)
    decreases |xs|
  {
    hide Apply;
    if xs == [] {
      assert xs + ys == ys;
    } else {
      assert (xs + ys)[1..] == xs[1..] + ys;
      ExecConcat(Apply(s, xs[0]), xs[1..], ys);
    }
  }

  /** No node calls a failure final. */
  predicate Mild(steps: seq<Step>) {
    forall step | step in steps :: step.Go? ==> !step.w.terminal
  }

  ghost predicate Reaches(s: Sys, s': Sys) {
    exists steps :: Mild(steps) && Exec(s, steps) == s'
  }

  lemma OneStep(s: Sys, step: Step)
    requires Mild([step])
    ensures Reaches(s, Apply(s, step))
  {
    hide Apply;
    assert Exec(s, [step]) == Exec(Apply(s, step), []);
  }

  lemma AndThen(a: Sys, b: Sys, c: Sys)
    requires Reaches(a, b) && Reaches(b, c)
    ensures Reaches(a, c)
  {
    hide Exec;
    var xs :| Mild(xs) && Exec(a, xs) == b;
    var ys :| Mild(ys) && Exec(b, ys) == c;
    ExecConcat(a, xs, ys);
    assert Mild(xs + ys);
  }

  /** A state with the task and its agent in an otherwise unchanged system. */
  function With(s: Sys, p: Pipe, tok: string, a: Agent): Sys {
    s.(pipes := s.pipes[a.task := p], agents := s.agents[tok := a])
  }

  lemma Works(s: Sys, tok: string, w: World, p: Pipe, a: Agent, p': Pipe, pc': Pc)
    requires !w.terminal && !Clashes(s.pipes[a.task := p], a)
    requires Work(p, tok, a, w) == Effect(p', a.(pc := pc'))
    ensures Reaches(With(s, p, tok, a), With(s, p', tok, a.(pc := pc')))
  {
    hide Work, Reaches, Clashes;
    var t := With(s, p, tok, a);
    OneStep(t, Go(tok, w));
    assert Apply(t, Go(tok, w)) == With(s, p', tok, a.(pc := pc'));
  }

  /* ---------- One agent, from the claim to the poll ---------- */

  /** Everything goes well; attempt and execution carry the agent's own name. */
  function Calm(tok: string): World {
    World(0, 60, tok, true, false, false, false, tok, StillRunning, 0, "", "", false)
  }

  function Worker(id: string, max: nat, pc: Pc): Agent {
    Agent(id, 0, "n", 0, max, pc)
  }

  /** A one-stage task claimed on node "n", with its attempt created, and with its execution bound. */
  function Opened(tok: string, max: nat): Pipe {
    NewPipe([NewStage(max, "", "").(status := SLeased, node := "n", token := tok, expires := 60)])
  }

  function Created(tok: string, max: nat): Pipe {
    Pipe(Dispatching, false, "n", Some(0), "",
         [Stage(SLeased, 1, max, "", "n", "", "", tok, 60, 0, [Attempt(tok, 1, "n", "", ADispatching, "")])], map[])
  }

  function Launched(tok: string, max: nat): Pipe {
    Pipe(Running, false, "n", Some(0), "",
         [Stage(SRunning, 1, max, "", "n", "", "", tok, 60, 0, [Attempt(tok, 1, "n", tok, ARunning, "")])], map[])
  }

  /** The name is new: no task, agent, attempt or execution has it. */
  predicate Unused(s: Sys, id: string, tok: string) {
    && id !in s.pipes && tok !in s.agents && tok != "" && "n" !in s.barriers
    && forall a | a in AllAttempts(s.pipes) :: a.id != tok && a.execution != tok
  }

  lemma ClaimsNew(tok: string, max: nat)
    requires tok != "" && max >= 1
    ensures Claim(NewPipe([NewStage(max, "", "")]), 0, "n", tok, 0, 60, true) == Some(Opened(tok, max))
  {
    var p := NewPipe([NewStage(max, "", "")]);
    assert p.stages[0 := Opened(tok, max).stages[0]] == Opened(tok, max).stages;
  }

  lemma CreatesFirst(tok: string, max: nat)
    requires tok != "" && max >= 1
    ensures Create(Opened(tok, max), 0, tok, "n", 1, tok, 0, true) == Some(Created(tok, max))
  {
    var p := Opened(tok, max);
    var a := Attempt(tok, 1, "n", "", ADispatching, "");
    assert p.stages[0].attempts + [a] == [a];
    assert p.stages[0 := Created(tok, max).stages[0]] == Created(tok, max).stages;
  }

  lemma BindsFirst(tok: string, max: nat)
    requires tok != ""
    ensures Bind(Created(tok, max), 0, tok, tok, tok) == (Launched(tok, max), true)
  {
    var p, q := Created(tok, max), Launched(tok, max);
    assert p.stages[0].attempts[0 := q.stages[0].attempts[0]] == q.stages[0].attempts;
    assert p.stages[0 := q.stages[0]] == q.stages;
  }

  /** Attempts of the other tasks and of this one. */
  lemma AttemptsWith(pipes: map<string, Pipe>, id: string, p: Pipe, x: Attempt)
    requires id !in pipes && x in AllAttempts(pipes[id := p])
    ensures x in AllAttempts(pipes) || exists st | st in p.stages :: x in st.attempts
  {
    var all := pipes[id := p];
    var t, st :| t in all && st in all[t].stages && x in st.attempts;
    if t != id {
      assert t in pipes && st in pipes[t].stages;
    }
  }

  lemma NoClash(s: Sys, id: string, tok: string, max: nat)
    requires Unused(s, id, tok)
    ensures !Clashes(s.pipes[id := Opened(tok, max)], Worker(id, max, Creating(tok)))
    ensures !Clashes(s.pipes[id := Created(tok, max)], Worker(id, max, Binding(tok, tok)))
  {
    forall x | x in AllAttempts(s.pipes[id := Opened(tok, max)]) ensures x.id != tok {
      AttemptsWith(s.pipes, id, Opened(tok, max), x);
    }
    forall x | x in AllAttempts(s.pipes[id := Created(tok, max)]) ensures x.id == tok || x.execution != tok {
      AttemptsWith(s.pipes, id, Created(tok, max), x);
    }
  }

  lemma Opens(s: Sys, id: string, tok: string, max: nat)
    requires Unused(s, id, tok) && max >= 1
    ensures Reaches(s, With(s, Opened(tok, max), tok, Worker(id, max, Claimed)))
  {
    hide Claim, Reaches;
    ClaimsNew(tok, max);
    var create, claim := NewTask(id, [NewStage(max, "", "")]), ClaimStage(tok, "n", id, 0, 0, 60, true);
    var s1 := Apply(s, create);
    OneStep(s, create);
    OneStep(s1, claim);
    assert Apply(s1, claim) == With(s, Opened(tok, max), tok, Worker(id, max, Claimed));
    AndThen(s, s1, Apply(s1, claim));
  }

  /** Up to the created attempt. */
  lemma Creates(s: Sys, id: string, tok: string, max: nat)
    requires Unused(s, id, tok) && max >= 1
    ensures Reaches(s, With(s, Created(tok, max), tok, Worker(id, max, Submitting(tok))))
  {
    hide Reaches, With, Create, Created;
    var p, w := Opened(tok, max), Calm(tok);
    Opens(s, id, tok, max);
    NoClash(s, id, tok, max);
    Works(s, tok, w, p, Worker(id, max, Claimed), p, Resuming);
    Works(s, tok, w, p, Worker(id, max, Resuming), p, Fresh);
    Works(s, tok, w, p, Worker(id, max, Fresh), p, Creating(tok));
    CreatesFirst(tok, max);
    Works(s, tok, w, p, Worker(id, max, Creating(tok)), Created(tok, max), Submitting(tok));
    AndThen(s, With(s, p, tok, Worker(id, max, Claimed)), With(s, p, tok, Worker(id, max, Resuming)));
    AndThen(s, With(s, p, tok, Worker(id, max, Resuming)), With(s, p, tok, Worker(id, max, Fresh)));
    AndThen(s, With(s, p, tok, Worker(id, max, Fresh)), With(s, p, tok, Worker(id, max, Creating(tok))));
    AndThen(s, With(s, p, tok, Worker(id, max, Creating(tok))),
            With(s, Created(tok, max), tok, Worker(id, max, Submitting(tok))));
  }

  /** Up to the bound execution. */
  lemma Launches(s: Sys, id: string, tok: string, max: nat)
    requires Unused(s, id, tok) && max >= 1
    ensures Reaches(s, With(s, Launched(tok, max), tok, Worker(id, max, Polling(tok))))
  {
    hide Reaches, With, Bind, Created, Launched;
    var p, w := Created(tok, max), Calm(tok);
    Creates(s, id, tok, max);
    NoClash(s, id, tok, max);
    Works(s, tok, w, p, Worker(id, max, Submitting(tok)), p, Binding(tok, tok));
    BindsFirst(tok, max);
    Works(s, tok, w, p, Worker(id, max, Binding(tok, tok)), Launched(tok, max), Polling(tok));
    AndThen(s, With(s, p, tok, Worker(id, max, Submitting(tok))), With(s, p, tok, Worker(id, max, Binding(tok, tok))));
    AndThen(s, With(s, p, tok, Worker(id, max, Binding(tok, tok))),
            With(s, Launched(tok, max), tok, Worker(id, max, Polling(tok))));
  }

  /* ---------- A version that comes back ---------- */

  function Guard(id: string, tok: string): Barrier {
    Barrier("n", id, 0, tok, tok, 1)
  }

  /** Cancelling a launched task closes its node. */
  lemma Closes(s: Sys, id: string, tok: string)
    requires id in s.pipes && s.pipes[id] == Launched(tok, 1) && "n" !in s.barriers
    ensures Reaches(s, s.(pipes := s.pipes[id := FinishCancel(Launched(tok, 1))],
                          barriers := s.barriers["n" := Guard(id, tok)]))
  {
    hide Reaches;
    OneStep(s, CancelTask(id));
    var p := Launched(tok, 1);
    assert FindBarrier(id, p.stages) == Some(Guard(id, tok));
  }

  /** The reader is about to open a node on the strength of another task's barrier. */
  predicate Misfires(s: Sys, tok: string) {
    && Current(s, tok)
    && var node := s.readers[tok].node;
    && !SameBarrier(s.barriers[node], s.readers[tok])
    && node !in Apply(s, LiftBarrier(tok)).barriers
  }

  /** Two tasks at work on one node. */
  function Both(): Sys {
    With(With(Init(), Launched("a", 1), "a", Worker("1", 1, Polling("a"))), Launched("b", 1), "b",
         Worker("2", 1, Polling("b")))
  }

  /**
   Two readers see the barrier of one task; one lifts it, another task is cancelled on the same
   node, and the other reader's version fits the new barrier: its lift opens the node although
   nobody has looked at the second execution.
   */
  lemma VersionsComeBack()
    ensures exists s' :: Reaches(Both(), s') && Misfires(s', "x")
  {
    hide Reaches, FinishCancel, Launched;
    assert "1"[0] != "2"[0] && "x"[0] != "y"[0];
    var s := Both();
    Closes(s, "1", "a");
    var s1 := s.(pipes := s.pipes["1" := FinishCancel(Launched("a", 1))], barriers := map["n" := Guard("1", "a")]);
    assert s.barriers["n" := Guard("1", "a")] == map["n" := Guard("1", "a")];
    OneStep(s1, ReadBarrier("x", "n"));
    var s2 := s1.(readers := map["x" := Guard("1", "a")]);
    assert Apply(s1, ReadBarrier("x", "n")) == s2;
    OneStep(s2, ReadBarrier("y", "n"));
    var s3 := Apply(s2, ReadBarrier("y", "n"));
    OneStep(s3, LiftBarrier("y"));
    var s4 := Apply(s3, LiftBarrier("y"));
    assert s4 == s3.(barriers := map[]);
    Closes(s4, "2", "b");
    var s5 := s4.(pipes := s4.pipes["2" := FinishCancel(Launched("b", 1))],
                  barriers := s4.barriers["n" := Guard("2", "b")]);
    AndThen(s, s1, s2);
    AndThen(s, s2, s3);
    AndThen(s, s3, s4);
    AndThen(s, s4, s5);
    assert Misfires(s5, "x");
  }

  lemma Unfold(s: Sys, s': Sys, tok: string)
    requires Reaches(s, s') && Misfires(s', tok)
    ensures exists steps :: Misfires(Exec(s, steps), tok)
  {
    hide Exec, Misfires;
    var steps :| Exec(s, steps) == s';
    assert Misfires(Exec(s, steps), tok);
  }

  lemma OneLaunched()
    ensures var s1 := With(Init(), Launched("a", 1), "a", Worker("1", 1, Polling("a")));
            Reaches(Init(), s1) && Unused(s1, "2", "b")
  {
    hide Reaches;
    assert "1"[0] != "2"[0] && "a"[0] != "b"[0];
    assert AllAttempts(Init().pipes) == {};
    Launches(Init(), "1", "a", 1);
    var s1 := With(Init(), Launched("a", 1), "a", Worker("1", 1, Polling("a")));
    forall x | x in AllAttempts(s1.pipes) ensures x.id != "b" && x.execution != "b" {
      AttemptsWith(Init().pipes, "1", Launched("a", 1), x);
    }
  }

  lemma OldReaderLiftsNewBarrier()
    ensures exists steps :: Misfires(Exec(Init(), steps), "x")
  {
    hide Reaches, Launched, Apply, Unused, Misfires;
    var s1 := With(Init(), Launched("a", 1), "a", Worker("1", 1, Polling("a")));
    OneLaunched();
    Launches(s1, "2", "b", 1);
    AndThen(Init(), s1, Both());
    VersionsComeBack();
    var s' :| Reaches(Both(), s') && Misfires(s', "x");
    AndThen(Init(), Both(), s');
    Unfold(Init(), s', "x");
  }

  /* ---------- A try that is never made ---------- */

  /** The attempt of "a", taken over by "b" once the lease has run out. */
  function Reclaimed(): Pipe {
    var p := Created("a", 2);
    p.(stages := [p.stages[0].(token := "b", expires := 120)])
  }

  function Rebound(): Pipe {
    var p := Reclaimed();
    p.(status := Running,
       stages := [p.stages[0].(status := SRunning, attempts := [Attempt("a", 1, "n", "b", ARunning, "")])])
  }

  function GivenUp(): Pipe {
    var p := Rebound();
    p.(status := Failed, active := None,
       stages := [p.stages[0].(status := SFailed, token := "", expires := 0,
                               attempts := [Attempt("a", 1, "n", "b", AFailed, "")])])
  }

  function Heir(pc: Pc): Agent {
    Agent("1", 0, "n", 1, 2, pc)
  }

  /** The state in which "a" has created its attempt and gone silent. */
  function Silent(): Sys {
    With(Init(), Created("a", 2), "a", Worker("1", 2, Submitting("a")))
  }

  lemma TakesOver()
    ensures Reaches(Silent(), With(Silent(), Reclaimed(), "b", Heir(Claimed)))
  {
    hide Reaches;
    assert "a"[0] != "b"[0];
    var claim := ClaimStage("b", "n", "1", 0, 60, 60, true);
    var p := Created("a", 2);
    assert p.stages[0 := Reclaimed().stages[0]] == Reclaimed().stages;
    OneStep(Silent(), claim);
    assert Apply(Silent(), claim) == With(Silent(), Reclaimed(), "b", Heir(Claimed));
  }

  lemma BindsAgain()
    ensures Bind(Reclaimed(), 0, "b", "a", "b") == (Rebound(), true)
    ensures !Clashes(Silent().pipes["1" := Reclaimed()], Heir(Binding("a", "b")))
  {
    var p, q := Reclaimed(), Rebound();
    assert p.stages[0].attempts[0 := q.stages[0].attempts[0]] == q.stages[0].attempts;
    assert p.stages[0 := q.stages[0]] == q.stages;
    var none: map<string, Pipe> := map[];
    assert Silent().pipes["1" := p] == none["1" := p];
    forall x | x in AllAttempts(none["1" := p]) ensures x.id == "a" {
      AttemptsWith(none, "1", p, x);
    }
  }

  lemma FailsForGood()
    ensures Fail(Rebound(), 0, "b", "a", 0, true) == Some(GivenUp())
  {
    var p, q := Rebound(), GivenUp();
    assert p.stages[0].attempts[0 := q.stages[0].attempts[0]] == q.stages[0].attempts;
    assert p.stages[0 := q.stages[0]] == q.stages;
  }

  lemma HeirGivesUp()
    ensures Reaches(Silent(), With(Silent(), GivenUp(), "b", Heir(Stopped)))
  {
    hide Reaches, With, Bind, Fail, Rebound, GivenUp, ExecutionTaken;
    var s, p, q, w := Silent(), Reclaimed(), Rebound(), Calm("b");
    TakesOver();
    BindsAgain();
    FailsForGood();
    assert q.status == Running by { RunsAgain(); }
    Works(s, "b", w, p, Heir(Claimed), p, Resuming);
    Works(s, "b", w, p, Heir(Resuming), p, Resubmitting("a"));
    Works(s, "b", w, p, Heir(Resubmitting("a")), p, Binding("a", "b"));
    Works(s, "b", w, p, Heir(Binding("a", "b")), q, Polling("a"));
    Works(s, "b", w.(outcome := Broken), q, Heir(Polling("a")), q, Failing("a", true));
    Works(s, "b", w, q, Heir(Failing("a", true)), GivenUp(), Stopped);
    AndThen(s, With(s, p, "b", Heir(Claimed)), With(s, p, "b", Heir(Resuming)));
    AndThen(s, With(s, p, "b", Heir(Resuming)), With(s, p, "b", Heir(Resubmitting("a"))));
    AndThen(s, With(s, p, "b", Heir(Resubmitting("a"))), With(s, p, "b", Heir(Binding("a", "b"))));
    AndThen(s, With(s, p, "b", Heir(Binding("a", "b"))), With(s, q, "b", Heir(Polling("a"))));
    AndThen(s, With(s, q, "b", Heir(Polling("a"))), With(s, q, "b", Heir(Failing("a", true))));
    AndThen(s, With(s, q, "b", Heir(Failing("a", true))), With(s, GivenUp(), "b", Heir(Stopped)));
  }

  lemma RunsAgain()
    ensures Rebound().status == Running
  {
  }

  /** The task has failed with a try left. */
  predicate GaveUpEarly(s: Sys, id: string) {
    && id in s.pipes && s.pipes[id].status == Failed
    && exists st | st in s.pipes[id].stages :: st.status == SFailed && st.count < st.max
  }

  lemma SilenceCostsATry()
    ensures exists steps :: Mild(steps) && GaveUpEarly(Exec(Init(), steps), "1")
  {
    hide Exec, Created, Reaches;
    assert AllAttempts(Init().pipes) == {};
    Creates(Init(), "1", "a", 2);
    HeirGivesUp();
    var s := With(Silent(), GivenUp(), "b", Heir(Stopped));
    AndThen(Init(), Silent(), s);
    assert GaveUpEarly(s, "1") by { Loses(s); }
    Witness(Init(), s);
  }

  lemma Loses(s: Sys)
    requires "1" in s.pipes && s.pipes["1"] == GivenUp()
    ensures GaveUpEarly(s, "1")
  {
    assert GivenUp().stages[0] in s.pipes["1"].stages;
  }

  lemma Witness(s: Sys, s': Sys)
    requires Reaches(s, s') && GaveUpEarly(s', "1")
    ensures exists steps :: Mild(steps) && GaveUpEarly(Exec(s, steps), "1")
  {
    hide Exec, GaveUpEarly;
    var steps :| Mild(steps) && Exec(s, steps) == s';
    assert GaveUpEarly(Exec(s, steps), "1");
  }
}
