/**
 An agent that is left alone gets there: from every reachable state a run that can be taken up is
 brought to its end by one agent whose lease lasts and whose upstream answers, in thirteen steps.
 */
module RemoteLiveness {
  import opened Domain
  import opened RemoteRun
  import opened RemoteAgents
  import opened RemoteSafety
  import opened RemoteTheorems
  import opened RemoteLeases
  import opened RemoteProgress

  /** The inputs are ready, the upstream takes the job and then reports `word` about it. */
  predicate Friendly(w: World, word: Upstream) {
    && w.prepare.Ready? && w.submit.Accepted? && w.submit.job != ""
    && IsConclusive(word) && w.query == Answer(word) && w.url != ""
  }

  /** The id the upstream would give is new there. */
  predicate NewId(w: World, jobs: Jobs, node: string) {
    w.submit.Accepted? && forall k | k in jobs :: k.node == node ==> jobs[k] != w.submit.job
  }

  /** A cancel that comes before the intent ends the run by itself. */
  function Expected(r: Run, word: Upstream): Upstream {
    if r.cancel == Requested && (r.phase == Preparing || r.phase == Prepared) then UCancelled else word
  }

  /** How far the agent still has to go; zero for one that has given up. */
  function Left(pc: Pc): nat {
    match pc
    case Deciding => 13
    case Materialising => 12
    case Saving(_) => 11
    case Reloading(bound) => if bound then 5 else 10
    case Checking => 9
    case Beginning => 8
    case Submitting => 7
    case Binding(_) => 6
    case Polling => 4
    case Rereading(_) => 3
    case Judging(_) => 2
    case Finishing(_) => 1
    case _ => 0
  }

  /** At this point of its program the agent has read what is stored, and knows what will be. */
  predicate OnCourse(a: Agent, r: Run, word: Upstream, goal: Upstream) {
    && Left(a.pc) > 0
    && (a.pc.Deciding? ==> a.local.cancel == r.cancel && !r.reconcile && goal == Expected(r, word))
    && (a.pc.Materialising? || a.pc.Saving? || a.pc == Reloading(false) ==> r.cancel == NoCancel)
    && (a.pc.Checking? ==> a.local.phase == Prepared || a.local.phase == SubmitIntent || a.local.phase == Submitted)
    && ((a.pc.Checking? || a.pc.Beginning?) && a.local.phase == Prepared ==> r.cancel == NoCancel)
    && (a.pc.Polling? ==> a.local.phase == Submitted)
    && (a.pc.Rereading? || a.pc.Judging? ==> a.pc.answer == word)
    && (a.pc.Finishing? ==>
          && a.pc.completion.status == goal && IsConclusive(goal)
          && (goal == USucceeded ==> a.pc.completion.url != ""))
    && (!a.pc.Deciding? && !a.pc.Finishing? ==> goal == word)
  }

  predicate OnTrack(s: Sys, tok: string, w: World, word: Upstream, goal: Upstream) {
    && tok in s.agents && s.agents[tok].task in s.rows && s.rows[s.agents[tok].task].run.Some?
    && var a, r := s.agents[tok], s.rows[s.agents[tok].task].run.value;
    && r.token == tok && w.now < r.expires
    && Friendly(w, word) && (Left(a.pc) >= 7 ==> NewId(w, s.jobs, a.node)) && OnCourse(a, r, word, goal)
  }

  /* ---------- One step, on a row ---------- */

  predicate Ready(instance: string, row: Row, tok: string, a: Agent, jobs: Jobs, seen: set<string>) {
    && RowOk(instance, a.task, row, jobs, seen) && AgentOk(instance, tok, a, row, jobs, seen)
    && Fits(a, row, tok) && Named(jobs) && row.run.value.token == tok
  }

  predicate Nearer(a: Agent, a': Agent) {
    a'.task == a.task && a'.node == a.node && Left(a'.pc) < Left(a.pc)
  }

  lemma ThinksOn(instance: string, row: Row, tok: string, a: Agent, jobs: Jobs, seen: set<string>, w: World,
      word: Upstream, goal: Upstream)
    requires Ready(instance, row, tok, a, jobs, seen) && Friendly(w, word)
    requires OnCourse(a, row.run.value, word, goal)
    requires a.pc.Deciding? || a.pc.Materialising? || a.pc.Checking? || a.pc.Polling? || a.pc.Reloading?
             || a.pc.Rereading?
    ensures var e := Work(row, tok, a, jobs, w);
            e.row == row && e.jobs == jobs && Nearer(a, e.agent) && OnCourse(e.agent, row.run.value, word, goal)
  {
    hide Submit, Judge, Prepare, Begin, Bind, Observe, Complete, Release, SubmissionKey;
  }

  lemma JudgesOn(row: Row, a: Agent, jobs: Jobs, w: World, word: Upstream, goal: Upstream)
    requires Friendly(w, word) && row.run.Some? && OnCourse(a, row.run.value, word, goal) && a.pc.Judging?
    ensures var e := Judge(row, a, jobs, a.pc.answer, w);
            e.row == row && e.jobs == jobs && Nearer(a, e.agent) && OnCourse(e.agent, row.run.value, word, goal)
  {
  }

  lemma SubmitsOn(row: Row, a: Agent, jobs: Jobs, w: World, word: Upstream, goal: Upstream)
    requires Friendly(w, word) && row.run.Some? && OnCourse(a, row.run.value, word, goal)
    requires a.pc.Submitting? && NewId(w, jobs, a.node)
    ensures var e := Submit(row, a, jobs, w.submit);
            && e.row == row && Nearer(a, e.agent) && OnCourse(e.agent, row.run.value, word, goal)
            && e.agent.pc.Binding?
  {
  }

  lemma WritesOn(instance: string, row: Row, tok: string, a: Agent, jobs: Jobs, seen: set<string>, w: World,
      word: Upstream, goal: Upstream)
    requires Ready(instance, row, tok, a, jobs, seen) && w.now < row.run.value.expires
    requires OnCourse(a, row.run.value, word, goal) && (a.pc.Saving? || a.pc.Beginning? || a.pc.Binding?)
    ensures var e := Work(row, tok, a, jobs, w);
            && e.jobs == jobs && Nearer(a, e.agent) && e.row.run.Some? && e.row.run.value.token == tok
            && e.row.run.value.expires == row.run.value.expires && OnCourse(e.agent, e.row.run.value, word, goal)
  {
    hide Submit, Judge, Reload, Observe, Complete, Release, RowOk, AgentOk, Named;
    TransactsExactly(instance, row, tok, a, jobs, seen, w);
  }

  /* ---------- One step of the system ---------- */

  lemma WorksOn(instance: string, row: Row, tok: string, a: Agent, jobs: Jobs, seen: set<string>, w: World,
      word: Upstream, goal: Upstream)
    requires Ready(instance, row, tok, a, jobs, seen) && w.now < row.run.value.expires && Friendly(w, word)
    requires Left(a.pc) >= 7 ==> NewId(w, jobs, a.node)
    requires OnCourse(a, row.run.value, word, goal) && !a.pc.Finishing?
    ensures var e := Work(row, tok, a, jobs, w);
            && Nearer(a, e.agent) && e.row.run.Some? && e.row.run.value.token == tok
            && e.row.run.value.expires == row.run.value.expires && OnCourse(e.agent, e.row.run.value, word, goal)
            && (Left(e.agent.pc) >= 7 ==> e.jobs == jobs)
  {
    hide RowOk, AgentOk, Mirrors, PhaseFits, Named, Work, Friendly, NewId;
    OnlySubmittingSends(row, tok, a, jobs, w);
    if a.pc.Saving? || a.pc.Beginning? || a.pc.Binding? {
      WritesOn(instance, row, tok, a, jobs, seen, w, word, goal);
    } else if a.pc.Submitting? {
      SubmitsOn(row, a, jobs, w, word, goal);
    } else if a.pc.Judging? {
      JudgesOn(row, a, jobs, w, word, goal);
      JudgeIsWork(row, tok, a, jobs, w);
    } else {
      ThinksOn(instance, row, tok, a, jobs, seen, w, word, goal);
    }
  }

  lemma StepsOn(s: Sys, tok: string, w: World, word: Upstream, goal: Upstream)
    requires Inv(s) && AllFaithful(s) && OnTrack(s, tok, w, word, goal) && !s.agents[tok].pc.Finishing?
    ensures var s' := Apply(s, Go(tok, w));
            && OnTrack(s', tok, w, word, goal) && s'.agents[tok].task == s.agents[tok].task
            && Left(s'.agents[tok].pc) < Left(s.agents[tok].pc)
  {
    hide Inv, Work, Friendly, OnCourse, Left, RowOk, AgentOk, Fits, Named, NewId;
    InvAt(s, tok);
    assert Faithful(s, tok);
    WorksOn(s.instance, s.rows[s.agents[tok].task], tok, s.agents[tok], s.jobs, s.seen, w, word, goal);
  }

  /** The last step. */
  lemma Finishes(s: Sys, tok: string, w: World, word: Upstream, goal: Upstream)
    requires Inv(s) && OnTrack(s, tok, w, word, goal) && s.agents[tok].pc.Finishing?
    ensures Ended(Apply(s, Go(tok, w)), s.agents[tok].task, goal)
  {
    hide Inv, Work;
    InvAt(s, tok);
    WorkIsTransaction(s.rows[s.agents[tok].task], tok, s.agents[tok], s.jobs, w);
  }

  predicate Ended(s: Sys, id: string, goal: Upstream) {
    && id in s.rows && s.rows[id].run.Some?
    && s.rows[id].run.value.phase == Terminal && s.rows[id].run.value.upstreamStatus == goal
  }

  lemma EndedStays(s: Sys, step: Step, id: string, goal: Upstream)
    requires Inv(s) && Ended(s, id, goal)
    ensures Ended(Apply(s, step), id, goal)
  {
    hide Inv, Apply, RowInv, Fenced;
    EveryRowSteps(s, step, id);
  }

  /** The same step again and again. */
  function Times(step: Step, n: nat): seq<Step> {
    seq(n, i => step)
  }

  lemma {:induction false} GetsThere(s: Sys, tok: string, w: World, word: Upstream, goal: Upstream, id: string, n: nat)
    requires Inv(s) && AllFaithful(s)
    requires Ended(s, id, goal)
             || (OnTrack(s, tok, w, word, goal) && s.agents[tok].task == id && Left(s.agents[tok].pc) <= n)
    ensures Ended(Exec(s, Times(Go(tok, w), n)), id, goal)
    decreases n
  {
    hide Inv, AllFaithful, Apply, OnTrack, Ended, Left;
    NotDone(s, tok, w, word, goal, id);
    if n > 0 {
      var s' := Apply(s, Go(tok, w));
      StepKeeps(s, Go(tok, w));
      FaithfulStep(s, Go(tok, w));
      if Ended(s, id, goal) {
        EndedStays(s, Go(tok, w), id, goal);
      } else if s.agents[tok].pc.Finishing? {
        Finishes(s, tok, w, word, goal);
      } else {
        StepsOn(s, tok, w, word, goal);
      }
      GetsThere(s', tok, w, word, goal, id, n - 1);
      assert Times(Go(tok, w), n)[1..] == Times(Go(tok, w), n - 1);
    }
  }

  lemma NotDone(s: Sys, tok: string, w: World, word: Upstream, goal: Upstream, id: string)
    ensures OnTrack(s, tok, w, word, goal) ==> tok in s.agents && Left(s.agents[tok].pc) > 0
  {
  }

  /* ---------- From any reachable state ---------- */

  /**
   A run that is live and free, in whatever state earlier agents left it, is ended by thirteen steps of
   one agent: with what the upstream says, or as cancelled if that was asked for before the intent.
   */
  lemma LeftAloneItEnds(instance: string, steps: seq<Step>, tok: string, id: string, now: nat, ttl: int, w: World,
      word: Upstream)
    requires var s := Exec(Init(instance), steps);
             && tok !in s.agents && tok != "" && ttl >= 1 && id in s.rows && s.rows[id].run.Some?
             && var r := s.rows[id].run.value;
             && Live(r) && (r.token == "" || r.expires <= now) && w.now < now + ttl
             && Friendly(w, word) && NewId(w, s.jobs, r.node)
    ensures var s := Exec(Init(instance), steps);
            var r := s.rows[id].run.value;
            Ended(Exec(Apply(s, Start(tok, id, r.node, now, ttl)), Times(Go(tok, w), 13)), id, Expected(r, word))
  {
    hide Exec, Inv, AllFaithful;
    Reachable(instance, steps);
    ReachableFaithful(instance, steps);
    var s := Exec(Init(instance), steps);
    var r := s.rows[id].run.value;
    var start := Start(tok, id, r.node, now, ttl);
    GrantedExactly(instance, steps, tok, id, r.node, now, ttl);
    StepKeeps(s, start);
    FaithfulStep(s, start);
    var s' := Apply(s, start);
    assert s'.agents[tok] == Agent(id, r.node, s'.rows[id].run.value, Deciding);
    assert OnTrack(s', tok, w, word, Expected(r, word));
    GetsThere(s', tok, w, word, Expected(r, word), id, 13);
  }
}
