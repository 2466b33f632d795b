/** How a minimax-v2 task is bound, resumed, given up and ended, in every run from its claim on. */
module OfficialTheorems {
  import opened Domain
  import opened Official

  /** A task at work holds its slot, and has no job before it runs; one that has ended holds no slot. */
  predicate TaskSound(t: Task) {
    && (t.slot ==> t.status == Dispatching || t.status == Running)
    && (!t.slot ==> t.status == Succeeded || t.status == Failed)
    && (t.status == Dispatching ==> t.job == "")
  }

  /** Whoever polls polls the bound job. */
  predicate AgentSound(t: Task, a: Agent) {
    a.pc.Polling? ==> a.pc.id == t.job && t.status != Dispatching
  }

  predicate Sound(s: Sys) {
    TaskSound(s.task) && forall k | k in s.agents :: AgentSound(s.task, s.agents[k])
  }

  lemma WorkSound(s: Sys, k: string, a: Agent, w: World)
    requires TaskSound(s.task) && AgentSound(s.task, a) && k in s.agents && s.agents[k] == a
    ensures var s' := Work(s, k, a, w);
            && TaskSound(s'.task) && k in s'.agents && AgentSound(s'.task, s'.agents[k])
            && (s.task.status != Dispatching ==> s'.task.status != Dispatching && s'.task.job == s.task.job)
            && s'.agents == s.agents[k := s'.agents[k]]
  {
    hide Candidates, Verdict;
  }

  lemma SoundStep(s: Sys, step: Step)
    requires Sound(s)
    ensures Sound(Apply(s, step))
  {
    hide Work, TaskSound;
    if step.Go? && step.k in s.agents {
      WorkSound(s, step.k, s.agents[step.k], step.w);
    }
  }

  lemma {:induction false} SoundRun(s: Sys, steps: seq<Step>)
    requires Sound(s)
    ensures Sound(Exec(s, steps))
    decreases |steps|
  {
    hide Sound, Apply;
    if steps != [] {
      SoundStep(s, steps[0]);
      SoundRun(Apply(s, steps[0]), steps[1..]);
    }
  }

  lemma Reachable(s: Sys, steps: seq<Step>)
    requires Claimed(s)
    ensures Sound(Exec(s, steps))
  {
    SoundRun(s, steps);
  }

  /** Somebody has the final word on the task: the upstream about its job, or an agent that gives up. */
  predicate FinalWord(a: Agent, w: World) {
    (a.pc.Polling? && w.ended.Some?) || a.pc.Failing?
  }

  /**
   A step of an agent ends the task exactly if it is such a word and the task is still at work; it then
   succeeds exactly if the upstream says so of the bound job. A task that has ended never changes again.
   */
  lemma EndsExactly(s: Sys, steps: seq<Step>, k: string, w: World)
    requires Claimed(s) && k in Exec(s, steps).agents
    ensures var t := Exec(s, steps);
            var a := t.agents[k];
            var t' := Apply(t, Go(k, w));
            && (t.task.slot ==> (!t'.task.slot <==> FinalWord(a, w)))
            && (t.task.slot && FinalWord(a, w) ==>
                  && (t'.task.status == Succeeded <==> a.pc == Polling(t.task.job) && w.ended == Some(true))
                  && (t'.task.status == Failed <==> a.pc.Failing? || w.ended == Some(false)))
            && (!t.task.slot ==> t'.task == t.task)
  {
    hide Exec, Candidates, Verdict;
    Reachable(s, steps);
  }

  /** An id is bound exactly while the task waits for one, and then stays; whoever bound it polls it. */
  lemma BindsOnce(s: Sys, steps: seq<Step>, k: string, w: World)
    requires Claimed(s) && k in Exec(s, steps).agents
    ensures var t := Exec(s, steps);
            var a := t.agents[k];
            var t' := Apply(t, Go(k, w));
            && (t.task.status != Dispatching ==> t'.task.job == t.task.job)
            && (t.task.job != t'.task.job ==> a.pc == Binding(t'.task.job))
            && (a.pc.Binding? && t.task.status == Dispatching ==>
                  t'.task.job == a.pc.id && t'.agents[k].pc == Polling(a.pc.id) && t'.task.status == Running)
            && (a.pc.Binding? && t.task.status != Dispatching ==> t'.agents[k].pc == Stopped)
  {
    hide Exec, Candidates, Verdict;
    Reachable(s, steps);
  }

  /**
   A run starts where the last one left off: with the bound job if there is one, else by looking for
   it if a list was saved, and only otherwise on the way to a Submit.
   */
  lemma ResumesWhereItWas(s: Sys, k: string, w: World)
    requires k in s.agents && s.agents[k].pc == Loading
    ensures var s' := Apply(s, Go(k, w));
            var a' := s'.agents[k];
            && s' == s.(agents := s.agents[k := a'])
            && (a'.pc == Polling(s.task.job) <==> s.task.job != "")
            && (a'.pc.Searching? <==> s.task.job == "" && s.task.saved)
            && (a'.pc.Listing? <==> s.task.job == "" && !s.task.saved)
            && (a'.pc.Searching? ==> forall id :: id in a'.before <==> id in s.task.before)
  {
  }

  /** A list in which the agent does not find its job. */
  ghost predicate Fruitless(s: Sys, k: string, w: World) {
    && k in s.agents && w.listing.Some?
    && forall i :: !Hit(s.task, s.agents[k].before, w.listing.value, i)
  }

  /** About to begin its search: a saved list without a job, or a call without an answer. */
  predicate BeginsSearch(s: Sys, k: string, w: World) {
    && k in s.agents
    && ((s.agents[k].pc == Loading && s.task.job == "" && s.task.saved)
        || (s.agents[k].pc.Submitting? && w.answer.None?))
  }

  lemma SearchStep(s: Sys, k: string, w: World)
    requires k in s.agents && s.agents[k].pc.Searching? && Fruitless(s, k, w)
    ensures var s' := Apply(s, Go(k, w));
            && k in s'.agents && s'.task == s.task && s'.agents[k].before == s.agents[k].before
            && s'.agents[k].pc == if s.agents[k].pc.tries > 1 then Searching(s.agents[k].pc.tries - 1) else Failing
  {
    hide Candidates, Hit;
    UniqueIsTheOnlyMatch(s.task, s.agents[k].before, w.listing.value, "");
  }

  /** A search gives up after exactly three lists in which the job is not found. */
  lemma SearchesThrice(s: Sys, k: string, w: World, w1: World, w2: World, w3: World)
    requires BeginsSearch(s, k, w)
    requires var s0 := Apply(s, Go(k, w)); Fruitless(s0, k, w1) && Fruitless(s0, k, w2) && Fruitless(s0, k, w3)
    ensures var s0 := Apply(s, Go(k, w));
            var s1 := Apply(s0, Go(k, w1));
            var s2 := Apply(s1, Go(k, w2));
            var s3 := Apply(s2, Go(k, w3));
            && k in s1.agents && s1.agents[k].pc.Searching? && k in s2.agents && s2.agents[k].pc.Searching?
            && k in s3.agents && s3.agents[k].pc.Failing?
  {
    hide Hit;
    var s0 := Apply(s, Go(k, w));
    assert s0.agents[k].pc.Searching?;
    hide Apply;
    SearchStep(s0, k, w1);
    var s1 := Apply(s0, Go(k, w1));
    SearchStep(s1, k, w2);
    SearchStep(Apply(s1, Go(k, w2)), k, w3);
  }
}
