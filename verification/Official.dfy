/**
 The minimax-v2 processor.  That upstream knows no idempotency keys, so a task is submitted at
 most once: the list of jobs before the call is saved first, and after an unclear answer or a
 crash the job is looked for among the newcomers instead of being submitted again.
 */
module Official {
  import opened Domain

  datatype Listed = Listed(id: string, resolution: string, duration: int, ratio: string, createdAt: int)

  /** `before` is the saved list of job ids; times count seconds and zero stands for none. */
  datatype Task = Task(
    resolution: string, duration: int, ratio: string, startedAt: int,
    status: Status, slot: bool, saved: bool, before: seq<string>, job: string)

  /* ---------- Looking for the job ---------- */

  /** A listed job that was not there before and does not contradict the task. */
  predicate Matches(t: Task, before: set<string>, x: Listed) {
    && x.id !in before
    && (x.resolution == "" || x.resolution == t.resolution)
    && (x.duration == 0 || x.duration == t.duration)
    && (x.ratio == "" || t.ratio == "" || x.ratio == t.ratio)
    && !(x.createdAt > 0 && t.startedAt != 0 && x.createdAt < t.startedAt - 5)
  }

  function Candidates(t: Task, before: set<string>, items: seq<Listed>): seq<string> {
    if items == [] then [] else
    Candidates(t, before, items[..|items| - 1]) + if Matches(t, before, items[|items| - 1])
      then [items[|items| - 1].id] else []
  }

  datatype Found = Nothing | Unique(id: string) | Several

  function Verdict(candidates: seq<string>): Found {
    if candidates == [] then Nothing else if |candidates| == 1 then Unique(candidates[0]) else Several
  }

  method Reconcile(t: Task, before: set<string>, items: seq<Listed>) returns (found: Found)
    ensures found == Verdict(Candidates(t, before, items))
  {
    var candidates := [];
    for i := 0 to |items|
      invariant candidates == Candidates(t, before, items[..i])
    {
      var item := items[i];
      assert items[..i + 1][..i] == items[..i];
      if item.id in before { continue; }
      if item.resolution != "" && item.resolution != t.resolution { continue; }
      if item.duration != 0 && item.duration != t.duration { continue; }
      if item.ratio != "" && t.ratio != "" && item.ratio != t.ratio { continue; }
      if item.createdAt > 0 && t.startedAt != 0 && item.createdAt < t.startedAt - 5 { continue; }
      candidates := candidates + [item.id];
    }
    assert items[..|items|] == items;
    found := Verdict(candidates);
  }

  predicate Hit(t: Task, before: set<string>, items: seq<Listed>, i: int) {
    0 <= i < |items| && Matches(t, before, items[i])
  }

  lemma {:induction false} SomeHit(t: Task, before: set<string>, items: seq<Listed>)
    requires Candidates(t, before, items) != []
    ensures exists i :: Hit(t, before, items, i)
  {
    var n := |items| - 1;
    if Matches(t, before, items[n]) {
      assert Hit(t, before, items, n);
    } else {
      SomeHit(t, before, items[..n]);
      var i :| Hit(t, before, items[..n], i);
      assert Hit(t, before, items, i);
    }
  }

  lemma {:induction false} HitCounts(t: Task, before: set<string>, items: seq<Listed>, i: int)
    requires Hit(t, before, items, i)
    ensures items[i].id in Candidates(t, before, items)
  {
    var n := |items| - 1;
    if i < n {
      assert Hit(t, before, items[..n], i);
      HitCounts(t, before, items[..n], i);
    }
  }

  lemma {:induction false} TwoHits(t: Task, before: set<string>, items: seq<Listed>, i: int, j: int)
    requires Hit(t, before, items, i) && Hit(t, before, items, j) && i < j
    ensures |Candidates(t, before, items)| >= 2
  {
    var n := |items| - 1;
    assert Hit(t, before, items[..n], i);
    if j < n {
      assert Hit(t, before, items[..n], j);
      TwoHits(t, before, items[..n], i, j);
    } else {
      HitCounts(t, before, items[..n], i);
    }
  }

  lemma {:induction false} TwoCandidates(t: Task, before: set<string>, items: seq<Listed>)
    requires |Candidates(t, before, items)| >= 2
    ensures exists i, j :: Hit(t, before, items, i) && Hit(t, before, items, j) && i < j
  {
    var n := |items| - 1;
    if Matches(t, before, items[n]) {
      SomeHit(t, before, items[..n]);
      var i :| Hit(t, before, items[..n], i);
      assert Hit(t, before, items, i) && Hit(t, before, items, n);
    } else {
      TwoCandidates(t, before, items[..n]);
      var i, j :| Hit(t, before, items[..n], i) && Hit(t, before, items[..n], j) && i < j;
      assert Hit(t, before, items, i) && Hit(t, before, items, j);
    }
  }

  /** A unique find is the one entry of the list that is new and fits. */
  lemma UniqueIsTheOnlyMatch(t: Task, before: set<string>, items: seq<Listed>, id: string)
    ensures Verdict(Candidates(t, before, items)) == Unique(id) <==>
              exists i :: Hit(t, before, items, i) && items[i].id == id && forall j | Hit(t, before, items, j) :: j == i
    ensures Verdict(Candidates(t, before, items)) == Nothing <==> forall i :: !Hit(t, before, items, i)
  {
    hide Candidates, Matches;
    var c := Candidates(t, before, items);
    if |c| == 1 {
      SomeHit(t, before, items);
      var i :| Hit(t, before, items, i);
      HitCounts(t, before, items, i);
      forall j | Hit(t, before, items, j) ensures j == i {
        if i < j { TwoHits(t, before, items, i, j); } else if j < i { TwoHits(t, before, items, j, i); }
      }
    } else if |c| >= 2 {
      TwoCandidates(t, before, items);
    }
    forall i | Hit(t, before, items, i) ensures c != [] { HitCounts(t, before, items, i); }
  }

  /** A job as the upstream has it, whatever its list shows. */
  datatype Job = Job(resolution: string, duration: int, ratio: string, createdAt: int)

  /** The task's own call may have made this job, with five seconds between the clocks. */
  predicate Ours(t: Task, job: Job) {
    && job.resolution == t.resolution && job.duration == t.duration
    && (t.ratio != "" ==> job.ratio == t.ratio)
    && (t.startedAt != 0 ==> t.startedAt - 5 <= job.createdAt)
  }

  /** The list shows each field as it is or leaves it out. */
  predicate Shows(x: Listed, job: Job) {
    && (x.resolution == "" || x.resolution == job.resolution)
    && (x.duration == 0 || x.duration == job.duration)
    && (x.ratio == "" || x.ratio == job.ratio)
    && (x.createdAt <= 0 || x.createdAt == job.createdAt)
  }

  /** An entry matches exactly if it is new and could be showing a job of this task. */
  lemma MatchesExactly(t: Task, before: set<string>, x: Listed)
    ensures Matches(t, before, x) <==> x.id !in before && exists job :: Ours(t, job) && Shows(x, job)
  {
    if Matches(t, before, x) {
      var ratio := if t.ratio != "" then t.ratio else x.ratio;
      var createdAt := if x.createdAt > 0 then x.createdAt else t.startedAt;
      var job := Job(t.resolution, t.duration, ratio, createdAt);
      assert Ours(t, job) && Shows(x, job);
    }
  }

  /** So a job of this task that is listed and was not there before is the find, or there are several. */
  lemma OwnJobIsFound(t: Task, before: set<string>, items: seq<Listed>, i: nat, job: Job)
    requires i < |items| && Ours(t, job) && Shows(items[i], job) && items[i].id !in before
    ensures var found := Verdict(Candidates(t, before, items)); found == Unique(items[i].id) || found == Several
  {
    hide Matches, Candidates;
    MatchesExactly(t, before, items[i]);
    assert Hit(t, before, items, i);
    HitCounts(t, before, items, i);
  }

  /* ---------- The processor ---------- */

  datatype Pc =
    | Loading | Searching(tries: nat) | Listing | Saving(ids: seq<string>) | Submitting(ids: seq<string>)
    | Binding(id: string) | Polling(id: string) | Failing | Stopped

  /** `before` is the set of ids the processor compares with. */
  datatype Agent = Agent(before: set<string>, pc: Pc)

  datatype World = World(listing: Option<seq<Listed>>, answer: Option<string>, ended: Option<bool>)

  /** `submits` holds the answer of every call, `listings` every list that was read. */
  datatype Sys = Sys(task: Task, agents: map<string, Agent>, submits: seq<Option<string>>, listings: seq<seq<Listed>>)

  datatype Step = Start(k: string) | Crash(k: string) | Go(k: string, w: World)

  predicate StillOurs(t: Task) {
    t.slot && t.status == Dispatching
  }

  function AsSet(ids: seq<string>): set<string> {
    set id | id in ids
  }

  function Ids(items: seq<Listed>): seq<string> {
    seq(|items|, i requires 0 <= i < |items| => items[i].id)
  }

  function Move(s: Sys, k: string, a: Agent, pc: Pc): Sys {
    s.(agents := s.agents[k := a.(pc := pc)])
  }

  function Work(s: Sys, k: string, a: Agent, w: World): Sys {
    var t := s.task;
    match a.pc
    case Loading =>
      if t.job != "" then Move(s, k, a, Polling(t.job))
      else if t.saved then Move(s, k, a.(before := AsSet(t.before)), Searching(3))
      else Move(s, k, a, Listing)
    case Listing =>
      if w.listing.None? then Move(s, k, a, Failing)
      else Move(s.(listings := s.listings + [w.listing.value]), k, a.(before := AsSet(Ids(w.listing.value))),
                Saving(Ids(w.listing.value)))
    case Saving(ids) =>
      if StillOurs(t) then Move(s.(task := t.(saved := true, before := ids)), k, a, Submitting(ids))
         else Move(s, k, a, Stopped)
    case Submitting(_) =>
      Move(s.(submits := s.submits + [w.answer]), k, a,
           if w.answer.Some? then Binding(w.answer.value) else Searching(3))
    case Searching(tries) =>
      if w.listing.None? then Move(s, k, a, Failing)
      else
        var s1 := s.(listings := s.listings + [w.listing.value]);
        (match Verdict(Candidates(t, a.before, w.listing.value))
         case Unique(id) => Move(s1, k, a, Binding(id))
         case Several => Move(s1, k, a, Failing)
         case Nothing => Move(s1, k, a, if tries > 1 then Searching(tries - 1) else Failing))
    case Binding(id) =>
      if StillOurs(t) then Move(s.(task := t.(job := id, status := Running)), k, a, Polling(id))
         else Move(s, k, a, Stopped)
    case Polling(_) =>
      if w.ended.None? then s
      else if t.slot && (t.status == Dispatching || t.status == Running)
      then Move(s.(task := t.(slot := false, status := if w.ended.value then Succeeded else Failed)), k, a, Stopped)
      else Move(s, k, a, Stopped)
    case Failing =>
      if t.slot && (t.status == Dispatching || t.status == Running)
      then Move(s.(task := t.(slot := false, status := Failed)), k, a, Stopped)
      else Move(s, k, a, Stopped)
    case Stopped => s
  }

  function Apply(s: Sys, step: Step): Sys {
    match step
    case Start(k) => if k in s.agents then s else s.(agents := s.agents[k := Agent({}, Loading)])
    case Crash(k) => s.(agents := s.agents - {k})
    case Go(k, w) => if k in s.agents then Work(s, k, s.agents[k], w) else s
  }

  function Exec(s: Sys, steps: seq<Step>): Sys
    decreases |steps|
  {
    if steps == [] then s else Exec(Apply(s, steps[0]), steps[1..])
  }

  /** A freshly claimed task. */
  predicate Claimed(s: Sys) {
    && s.agents == map[] && s.submits == [] && s.listings == []
    && s.task.slot && s.task.status == Dispatching && !s.task.saved && s.task.job == ""
  }

  /** Between deciding to submit and saving the list. */
  predicate Drafting(a: Agent) {
    a.pc.Listing? || a.pc.Saving?
  }

  /** A run decides to submit while another one has decided so and may still save its list. */
  predicate Collides(s: Sys, step: Step) {
    && step.Go? && step.k in s.agents && s.agents[step.k].pc.Loading?
    && StillOurs(s.task) && !s.task.saved && s.task.job == ""
    && exists k | k in s.agents :: k != step.k && Drafting(s.agents[k])
  }

  predicate NeverCollides(s: Sys, steps: seq<Step>)
    decreases |steps|
  {
    steps == [] || (!Collides(s, steps[0]) && NeverCollides(Apply(s, steps[0]), steps[1..]))
  }

  /* ---------- Submitted at most once ---------- */

  /** An id answered by the call, or the only match of some list. */
  predicate Justified(s: Sys, id: string) {
    || Some(id) in s.submits
    || exists l | l in s.listings :: Verdict(Candidates(s.task, AsSet(s.task.before), l)) == Unique(id)
  }

  predicate AgentOk(s: Sys, a: Agent) {
    && (Drafting(a) && StillOurs(s.task) ==> !s.task.saved && s.submits == [])
    && (a.pc.Saving? ==> a.before == AsSet(a.pc.ids))
    && (a.pc.Submitting? ==> s.task.saved && s.submits == [] && a.before == AsSet(s.task.before))
    && (a.pc.Searching? ==> s.task.saved && a.before == AsSet(s.task.before))
    && (a.pc.Binding? ==> s.task.saved && Justified(s, a.pc.id))
  }

  /** Two runs on the way to a Submit: only when the task is no longer ours, and then neither can save. */
  predicate Apart(s: Sys) {
    && (forall k, k' | k in s.agents && k' in s.agents && k != k' ::
          && (Drafting(s.agents[k]) && Drafting(s.agents[k']) ==> !StillOurs(s.task))
          && !(s.agents[k].pc.Submitting? && s.agents[k'].pc.Submitting?))
  }

  predicate Inv(s: Sys) {
    && (forall k | k in s.agents :: AgentOk(s, s.agents[k]))
    && Apart(s)
    && |s.submits| <= 1 && (s.submits != [] ==> s.task.saved)
    && (s.task.job != "" ==> s.task.saved && Justified(s, s.task.job))
  }

  lemma JustifiedStays(s: Sys, s': Sys, id: string)
    requires Justified(s, id) && s.submits <= s'.submits && s.listings <= s'.listings
    requires s'.task.before == s.task.before
    requires s'.task.resolution == s.task.resolution && s'.task.duration == s.task.duration
             && s'.task.ratio == s.task.ratio && s'.task.startedAt == s.task.startedAt
    ensures Justified(s', id)
  {
    if Some(id) !in s.submits {
      var l :| l in s.listings && Verdict(Candidates(s.task, AsSet(s.task.before), l)) == Unique(id);
      SameCandidates(s.task, s'.task, AsSet(s.task.before), l);
      assert l in s'.listings;
    }
  }

  lemma {:induction false} SameCandidates(t: Task, t': Task, before: set<string>, items: seq<Listed>)
    requires t'.resolution == t.resolution && t'.duration == t.duration && t'.ratio == t.ratio
             && t'.startedAt == t.startedAt
    ensures Candidates(t, before, items) == Candidates(t', before, items)
  {
    if items != [] {
      SameCandidates(t, t', before, items[..|items| - 1]);
    }
  }

  /** What a step may change of the task and of the records. */
  predicate Follows(s: Sys, s': Sys) {
    && s.submits <= s'.submits && s.listings <= s'.listings
    && s'.task.resolution == s.task.resolution && s'.task.duration == s.task.duration
    && s'.task.ratio == s.task.ratio && s'.task.startedAt == s.task.startedAt
    && (StillOurs(s'.task) ==> StillOurs(s.task)) && (s.task.saved ==> s'.task.saved)
  }

  lemma WorkFollows(s: Sys, k: string, w: World)
    requires k in s.agents
    ensures Follows(s, Work(s, k, s.agents[k], w))
  {
    hide Candidates, Verdict;
  }

  /** Everyone else stays in order: the list is saved only while nobody depends on the old one. */
  lemma OthersKeep(s: Sys, k: string, w: World, k': string)
    requires Inv(s) && k in s.agents && k' in s.agents && k' != k
    ensures AgentOk(Work(s, k, s.agents[k], w), s.agents[k'])
  {
    hide Candidates, Verdict, Justified;
    var a, s' := s.agents[k], Work(s, k, s.agents[k], w);
    assert AgentOk(s, a) && AgentOk(s, s.agents[k']);
    WorkFollows(s, k, w);
    if s.agents[k'].pc.Binding? && s'.task.before == s.task.before {
      JustifiedStays(s, s', s.agents[k'].pc.id);
    }
  }

  lemma ActorKeeps(s: Sys, k: string, w: World)
    requires Inv(s) && k in s.agents
    ensures var s' := Work(s, k, s.agents[k], w); k in s'.agents && AgentOk(s', s'.agents[k])
  {
    hide Candidates, Verdict, Justified;
    var a := s.agents[k];
    var s' := Work(s, k, a, w);
    assert AgentOk(s, a);
    match a.pc
    case Submitting(_) => if w.answer.Some? { Answered(s', w.answer.value); }
    case Searching(_) =>
      if w.listing.Some? && Verdict(Candidates(s.task, a.before, w.listing.value)).Unique? {
        FoundOnList(s, s', w.listing.value, Verdict(Candidates(s.task, a.before, w.listing.value)).id);
      }
    case _ =>
  }

  lemma TaskKeeps(s: Sys, k: string, w: World)
    requires Inv(s) && k in s.agents
    ensures var s' := Work(s, k, s.agents[k], w);
            && |s'.submits| <= 1 && (s'.submits != [] ==> s'.task.saved)
            && (s'.task.job != "" ==> s'.task.saved && Justified(s', s'.task.job))
  {
    hide Candidates, Verdict, Justified;
    var a := s.agents[k];
    var s' := Work(s, k, a, w);
    assert AgentOk(s, a);
    WorkFollows(s, k, w);
    if s.task.job != "" && s'.task.before == s.task.before {
      JustifiedStays(s, s', s.task.job);
    }
    if a.pc.Binding? {
      JustifiedStays(s, s', a.pc.id);
    }
  }

  lemma ApartKeeps(s: Sys, k: string, w: World)
    requires Inv(s) && k in s.agents && !Collides(s, Go(k, w))
    ensures Apart(Work(s, k, s.agents[k], w))
  {
    hide Candidates, Verdict, Justified;
    var s' := Work(s, k, s.agents[k], w);
    WorkFollows(s, k, w);
    assert AgentOk(s, s.agents[k]);
    forall m, m' | m in s'.agents && m' in s'.agents && m != m'
      ensures Drafting(s'.agents[m]) && Drafting(s'.agents[m']) ==> !StillOurs(s'.task)
      ensures !(s'.agents[m].pc.Submitting? && s'.agents[m'].pc.Submitting?)
    {
      assert AgentOk(s, s.agents[m]) && AgentOk(s, s.agents[m']);
    }
  }

  lemma Answered(s: Sys, id: string)
    requires s.submits != [] && s.submits[|s.submits| - 1] == Some(id)
    ensures Justified(s, id)
  {
    assert Some(id) in s.submits;
  }

  lemma FoundOnList(s: Sys, s': Sys, items: seq<Listed>, id: string)
    requires s'.task == s.task && s'.listings == s.listings + [items]
    requires Verdict(Candidates(s.task, AsSet(s.task.before), items)) == Unique(id)
    ensures Justified(s', id)
  {
    assert items in s'.listings;
  }

  lemma GoKeeps(s: Sys, k: string, w: World)
    requires Inv(s) && k in s.agents && !Collides(s, Go(k, w))
    ensures Inv(Work(s, k, s.agents[k], w))
  {
    hide AgentOk, Apart, Justified, Collides;
    var s' := Work(s, k, s.agents[k], w);
    ActorKeeps(s, k, w);
    TaskKeeps(s, k, w);
    ApartKeeps(s, k, w);
    forall m | m in s'.agents ensures AgentOk(s', s'.agents[m]) {
      if m != k { OthersKeep(s, k, w, m); }
    }
  }

  lemma StepKeeps(s: Sys, step: Step)
    requires Inv(s) && !Collides(s, step)
    ensures Inv(Apply(s, step))
  {
    hide Work, Justified;
    match step
    case Go(k, w) => if k in s.agents { GoKeeps(s, k, w); }
    case Start(k) => SameJustified(s, Apply(s, step));
    case Crash(k) => SameJustified(s, Apply(s, step));
  }

  lemma SameJustified(s: Sys, s': Sys)
    requires s'.task == s.task && s'.submits == s.submits && s'.listings == s.listings
    ensures forall id :: Justified(s, id) <==> Justified(s', id)
  {
  }

  /**
   Over every run without a collision, with crashes, late agents and any number of runs side by
   side: at most one Submit, and a bound id is its answer or the only match outside the saved list.
   */
  lemma {:induction false} SubmittedAtMostOnce(s: Sys, steps: seq<Step>)
    requires Inv(s) && NeverCollides(s, steps)
    ensures var s' := Exec(s, steps);
            |s'.submits| <= 1 && (s'.task.job != "" ==> s'.task.saved && Justified(s', s'.task.job))
    decreases |steps|
  {
    hide Apply, Justified, Collides;
    if steps != [] {
      StepKeeps(s, steps[0]);
      SubmittedAtMostOnce(Apply(s, steps[0]), steps[1..]);
    }
  }

  lemma ClaimedIsFine(s: Sys)
    requires Claimed(s)
    ensures Inv(s)
  {
  }

  /* ---------- Runs that follow one another ---------- */

  /** Nobody starts on the task while another run of it is under way. */
  predicate Alone(s: Sys, step: Step) {
    step.Start? ==> s.agents == map[]
  }

  predicate AlwaysAlone(s: Sys, steps: seq<Step>)
    decreases |steps|
  {
    steps == [] || (Alone(s, steps[0]) && AlwaysAlone(Apply(s, steps[0]), steps[1..]))
  }

  predicate AtMostOne(s: Sys) {
    forall k, k' | k in s.agents && k' in s.agents :: k == k'
  }

  lemma AloneStep(s: Sys, step: Step)
    requires AtMostOne(s) && Alone(s, step)
    ensures AtMostOne(Apply(s, step)) && !Collides(s, step)
  {
    hide Candidates, Verdict;
  }

  lemma {:induction false} AloneNeverCollides(s: Sys, steps: seq<Step>)
    requires AtMostOne(s) && AlwaysAlone(s, steps)
    ensures NeverCollides(s, steps)
    decreases |steps|
  {
    hide Apply, Alone, AtMostOne, Collides;
    if steps != [] {
      AloneStep(s, steps[0]);
      AloneNeverCollides(Apply(s, steps[0]), steps[1..]);
    }
  }

  /** The promise for a task as it is claimed and then worked on by one run after the other. */
  lemma OneSubmitPerTask(s: Sys, steps: seq<Step>)
    requires Claimed(s) && AlwaysAlone(s, steps)
    ensures var s' := Exec(s, steps);
            |s'.submits| <= 1 && (s'.task.job != "" ==> Justified(s', s'.task.job))
  {
    hide Justified;
    ClaimedIsFine(s);
    AloneNeverCollides(s, steps);
    SubmittedAtMostOnce(s, steps);
  }

  /* ---------- What a collision leads to ---------- */

  const QUIET := World(Some([]), None, None)

  /** One step of an agent that is not about to decide. */
  lemma QuietStep(s: Sys, k: string)
    requires k in s.agents && !s.agents[k].pc.Loading?
    ensures !Collides(s, Go(k, QUIET)) && Apply(s, Go(k, QUIET)) == Work(s, k, s.agents[k], QUIET)
  {
  }

  /** A drafting agent gets to save its list, if it has not got there yet, and nothing else changes. */
  lemma GetsToSave(s: Sys, k: string) returns (steps: seq<Step>)
    requires k in s.agents && Drafting(s.agents[k])
    ensures NeverCollides(s, steps)
    ensures var s' := Exec(s, steps);
            && s'.task == s.task && s'.submits == s.submits && k in s'.agents && s'.agents[k].pc.Saving?
            && s'.agents - {k} == s.agents - {k}
  {
    if s.agents[k].pc.Saving? {
      steps := [];
    } else {
      steps := [Go(k, QUIET)];
      QuietStep(s, k);
      assert Exec(s, steps) == Exec(Apply(s, steps[0]), []);
    }
  }

  /** It saves and submits, with no answer; the task is still ours. */
  lemma SavesAndSubmits(s: Sys, k: string) returns (steps: seq<Step>)
    requires k in s.agents && s.agents[k].pc.Saving? && StillOurs(s.task)
    ensures NeverCollides(s, steps)
    ensures var s' := Exec(s, steps);
            StillOurs(s'.task) && |s'.submits| == |s.submits| + 1 && s'.agents - {k} == s.agents - {k}
  {
    steps := [Go(k, QUIET), Go(k, QUIET)];
    QuietStep(s, k);
    var s1 := Apply(s, steps[0]);
    QuietStep(s1, k);
    var s2 := Apply(s1, steps[1]);
    assert steps[1..] == [steps[1]] && steps[1..][1..] == [];
    assert Exec(s, steps) == Exec(s1, steps[1..]) == Exec(s2, []);
    assert NeverCollides(s1, steps[1..]);
  }

  lemma {:induction false} Concat(s: Sys, xs: seq<Step>, ys: seq<Step>)
    ensures Exec(s, xs + ys) == Exec(Exec(s, xs), ys)
    ensures NeverCollides(s, xs) && NeverCollides(Exec(s, xs), ys) ==> NeverCollides(s, xs + ys)
    decreases |xs|
  {
    hide Apply, Collides;
    if xs == [] {
      assert xs + ys == ys;
    } else {
      assert (xs + ys)[1..] == xs[1..] + ys;
      Concat(Apply(s, xs[0]), xs[1..], ys);
    }
  }

  /** Two drafting agents of a task that is still ours: both can submit. */
  lemma BothSubmit(s: Sys, k: string, k': string) returns (steps: seq<Step>)
    requires k in s.agents && k' in s.agents && k != k' && Drafting(s.agents[k]) && Drafting(s.agents[k'])
             && StillOurs(s.task)
    ensures NeverCollides(s, steps) && |Exec(s, steps).submits| == |s.submits| + 2
  {
    hide Apply, Exec, NeverCollides;
    var a := GetsToSave(s, k);
    var s1 := Exec(s, a);
    Kept(s, s1, k, k');
    var b := GetsToSave(s1, k');
    var s2 := Exec(s1, b);
    Kept(s1, s2, k', k);
    var c := SavesAndSubmits(s2, k);
    var s3 := Exec(s2, c);
    Kept(s2, s3, k, k');
    var d := SavesAndSubmits(s3, k');
    Concat(s, a, b);
    Concat(s, a + b, c);
    Concat(s, a + b + c, d);
    steps := a + b + c + d;
  }

  lemma Kept(s: Sys, s': Sys, k: string, k': string)
    requires s'.agents - {k} == s.agents - {k} && k' in s.agents && k' != k
    ensures k' in s'.agents && s'.agents[k'] == s.agents[k']
  {
    assert k' in s.agents - {k} && (s'.agents - {k})[k'] == (s.agents - {k})[k'];
  }

  /**
   The exact condition: a step opens the way to two Submits, without any further collision, if and
   only if it is a collision.
   */
  lemma CollisionIsExact(s: Sys, step: Step)
    requires Inv(s)
    ensures Collides(s, step) <==>
              exists more :: NeverCollides(Apply(s, step), more) && |Exec(Apply(s, step), more).submits| >= 2
  {
    var s' := Apply(s, step);
    if Collides(s, step) {
      var k' :| k' in s.agents && k' != step.k && Drafting(s.agents[k']);
      var more := BothSubmit(s', step.k, k');
      assert NeverCollides(s', more) && |Exec(s', more).submits| >= 2;
    } else {
      hide Apply, Exec, NeverCollides, Collides;
      StepKeeps(s, step);
      forall more | NeverCollides(s', more) ensures |Exec(s', more).submits| <= 1 {
        SubmittedAtMostOnce(s', more);
      }
    }
  }

  /** And collisions happen: two runs of a claimed task that start before either has saved its list. */
  lemma OverlapSubmitsTwice(s: Sys) returns (steps: seq<Step>)
    requires Claimed(s)
    ensures |Exec(s, steps).submits| == 2
  {
    assert "a"[0] != "b"[0];
    var opening := [Start("a"), Start("b"), Go("a", QUIET), Go("b", QUIET)];
    var s1 := Apply(s, opening[0]);
    var s2 := Apply(s1, opening[1]);
    var s3 := Apply(s2, opening[2]);
    var s4 := Apply(s3, opening[3]);
    assert Drafting(s4.agents["a"]) && Drafting(s4.agents["b"]) && StillOurs(s4.task) && s4.submits == [];
    assert Exec(s, opening) == s4 by {
      hide Apply;
      assert Exec(s, opening) == Exec(s1, opening[1..]) == Exec(s2, opening[2..]);
      assert Exec(s2, opening[2..]) == Exec(s3, opening[3..]) == Exec(s4, []);
    }
    var rest := BothSubmit(s4, "a", "b");
    Concat(s, opening, rest);
    steps := opening + rest;
  }

  /* ---------- Two tasks, one job ---------- */

  /** A searching agent binds an id exactly when it is the only new entry of the list that fits its task. */
  lemma SearchBindsExactly(s: Sys, k: string, items: seq<Listed>, id: string)
    requires k in s.agents && s.agents[k].pc.Searching? && StillOurs(s.task) && s.task.job == "" && id != ""
    ensures var w := World(Some(items), None, None);
            Exec(s, [Go(k, w), Go(k, w)]).task.job == id <==>
              exists i :: Hit(s.task, s.agents[k].before, items, i) && items[i].id == id
                          && forall j | Hit(s.task, s.agents[k].before, items, j) :: j == i
  {
    hide Candidates, Hit;
    var w := World(Some(items), None, None);
    var s1 := Apply(s, Go(k, w));
    var s2 := Apply(s1, Go(k, w));
    assert [Go(k, w), Go(k, w)][1..] == [Go(k, w)];
    assert Exec(s, [Go(k, w), Go(k, w)]) == Exec(s1, [Go(k, w)]) == Exec(s2, []);
    UniqueIsTheOnlyMatch(s.task, s.agents[k].before, items, id);
    if !Verdict(Candidates(s.task, s.agents[k].before, items)).Unique? {
      StillSearching(s1, k, w, id);
    }
  }

  lemma StillSearching(s: Sys, k: string, w: World, id: string)
    requires k in s.agents && s.task.job == "" && id != "" && (s.agents[k].pc.Searching? || s.agents[k].pc.Failing?)
    ensures Apply(s, Go(k, w)).task.job != id
  {
    hide Candidates, Verdict;
  }

  /**
   The exact condition for two tasks: `a`, whose own call may have created nothing, ends up on the job
   of `b` if and only if that job is the only entry outside its saved list that fits `a`.
   */
  lemma SharesExactly(a: Sys, b: Sys, k: string, items: seq<Listed>)
    requires k in a.agents && a.agents[k].pc.Searching? && StillOurs(a.task) && a.task.job == "" && b.task.job != ""
    ensures var w := World(Some(items), None, None);
            Exec(a, [Go(k, w), Go(k, w)]).task.job == b.task.job <==>
              exists i :: Hit(a.task, a.agents[k].before, items, i) && items[i].id == b.task.job
                          && forall j | Hit(a.task, a.agents[k].before, items, j) :: j == i
  {
    SearchBindsExactly(a, k, items, b.task.job);
  }

  /** A run of one agent: decide, list, save, submit. */
  function Opening(k: string, answer: Option<string>): seq<Step> {
    [Start(k), Go(k, QUIET), Go(k, QUIET), Go(k, QUIET), Go(k, QUIET.(answer := answer))]
  }

  lemma Opens(s: Sys, k: string, answer: Option<string>)
    requires Claimed(s)
    ensures var s' := Exec(s, Opening(k, answer));
            && s'.task == s.task.(saved := true, before := []) && s'.submits == [answer]
            && k in s'.agents && s'.agents[k].before == {}
            && s'.agents[k].pc == if answer.Some? then Binding(answer.value) else Searching(3)
  {
    var o := Opening(k, answer);
    var s1 := Apply(s, o[0]);
    var s2 := Apply(s1, o[1]);
    var s3 := Apply(s2, o[2]);
    assert Ids([]) == [] && AsSet([]) == {};
    assert s3.agents[k] == Agent({}, Saving([]));
    var s4 := Apply(s3, o[3]);
    var s5 := Apply(s4, o[4]);
    hide Apply;
    assert Exec(s, o) == Exec(s1, o[1..]) == Exec(s2, o[2..]);
    assert Exec(s2, o[2..]) == Exec(s3, o[3..]) == Exec(s4, o[4..]) == Exec(s5, []);
  }

  /** Two claimed tasks; one is answered with a job, the other's call gets no answer; both end on that one job. */
  lemma TwoTasksOneJob(a: Sys, b: Sys, x: Listed) returns (forA: seq<Step>, forB: seq<Step>)
    requires Claimed(a) && Claimed(b) && x.id != "" && Matches(a.task, {}, x)
    ensures Exec(a, forA).task.job == Exec(b, forB).task.job == x.id
    ensures Exec(a, forA).submits == [None] && Exec(b, forB).submits == [Some(x.id)]
  {
    hide Candidates, Matches;
    Opens(b, "b", Some(x.id));
    var sb := Exec(b, Opening("b", Some(x.id)));
    forB := Opening("b", Some(x.id)) + [Go("b", QUIET)];
    Concat(b, Opening("b", Some(x.id)), [Go("b", QUIET)]);
    assert Exec(sb, [Go("b", QUIET)]) == Exec(Apply(sb, Go("b", QUIET)), []);

    Opens(a, "a", None);
    var sa := Exec(a, Opening("a", None));
    var w := World(Some([x]), None, None);
    forA := Opening("a", None) + [Go("a", w), Go("a", w)];
    Concat(a, Opening("a", None), [Go("a", w), Go("a", w)]);
    assert Hit(sa.task, {}, [x], 0) by { SameMatch(a.task, sa.task, x); }
    SearchBindsExactly(sa, "a", [x], x.id);
    NoMoreSubmits(sa, "a", w);
  }

  lemma SameMatch(t: Task, t': Task, x: Listed)
    requires t'.resolution == t.resolution && t'.duration == t.duration && t'.ratio == t.ratio
             && t'.startedAt == t.startedAt
    ensures Matches(t, {}, x) == Matches(t', {}, x)
  {
  }

  /** Searching and binding call nothing that submits. */
  lemma NoMoreSubmits(s: Sys, k: string, w: World)
    requires k in s.agents && s.agents[k].pc.Searching?
    ensures Exec(s, [Go(k, w), Go(k, w)]).submits == s.submits
  {
    hide Candidates, Verdict;
    var s1 := Apply(s, Go(k, w));
    assert [Go(k, w), Go(k, w)][1..] == [Go(k, w)];
    assert Exec(s, [Go(k, w), Go(k, w)]) == Exec(s1, [Go(k, w)]) == Exec(Apply(s1, Go(k, w)), []);
  }
}
