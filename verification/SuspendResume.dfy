/** agent/planner_runtime.go and agent/workflow.go: the active contexts of a conversation are put on the
    stack of suspended tasks and brought back. */
module SuspendResume {
  import opened Decimals
  import opened Options
  import opened Sequences
  import opened StringLists
  import opened Text
  import opened TaskSearch
  import E = ExecutionStates
  import S = SkillSessions
  import T = TaskStack

  datatype WorkflowTask = WorkflowTask(id: string, skill: string, action: string, request: string,
      dependsOn: seq<string>, status: string, error: string)

  datatype Workflow = Workflow(userId: int, request: string, tasks: seq<WorkflowTask>, at: Option<int>)

  const NO_WORKFLOW := Workflow(0, "", [], None)

  datatype Message = Message(role: string, content: string)

  const MAX_TURNS := 24

  /** normalizeSkillSession for the order in which the maps happen to be visited, what else it takes from
      outside, strings.ToLower, and normalizeAtomicSkillAction. */
  datatype Lib = Lib(skill: (S.SkillSession, int) -> S.SkillSession, draftName: string -> string,
      lower: string -> string,
                     action: (string, string) -> string) {
    ghost predicate Valid() {
      && (forall s, now :: S.Wf(s) ==> S.Wf(skill(s, now)) && S.IsNormal(s, S.Env(now, draftName), skill(s, now)))
      && (forall k, a :: action(k, action(k, a)) == action(k, a))
    }
  }

  // ---- Workflows ----

  function TaskName(i: nat): string {
    "task_" + Digits(i + 1)
  }

  function NormalTask(t: WorkflowTask, i: nat, lib: Lib): WorkflowTask {
    t.(id := if Trim(t.id) == "" then TaskName(i) else Trim(t.id),
       skill := Trim(t.skill), action := lib.action(Trim(t.skill), t.action), request := Trim(t.request),
       dependsOn := Clean(t.dependsOn, lib.lower), status := if Trim(t.status) == "" then "pending"
       else Trim(t.status), error := Trim(t.error))
  }

  predicate Complete(t: WorkflowTask) {
    t.skill != "" && t.action != "" && t.request != ""
  }

  function NormalTasks(tasks: seq<WorkflowTask>, i: nat, lib: Lib): seq<WorkflowTask>
    decreases |tasks|
  {
    if tasks == [] then []
    else
      (if Complete(NormalTask(tasks[0], i, lib)) then [NormalTask(tasks[0], i, lib)] else [])
      + NormalTasks(tasks[1..], i + 1, lib)
  }

  function NormalWorkflow(w: Workflow, now: int, lib: Lib): Workflow {
    var tasks := NormalTasks(w.tasks, 0, lib);
    if tasks == [] then NO_WORKFLOW else w.(request := Trim(w.request), tasks := tasks, at := E.Stamped(w.at, now))
  }

  /** normalizeWorkflowSession */
  method NormalizeWorkflowSession(w: Workflow, now: int, lib: Lib) returns (r: Workflow)
    ensures r == NormalWorkflow(w, now, lib)
  {
    hide NormalTask, Trim;
    var normalized: seq<WorkflowTask> := [];
    ghost var rest := NormalTasks(w.tasks, 0, lib);
    assert w.tasks[0..] == w.tasks;
    for i := 0 to |w.tasks|
      invariant NormalTasks(w.tasks, 0, lib) == normalized + rest
      invariant rest == NormalTasks(w.tasks[i..], i, lib)
    {
      DropStep(w.tasks, i);
      rest := NormalTasks(w.tasks[i + 1..], i + 1, lib);
      var task := NormalTask(w.tasks[i], i, lib);
      if !Complete(task) {
        assert [] + rest == rest;
        continue;
      }
      Assoc(normalized, [task], rest);
      normalized := normalized + [task];
    }
    assert w.tasks[|w.tasks|..] == [];
    if normalized == [] {
      return NO_WORKFLOW;
    }
    r := w.(request := Trim(w.request), tasks := normalized, at := E.Stamped(w.at, now));
  }

  /** Task `i` has a skill, an action and a request, and is `t` once trimmed and named. */
  predicate KeptAt(tasks: seq<WorkflowTask>, n: nat, i: nat, t: WorkflowTask, lib: Lib)
    requires i < |tasks|
  {
    && t == NormalTask(tasks[i], n + i, lib)
    && Trim(tasks[i].skill) != "" && lib.action(Trim(tasks[i].skill), tasks[i].action) != ""
       && Trim(tasks[i].request) != ""
  }

  lemma {:induction false} CompleteMeans(t: WorkflowTask, i: nat, lib: Lib)
    ensures Complete(NormalTask(t, i, lib))
            <==> Trim(t.skill) != "" && lib.action(Trim(t.skill), t.action) != "" && Trim(t.request) != ""
  {
    hide Trim;
  }

  lemma {:induction false} KeptIn(tasks: seq<WorkflowTask>, n: nat, i: nat, t: WorkflowTask, lib: Lib)
    requires i < |tasks| && KeptAt(tasks, n, i, t, lib)
    ensures t in NormalTasks(tasks, n, lib)
    decreases |tasks|
  {
    CompleteMeans(tasks[i], n + i, lib);
    if i > 0 {
      assert tasks[1..][i - 1] == tasks[i];
      KeptIn(tasks[1..], n + 1, i - 1, t, lib);
    }
    hide NormalTask, Complete, Trim;
  }

  lemma {:induction false} KeptFrom(tasks: seq<WorkflowTask>, n: nat, t: WorkflowTask, lib: Lib) returns (i: nat)
    requires t in NormalTasks(tasks, n, lib)
    ensures i < |tasks| && KeptAt(tasks, n, i, t, lib)
    decreases |tasks|
  {
    hide NormalTask, Complete, Trim;
    if t in NormalTasks(tasks[1..], n + 1, lib) {
      var j := KeptFrom(tasks[1..], n + 1, t, lib);
      assert tasks[1..][j] == tasks[j + 1];
      i := j + 1;
    } else {
      CompleteMeans(tasks[0], n, lib);
      i := 0;
    }
  }

  /** The tasks kept are those with a skill, an action and a request, each trimmed, named by its place if it has
      no name, and pending if it has no status. */
  lemma {:induction false} TasksExactly(tasks: seq<WorkflowTask>, n: nat, t: WorkflowTask, lib: Lib)
    ensures t in NormalTasks(tasks, n, lib) <==> exists i :: 0 <= i < |tasks| && KeptAt(tasks, n, i, t, lib)
  {
    hide KeptAt, NormalTasks;
    if t in NormalTasks(tasks, n, lib) {
      var i := KeptFrom(tasks, n, t, lib);
    }
    if i :| 0 <= i < |tasks| && KeptAt(tasks, n, i, t, lib) {
      KeptIn(tasks, n, i, t, lib);
    }
  }

  predicate IsNormalTask(t: WorkflowTask, lib: Lib) {
    && Trimmed(t.id) && t.id != "" && Trimmed(t.skill) && Trimmed(t.request) && Trimmed(t.status) && t.status != ""
       && Trimmed(t.error)
    && lib.action(t.skill, t.action) == t.action && IsClean(t.dependsOn, lib.lower) && Complete(t)
  }

  lemma {:induction false} NormalTaskIsNormal(t: WorkflowTask, i: nat, lib: Lib)
    requires lib.Valid() && Complete(NormalTask(t, i, lib))
    ensures IsNormalTask(NormalTask(t, i, lib), lib)
  {
    CleanIdempotent(t.dependsOn, lib.lower);
    TaskNameTrimmed(i);
    assert Trimmed("pending");
    assert lib.action(Trim(t.skill), NormalTask(t, i, lib).action) == NormalTask(t, i, lib).action;
    hide Trim, Trimmed, TaskName, Clean, IsClean, Lib.Valid;
  }

  lemma {:induction false} TaskNameTrimmed(i: nat)
    ensures Trimmed(TaskName(i)) && TaskName(i) != ""
  {
    var d := Digits(i + 1);
    assert IsDigit(d[|d| - 1]);
    assert TaskName(i)[|TaskName(i)| - 1] == d[|d| - 1];
    hide Digits;
  }

  lemma {:induction false} TasksNormal(tasks: seq<WorkflowTask>, i: nat, lib: Lib)
    requires lib.Valid()
    ensures forall t :: t in NormalTasks(tasks, i, lib) ==> IsNormalTask(t, lib)
    decreases |tasks|
  {
    if tasks != [] {
      if Complete(NormalTask(tasks[0], i, lib)) {
        NormalTaskIsNormal(tasks[0], i, lib);
      }
      TasksNormal(tasks[1..], i + 1, lib);
      hide IsNormalTask, NormalTask;
    }
  }

  lemma {:induction false} TasksFixed(tasks: seq<WorkflowTask>, i: nat, lib: Lib)
    requires forall t :: t in tasks ==> IsNormalTask(t, lib)
    ensures NormalTasks(tasks, i, lib) == tasks
    decreases |tasks|
  {
    if tasks != [] {
      CleanIdempotent(tasks[0].dependsOn, lib.lower);
      TasksFixed(tasks[1..], i + 1, lib);
      assert IsNormalTask(tasks[0], lib);
      hide Clean, IsClean;
      assert NormalTask(tasks[0], i, lib) == tasks[0];
      assert tasks == [tasks[0]] + tasks[1..];
    }
  }

  /** Normalising a workflow twice is normalising it once. */
  lemma {:induction false} WorkflowTwice(w: Workflow, now: int, later: int, lib: Lib)
    requires lib.Valid()
    ensures NormalWorkflow(NormalWorkflow(w, now, lib), later, lib) == NormalWorkflow(w, now, lib)
  {
    TasksNormal(w.tasks, 0, lib);
    TasksFixed(NormalTasks(w.tasks, 0, lib), 0, lib);
    assert Trim(Trim(w.request)) == Trim(w.request);
    hide NormalTasks, Trim, IsNormalTask;
    assert NormalTasks([], 0, lib) == [] by { NoTasks(lib); }
  }

  lemma {:induction false} NoTasks(lib: Lib)
    ensures NormalTasks([], 0, lib) == []
  {
  }

  /** hasActiveWorkflowSession */
  predicate WorkflowActive(w: Workflow) {
    exists i :: 0 <= i < |w.tasks| && (w.tasks[i].status == "pending" || w.tasks[i].status == "running")
  }

  /** hasActiveExecutionState */
  predicate ExecutionActive(s: E.ExecutionState) {
    Trim(s.sessionId) != "" && (s.status == E.Planning || s.status == E.RunningPlan || s.status == E.WaitingUser)
  }

  // ---- Contexts, and tasks that hold them ----

  /** What is stored for one user; None for the empty text. */
  datatype Contexts = Contexts(skill: Option<S.SkillSession>, workflow: Option<Workflow>,
      execution: Option<E.ExecutionState>, history: seq<Message>)

  datatype Saved = Saved(kind: string, skill: Option<S.SkillSession>, workflow: Option<Workflow>,
      execution: Option<E.ExecutionState>, history: seq<Message>)

  const NOTHING := Saved("", None, None, None, [])

  predicate Wf(c: Contexts) {
    c.skill.Some? ==> S.Wf(c.skill.value)
  }

  function ExecutionEnv(now: int, lib: Lib): E.Env {
    E.Env(now, lib.lower)
  }

  function NormalSkill(s: Option<S.SkillSession>, now: int, lib: Lib): Option<S.SkillSession> {
    if s == None || lib.skill(s.value, now).name == "" then None else Some(lib.skill(s.value, now))
  }

  function NormalFlow(w: Option<Workflow>, now: int, lib: Lib): Option<Workflow> {
    if w == None || NormalWorkflow(w.value, now, lib).tasks == [] then None else Some(NormalWorkflow(w.value, now, lib))
  }

  function NormalState(s: Option<E.ExecutionState>, now: int, lib: Lib): Option<E.ExecutionState> {
    if s == None || Trim(E.Normal(s.value, ExecutionEnv(now, lib)).sessionId) == "" then None
        else Some(E.Normal(s.value, ExecutionEnv(now, lib)))
  }

  function KindOf(kind: string, t: Saved): string {
    if Trim(kind) != "" then Trim(kind)
    else if t.skill.Some? then "skill_session"
    else if t.workflow.Some? then "workflow_session"
    else if t.execution.Some? then "execution_state"
    else ""
  }

  /** normalizeSuspendedTask */
  function NormalSaved(t: Saved, now: int, lib: Lib): Saved {
    var n := Saved("", NormalSkill(t.skill, now, lib), NormalFlow(t.workflow, now, lib),
        NormalState(t.execution, now, lib), t.history);
    if KindOf(t.kind, n) == "" then NOTHING else n.(kind := KindOf(t.kind, n))
  }

  /** The contexts that buildSuspendedTask takes: any skill session, a workflow or a plan only when active. */
  function Taken(c: Contexts, now: int, lib: Lib): Saved {
    var skill := NormalSkill(c.skill, now, lib);
    var flow := NormalFlow(c.workflow, now, lib);
    var state := NormalState(c.execution, now, lib);
    Saved("", NormalSkill(skill, now, lib),
          if flow.Some? && WorkflowActive(flow.value) then Some(NormalWorkflow(flow.value, now, lib)) else None,
          if state.Some? && ExecutionActive(state.value) then
              Some(E.Normal(state.value, ExecutionEnv(now, lib))) else None,
          LastN(MAX_TURNS, c.history))
  }

  /** buildSuspendedTask */
  function Build(c: Contexts, now: int, lib: Lib): Saved {
    var t := Taken(c, now, lib);
    var kind := if t.workflow.Some? then "workflow_session" else if t.skill.Some? then "skill_session"
                else if t.execution.Some? then "execution_state" else "";
    NormalSaved(t.(kind := kind), now, lib)
  }

  /** restoreSuspendedTask; a plan is stored under its own user, a workflow under this one. */
  function Restored(c: Contexts, saved: Saved, user: int, now: int, lib: Lib): Contexts {
    var t := NormalSaved(saved, now, lib);
    if t.kind == "" then c
    else
      var flow := NormalFlow(t.workflow, now, lib);
      var state := NormalState(t.execution, now, lib);
      Contexts(NormalSkill(t.skill, now, lib),
               if flow.Some? then Some(flow.value.(userId := user, at := Some(now))) else None,
               if state.Some? && state.value.userId == user then state else None,
               if t.history != [] then LastN(MAX_TURNS, t.history) else c.history)
  }

  function Cleared(c: Contexts): Contexts {
    Contexts(None, None, None, c.history)
  }

  predicate Busy(c: Contexts, now: int, lib: Lib) {
    || NormalSkill(c.skill, now, lib).Some?
    || (NormalFlow(c.workflow, now, lib).Some? && WorkflowActive(NormalFlow(c.workflow, now, lib).value))
    || (NormalState(c.execution, now, lib).Some? && ExecutionActive(NormalState(c.execution, now, lib).value))
  }

  function Seconds(t: int): int {
    t / T.SECOND
  }

  /** isResumeFlowReply, for lower-cased trimmed text. */
  const CONTINUE: set<string> :=
    {"\U{7EE7}\U{7EED}", "\U{7EE7}\U{7EED}\U{5427}", "\U{7EE7}\U{7EED}\U{521A}\U{624D}\U{7684}", "\U{6062}\U{590D}",
     "\U{6062}\U{590D}\U{521A}\U{624D}\U{7684}", "resume", "continue", "\U{7EE7}\U{7EED}\U{521B}\U{5EFA}",
     "\U{7EE7}\U{7EED}\U{914D}\U{7F6E}"}

  /** isCancelParentFlowReply, likewise. */
  const CANCEL_ALL: set<string> :=
    {"\U{4E00}\U{5E76}\U{53D6}\U{6D88}", "\U{4E5F}\U{53D6}\U{6D88}", "\U{90FD}\U{53D6}\U{6D88}",
     "\U{5168}\U{90E8}\U{53D6}\U{6D88}",
     "\U{53D6}\U{6D88}\U{7236}\U{4EFB}\U{52A1}", "cancel all", "cancel parent", "drop all"}

  predicate SaysContinue(text: string, lib: Lib) {
    lib.lower(Trim(text)) in CONTINUE
  }

  predicate SaysCancelAll(text: string, lib: Lib) {
    lib.lower(Trim(text)) in CANCEL_ALL
  }

  class Conversation {
    const user: int
    const stack: T.TaskStore<Saved>
    var contexts: Contexts

    constructor (u: int)
      ensures user == u && fresh(stack) && stack.stored == [] && contexts == Contexts(None, None, None, [])
    {
      user := u;
      stack := new T.TaskStore();
      contexts := Contexts(None, None, None, []);
    }

    /** suspendActiveContexts; the task is built at `built` and gets the snapshot id `id`. */
    method SuspendActiveContexts(id: string, built: int, t1: int, t2: int, t3: int, lib: Lib) returns (done: bool)
      modifies this, stack
      ensures var task := Build(old(contexts), Seconds(built), lib);
              && done == (task.kind != "")
              && contexts == (if done then Cleared(old(contexts)) else old(contexts))
              && stack.stored == if done then
                 T.Step(old(stack.stored), T.Push(T.Task(id, T.Stamp(built), task), built, t1, t2, t3))
                 else old(stack.stored)
    {
      hide Build, T.Normal;
      var task := Build(contexts, Seconds(built), lib);
      if task.kind == "" {
        return false;
      }
      stack.PushTaskStack(T.Task(id, T.Stamp(built), task), t1, t2, t3);
      contexts := contexts.(skill := None);
      contexts := contexts.(workflow := None);
      contexts := contexts.(execution := None);
      return true;
    }

    /** restoreSuspendedTask */
    method RestoreSuspendedTask(saved: Saved, now: int, lib: Lib) returns (done: bool)
      modifies this
      ensures done == (NormalSaved(saved, now, lib).kind != "")
      ensures contexts == Restored(old(contexts), saved, user, now, lib)
    {
      hide NormalSkill, NormalFlow, NormalState, KindOf;
      var t := NormalSaved(saved, now, lib);
      if t.kind == "" {
        return false;
      }
      contexts := Cleared(contexts);
      if |t.history| > 0 {
        contexts := contexts.(history := LastN(MAX_TURNS, t.history));
      }
      var state := NormalState(t.execution, now, lib);
      if state.Some? && state.value.userId == user {
        contexts := contexts.(execution := state);
      }
      var flow := NormalFlow(t.workflow, now, lib);
      if flow.Some? {
        contexts := contexts.(workflow := Some(flow.value.(userId := user, at := Some(now))));
      }
      contexts := contexts.(skill := NormalSkill(t.skill, now, lib));
      return true;
    }

    /** tryResumeSuspendedTask */
    method TryResumeSuspendedTask(text: string, now: int, later: int, lib: Lib) returns (done: bool)
      modifies this, stack
      ensures var shown := T.Normal(old(stack.stored), now);
              if Busy(old(contexts), Seconds(now), lib) then !done && contexts == old(contexts)
                  && stack.stored == old(stack.stored)
              else if SaysCancelAll(text, lib) then done && contexts == old(contexts) && stack.stored == []
              else if SaysContinue(text, lib) && shown != [] then
                && contexts == Restored(old(contexts), T.Top(shown).body, user, Seconds(later), lib)
                && stack.stored == T.Step(old(stack.stored), T.Pop(now, later))
                && done == (NormalSaved(T.Top(shown).body, Seconds(later), lib).kind != "")
              else !done && contexts == old(contexts) && stack.stored == old(stack.stored)
    {
      hide Busy, Restored, NormalSaved, SaysContinue, SaysCancelAll;
      var idle := !Busy(contexts, Seconds(now), lib);
      done := false;
      if SaysCancelAll(text, lib) && idle {
        stack.ClearTaskStack();
        return true;
      }
      if !SaysContinue(text, lib) || !idle {
        return;
      }
      var popped := stack.PopTaskStack(now, later);
      if |popped| > 0 {
        done := RestoreSuspendedTask(popped[0].body, Seconds(later), lib);
      }
    }

    /** restoreSuspendedTaskByID: the index is that of the topmost snapshot with the id on the stack as shown
        at `now`; the task is taken from the stack as read again at `t1`. */
    method RestoreSuspendedTaskByID(id: string, now: int, t1: int, t2: int, lib: Lib) returns (done: bool)
      modifies this, stack
      ensures var taken := TakenById(old(stack.stored), Trim(id), now, t1);
              match taken
              case None => !done && contexts == old(contexts) && stack.stored == old(stack.stored)
              case Some(i) =>
                var saved := T.Normal(old(stack.stored), t1)[i].body;
                && done == (NormalSaved(saved, Seconds(t2), lib).kind != "")
                && contexts == Restored(old(contexts), saved, user, Seconds(t2), lib)
                && stack.stored == T.Step(old(stack.stored), T.Remove(i, t1, t2))
    {
      hide Restored, NormalSaved, T.Normal, LastWithId, Trim, T.Step;
      done := false;
      var shown := stack.GetTaskStack(now);
      var found := FindById(shown, Trim(id));
      if found == None {
        return;
      }
      var removed := stack.RemoveAt(found.value, t1, t2);
      if |removed| > 0 {
        done := RestoreSuspendedTask(removed[0].body, Seconds(t2), lib);
      }
    }

    /** tryRestoreAwaitingConfirmationSnapshot, once the reply has been found to be a yes or a no. */
    method TryRestoreAwaitingConfirmation(now: int, later: int, lib: Lib) returns (done: bool)
      modifies this
      ensures var shown := T.Normal(stack.stored, now);
              if |shown| == 1 && AwaitsConfirmation(shown[0].body) then
                && done == (NormalSaved(shown[0].body, Seconds(later), lib).kind != "")
                && contexts == Restored(old(contexts), shown[0].body, user, Seconds(later), lib)
              else !done && contexts == old(contexts)
    {
      hide Restored, NormalSaved, T.Normal, AwaitsConfirmation;
      var shown := stack.GetTaskStack(now);
      if |shown| != 1 || !AwaitsConfirmation(shown[0].body) {
        return false;
      }
      done := RestoreSuspendedTask(shown[0].body, Seconds(later), lib);
    }
  }

  predicate AwaitsConfirmation(t: Saved) {
    && t.kind == "skill_session" && t.skill.Some?
    && (Trim(t.skill.value.phase) == "await_confirmation" || Trim(t.skill.value.phase) == "await_create_confirmation"
        || Trim(t.skill.value.phase) == "await_start_confirmation")
  }

  // ---- Contexts that normalisation leaves alone ----

  ghost predicate SkillFixed(s: S.SkillSession, lib: Lib) {
    S.Wf(s) && s.name != "" && forall now :: lib.skill(s, now) == s
  }

  ghost predicate WorkflowFixed(w: Workflow, lib: Lib) {
    w.tasks != [] && forall now :: NormalWorkflow(w, now, lib) == w
  }

  ghost predicate StateFixed(s: E.ExecutionState, lib: Lib) {
    Trim(s.sessionId) != "" && forall now :: E.Normal(s, ExecutionEnv(now, lib)) == s
  }

  ghost predicate Fixed(c: Contexts, lib: Lib) {
    && (c.skill.Some? ==> SkillFixed(c.skill.value, lib))
    && (c.workflow.Some? ==> WorkflowFixed(c.workflow.value, lib))
    && (c.execution.Some? ==> StateFixed(c.execution.value, lib))
  }

  /** What is saved is left alone by every later normalisation, unless a trader session's auto-start text is
      odd or a plan state is stubborn. */
  lemma {:induction false} SavedIsFixed(s: S.SkillSession, w: Workflow, e: E.ExecutionState, now: int, lib: Lib)
    requires lib.Valid() && S.Wf(s)
    ensures lib.skill(s, now).name != ""
            && (forall fields ::
            S.Rekeyed(Trim(s.name), s.fields, fields) ==> !S.OddAuto(Trim(s.name), fields, s.slots))
            ==> SkillFixed(lib.skill(s, now), lib)
    ensures NormalWorkflow(w, now, lib).tasks != [] ==> WorkflowFixed(NormalWorkflow(w, now, lib), lib)
    ensures Trim(e.sessionId) != "" && !E.Stubborn(e, now) ==> StateFixed(E.Normal(e, ExecutionEnv(now, lib)), lib)
  {
    SkillSavedFixed(s, now, lib);
    forall later
      ensures NormalWorkflow(NormalWorkflow(w, now, lib), later, lib) == NormalWorkflow(w, now, lib)
      ensures !E.Stubborn(e, now)
              ==> E.Normal(E.Normal(e, ExecutionEnv(now, lib)), ExecutionEnv(now, lib).(now := later))
                  == E.Normal(e, ExecutionEnv(now, lib))
    {
      WorkflowTwice(w, now, later, lib);
      E.NormalTwice(e, ExecutionEnv(now, lib), later);
    }
    StateKeepsSession(e, now, lib);
    hide NormalWorkflow, E.Normal, SkillFixed, S.Rekeyed, Trim;
    assert forall later :: ExecutionEnv(now, lib).(now := later) == ExecutionEnv(later, lib);
  }

  lemma {:induction false} StateKeepsSession(e: E.ExecutionState, now: int, lib: Lib)
    ensures E.Normal(e, ExecutionEnv(now, lib)).sessionId == e.sessionId
  {
    hide E.Compact, E.CleanAll, E.NormalReferences, E.NormalHistory, E.NormalWaiting, E.NormalSteps, Trim;
  }

  lemma {:induction false} SkillSavedFixed(s: S.SkillSession, now: int, lib: Lib)
    requires lib.Valid() && S.Wf(s)
    ensures lib.skill(s, now).name != ""
            && (forall fields ::
            S.Rekeyed(Trim(s.name), s.fields, fields) ==> !S.OddAuto(Trim(s.name), fields, s.slots))
            ==> SkillFixed(lib.skill(s, now), lib)
  {
    var env := S.Env(now, lib.draftName);
    var r := lib.skill(s, now);
    assert S.IsNormal(s, env, r);
    var fields :| S.Rekeyed(Trim(s.name), s.fields, fields) && r == S.NormalWith(s, fields, env);
    if !S.OddAuto(Trim(s.name), fields, s.slots) {
      forall later ensures lib.skill(r, later) == r {
        SkillTwice(s, fields, now, later, lib);
      }
    }
    hide S.OddAuto, S.NormalWith, S.Rekeyed, Trim;
  }

  lemma {:induction false} SkillTwice(s: S.SkillSession, fields: map<string, string>, now: int, later: int, lib: Lib)
    requires lib.Valid() && S.Wf(s) && S.Rekeyed(Trim(s.name), s.fields, fields)
             && !S.OddAuto(Trim(s.name), fields, s.slots)
    ensures var r := S.NormalWith(s, fields, S.Env(now, lib.draftName)); lib.skill(r, later) == r
  {
    var env := S.Env(now, lib.draftName);
    var r := S.NormalWith(s, fields, env);
    var env' := S.Env(later, lib.draftName);
    assert env' == env.(now := later);
    assert S.IsNormal(r, env', lib.skill(r, later));
    var again :| S.Rekeyed(Trim(r.name), r.fields, again) && lib.skill(r, later) == S.NormalWith(r, again, env');
    NameTrimmed(s, fields, env);
    S.NormalTwice(s, fields, env, again, later);
    hide S.OddAuto, S.NormalWith, S.Rekeyed, Trim;
  }

  lemma {:induction false} NameTrimmed(s: S.SkillSession, fields: map<string, string>, env: S.Env)
    requires S.Wf(s)
    ensures Trim(S.NormalWith(s, fields, env).name) == S.NormalWith(s, fields, env).name
  {
    var t := S.SkillSession(Trim(s.name), Trim(s.action), Trim(s.phase), E.NormalEntityRef(s.target, env.now),
        fields, s.slots, s.at);
    S.FilledShape(t);
    hide S.Filled, Trim, E.NormalEntityRef;
    assert Trim(Trim(s.name)) == Trim(s.name) && Trim("") == "" by { S.EmptyTrims(); }
  }

  // ---- There and back ----

  /** Some task of the workflow waits or runs. */
  predicate FlowGoesOn(w: Workflow) {
    exists t :: t in w.tasks && t.status in {"pending", "running"}
  }

  /** The plan has a session and is being made, run, or waits for the user. */
  predicate PlanGoesOn(s: E.ExecutionState) {
    Trim(s.sessionId) != "" && s.status in {E.Planning, E.RunningPlan, E.WaitingUser}
  }

  lemma {:induction false} ActiveMeans()
    ensures forall w :: WorkflowActive(w) <==> FlowGoesOn(w)
    ensures forall s :: ExecutionActive(s) <==> PlanGoesOn(s)
  {
    forall w ensures WorkflowActive(w) <==> FlowGoesOn(w) {
      if FlowGoesOn(w) {
        var t :| t in w.tasks && t.status in {"pending", "running"};
        var i :| 0 <= i < |w.tasks| && w.tasks[i] == t;
      }
    }
    hide Trim;
  }

  /** The active contexts among fixed ones, as they come back. */
  function Back(c: Contexts, user: int, now: int, history: seq<Message>): Contexts {
    Contexts(c.skill,
             if c.workflow.Some? && FlowGoesOn(c.workflow.value) then
                 Some(c.workflow.value.(userId := user, at := Some(now))) else None,
             if c.execution.Some? && PlanGoesOn(c.execution.value) && c.execution.value.userId == user then
                 c.execution else None,
             if c.history != [] then LastN(MAX_TURNS, c.history) else history)
  }

  lemma {:induction false} FixedParts(c: Contexts, now: int, lib: Lib)
    requires Fixed(c, lib)
    ensures NormalSkill(c.skill, now, lib) == c.skill && NormalFlow(c.workflow, now, lib) == c.workflow
            && NormalState(c.execution, now, lib) == c.execution
  {
    hide NormalWorkflow, E.Normal, Trim, S.Wf;
  }

  /** The active ones among the contexts. */
  function ActiveOnes(c: Contexts): Contexts {
    Contexts(c.skill,
             if c.workflow.Some? && WorkflowActive(c.workflow.value) then c.workflow else None,
             if c.execution.Some? && ExecutionActive(c.execution.value) then c.execution
                 else None, LastN(MAX_TURNS, c.history))
  }

  lemma {:induction false} TakenIs(c: Contexts, now: int, lib: Lib)
    requires Fixed(c, lib)
    ensures var a := ActiveOnes(c);
            && Taken(c, now, lib) == Saved("", a.skill, a.workflow, a.execution, a.history)
            && Fixed(a, lib)
            && (Busy(c, now, lib) <==> a.skill.Some? || a.workflow.Some? || a.execution.Some?)
  {
    FixedParts(c, now, lib);
    FixedTwice(c, now, lib);
    hide NormalSkill, NormalFlow, NormalState, WorkflowActive, ExecutionActive, NormalWorkflow, E.Normal, Trim, LastN,
        SkillFixed, WorkflowFixed, StateFixed;
  }

  /** Building the task of fixed contexts keeps them as they are, the inactive ones left out. */
  lemma {:induction false} BuildKeeps(c: Contexts, now: int, lib: Lib)
    requires Fixed(c, lib)
    ensures var t := Build(c, now, lib);
            && (t.kind == "" <==> !Busy(c, now, lib))
            && (t.kind != "" ==>
                 && t.skill == c.skill && t.history == LastN(MAX_TURNS, c.history)
                 && t.workflow == (if c.workflow.Some? && WorkflowActive(c.workflow.value) then c.workflow else None)
                 && t.execution == (if c.execution.Some? && ExecutionActive(c.execution.value) then
                    c.execution else None)
                 && Trim(t.kind) == t.kind)
  {
    TakenIs(c, now, lib);
    FixedParts(ActiveOnes(c), now, lib);
    KindWords();
    hide Taken, Busy, Fixed, NormalSkill, NormalFlow, NormalState, WorkflowActive, ExecutionActive, Trim, LastN;
  }

  lemma {:induction false} KindWords()
    ensures forall k :: k in {"", "skill_session", "workflow_session", "execution_state"} ==> Trim(k) == k
  {
    assert Trimmed("skill_session") && Trimmed("workflow_session") && Trimmed("execution_state") && Trimmed("");
    hide Trim;
  }

  lemma {:induction false} FixedTwice(c: Contexts, now: int, lib: Lib)
    requires Fixed(c, lib)
    ensures c.workflow.Some? ==> NormalWorkflow(c.workflow.value, now, lib) == c.workflow.value
    ensures c.execution.Some? ==> E.Normal(c.execution.value, ExecutionEnv(now, lib)) == c.execution.value
  {
    hide NormalWorkflow, E.Normal, Trim;
  }

  /** The kind a task is stored under names what the conversation was about: a workflow while one is active,
      else the skill session, else the plan. */
  lemma {:induction false} BuildKind(c: Contexts, now: int, lib: Lib)
    requires Fixed(c, lib)
    ensures var kind := Build(c, now, lib).kind;
            && (kind == "workflow_session" <==> c.workflow.Some? && FlowGoesOn(c.workflow.value))
            && (kind == "skill_session" <==> c.skill.Some? && !(c.workflow.Some? && FlowGoesOn(c.workflow.value)))
            && (kind == "execution_state"
                <==> && c.execution.Some? && PlanGoesOn(c.execution.value) && c.skill == None
                     && !(c.workflow.Some? && FlowGoesOn(c.workflow.value)))
            && kind in {"", "workflow_session", "skill_session", "execution_state"}
  {
    ActiveMeans();
    hide Taken, Busy, Fixed, NormalSkill, NormalFlow, NormalState, WorkflowActive, ExecutionActive, FlowGoesOn,
        PlanGoesOn, Trim, LastN;
    TakenIs(c, now, lib);
    KindWords();
    KindsApart();
    var t := Taken(c, now, lib);
    assert t.workflow == ActiveOnes(c).workflow && t.skill == c.skill && t.execution == ActiveOnes(c).execution;
    KindSaved(t, now, lib);
  }

  lemma {:induction false} KindSaved(t: Saved, now: int, lib: Lib)
    ensures Trim(t.kind) == t.kind != "" ==> NormalSaved(t, now, lib).kind == t.kind
    ensures t.skill == None && t.workflow == None && t.execution == None && t.kind == ""
            ==> NormalSaved(t, now, lib).kind == ""
  {
    hide NormalSkill, NormalFlow, NormalState, Trim;
    NothingSaved(now, lib);
    assert Trim("") == "" by { KindWords(); }
  }

  lemma {:induction false} NothingSaved(now: int, lib: Lib)
    ensures NormalSkill(None, now, lib) == None && NormalFlow(None, now, lib) == None
            && NormalState(None, now, lib) == None
  {
  }

  /** A task stored without a kind is of the first it holds: a skill session, a workflow, a plan; one that holds
      none of them is nothing. */
  lemma {:induction false} KindGuessed(t: Saved, now: int, lib: Lib)
    requires Trim(t.kind) == ""
    ensures var n := NormalSaved(t, now, lib);
            && (n.kind == "skill_session" <==> NormalSkill(t.skill, now, lib).Some?)
            && (n.kind == "workflow_session" <==>
               NormalSkill(t.skill, now, lib) == None && NormalFlow(t.workflow, now, lib).Some?)
            && (n.kind == "execution_state"
                <==> && NormalSkill(t.skill, now, lib) == None && NormalFlow(t.workflow, now, lib) == None
                     && NormalState(t.execution, now, lib).Some?)
            && (n.kind == "" ==> n == NOTHING)
  {
    KindsApart();
    hide NormalSkill, NormalFlow, NormalState, Trim;
  }

  lemma {:induction false} KindsApart()
    ensures "workflow_session" != "skill_session" && "workflow_session" != "execution_state"
            && "skill_session" != "execution_state"
  {
    assert |"workflow_session"| == 16 && |"skill_session"| == 13 && |"execution_state"| == 15;
  }

  predicate AwaitingPhase(phase: string) {
    phase == "await_confirmation" || phase == "await_create_confirmation" || phase == "await_start_confirmation"
  }

  /** Suspending makes a snapshot that a yes or a no restores exactly when it suspends a skill session that awaits
      one, and no active workflow. */
  lemma {:induction false} SuspendedAwaits(c: Contexts, now: int, lib: Lib)
    requires Fixed(c, lib)
    ensures AwaitsConfirmation(Build(c, now, lib))
            <==> && c.skill.Some? && AwaitingPhase(Trim(c.skill.value.phase))
                 && !(c.workflow.Some? && FlowGoesOn(c.workflow.value))
  {
    BuildKind(c, now, lib);
    BuildKeeps(c, now, lib);
    EmptyKind();
    hide Build, FlowGoesOn, PlanGoesOn, WorkflowActive, ExecutionActive, Trim, Busy, LastN, Fixed;
  }

  lemma {:induction false} EmptyKind()
    ensures "" != "skill_session"
  {
  }

  /** A task built from fixed contexts restores exactly its active contexts. */
  lemma {:induction false} BuildThenRestore(c: Contexts, t0: int, later: Contexts, user: int, now: int, lib: Lib)
    requires Fixed(c, lib) && Build(c, t0, lib).kind != ""
    ensures Restored(later, Build(c, t0, lib), user, now, lib) == Back(c, user, now, later.history)
  {
    ActiveMeans();
    hide NormalSkill, NormalFlow, NormalState, WorkflowActive, ExecutionActive, FlowGoesOn, PlanGoesOn,
        Build, Trim, LastN,
        SkillFixed, WorkflowFixed, StateFixed;
    var t := Build(c, t0, lib);
    BuildKeeps(c, t0, lib);
    var taken := Contexts(t.skill, t.workflow, t.execution, t.history);
    assert Fixed(taken, lib);
    FixedParts(taken, now, lib);
    LastTwice(c.history);
  }

  lemma {:induction false} LastTwice(h: seq<Message>)
    ensures LastN(MAX_TURNS, LastN(MAX_TURNS, h)) == LastN(MAX_TURNS, h)
    ensures LastN(MAX_TURNS, h) == [] <==> h == []
  {
  }

  /** Suspending and then continuing within a day gives back exactly the active contexts, whatever the
      stack held and whatever was said in between, and leaves of the stack what it showed before, without
      its bottom task if it showed five. While suspended there is no context at all; an inactive workflow
      or plan does not come back. */
  lemma {:induction false} SuspendThenContinue(c: Contexts, ops: seq<T.Op<Saved>>, id: string, built: int,
      t1: int, t2: int, t3: int,
                                               between: seq<Message>, now: int, later: int, user: int, lib: Lib)
    requires Fixed(c, lib) && Busy(c, Seconds(built), lib)
    requires T.OrderlyRun(ops) && (ops != [] ==> T.Last(T.Top(ops)) <= built)
    requires T.Stamp(built) <= built <= t1 <= t2 <= t3 <= now <= later && now - T.Stamp(built) <= T.DAY
    ensures var task := T.Task(id, T.Stamp(built), Build(c, Seconds(built), lib));
            var stack := T.Step(T.Stored(ops), T.Push(task, built, t1, t2, t3));
            var below := T.Normal(T.Stored(ops), now);
            var rest := if |below| < T.MAX_DEPTH then below else below[1..];
            && T.Normal(stack, now) == rest + [task]
            && Restored(Cleared(c).(history := between), task.body, user, Seconds(later), lib)
               == Back(c, user, Seconds(later), between)
            && T.Step(stack, T.Pop(now, later)) == T.Normal(rest, later)
            && !Busy(Cleared(c), Seconds(now), lib)
  {
    BuildKeeps(c, Seconds(built), lib);
    BuildThenRestore(c, Seconds(built), Cleared(c).(history := between), user, Seconds(later), lib);
    NothingBusy(c, Seconds(now), lib);
    hide *;
    StackAfterwards(ops, T.Task(id, T.Stamp(built), Build(c, Seconds(built), lib)), built, t1, t2, t3, now, later);
  }

  /** Suspending contexts that await a confirmation while nothing else is shown on the stack, and then, within
      a day, saying yes or no gives back exactly the active ones, whatever was said in between; the snapshot
      stays on the stack. */
  lemma {:induction false} SuspendThenConfirm(c: Contexts, ops: seq<T.Op<Saved>>, id: string, built: int,
      t1: int, t2: int, t3: int,
      between: seq<Message>, now: int, later: int, user: int, lib: Lib)
    requires Fixed(c, lib) && c.skill.Some? && AwaitingPhase(Trim(c.skill.value.phase))
    requires !(c.workflow.Some? && FlowGoesOn(c.workflow.value))
    requires T.OrderlyRun(ops) && (ops != [] ==> T.Last(T.Top(ops)) <= built) && T.Normal(T.Stored(ops), now) == []
    requires T.Stamp(built) <= built <= t1 <= t2 <= t3 <= now <= later && now - T.Stamp(built) <= T.DAY
    ensures var task := T.Task(id, T.Stamp(built), Build(c, Seconds(built), lib));
            var shown := T.Normal(T.Step(T.Stored(ops), T.Push(task, built, t1, t2, t3)), now);
            && shown == [task] && AwaitsConfirmation(task.body)
            && NormalSaved(task.body, Seconds(later), lib).kind != ""
            && Restored(Cleared(c).(history := between), task.body, user, Seconds(later), lib)
               == Back(c, user, Seconds(later), between)
  {
    SuspendedAwaits(c, Seconds(built), lib);
    SkillIsBusy(c, Seconds(built), lib);
    BuildKeeps(c, Seconds(built), lib);
    BuildThenRestore(c, Seconds(built), Cleared(c).(history := between), user, Seconds(later), lib);
    KindSaved(Build(c, Seconds(built), lib), Seconds(later), lib);
    hide *;
    StackAfterwards(ops, T.Task(id, T.Stamp(built), Build(c, Seconds(built), lib)), built, t1, t2, t3, now, later);
    OnlyTask(T.Task(id, T.Stamp(built), Build(c, Seconds(built), lib)));
  }

  lemma {:induction false} OnlyTask(task: T.Task<Saved>)
    ensures [] + [task] == [task] && |[] + [task]| > 0 && T.MAX_DEPTH == 5
  {
  }

  lemma {:induction false} SkillIsBusy(c: Contexts, now: int, lib: Lib)
    requires Fixed(c, lib) && c.skill.Some?
    ensures Busy(c, now, lib)
  {
    FixedParts(c, now, lib);
    hide NormalSkill, NormalFlow, NormalState, WorkflowActive, ExecutionActive;
  }

  lemma {:induction false} StackAfterwards(ops: seq<T.Op<Saved>>, task: T.Task<Saved>, built: int, t1: int, t2: int,
      t3: int, now: int, later: int)
    requires T.OrderlyRun(ops) && (ops != [] ==> T.Last(T.Top(ops)) <= built)
    requires task.at == T.Stamp(built) && built <= t1 <= t2 <= t3 <= now && now - task.at <= T.DAY
    ensures var stack := T.Step(T.Stored(ops), T.Push(task, built, t1, t2, t3));
            var below := T.Normal(T.Stored(ops), now);
            var rest := if |below| < T.MAX_DEPTH then below else below[1..];
            T.Normal(stack, now) == rest + [task] && T.Step(stack, T.Pop(now, later)) == T.Normal(rest, later)
  {
    hide T.Stored, T.OrderlyRun;
    var push := T.Push(task, built, t1, t2, t3);
    T.PushThenPop(ops, push, now);
    hide T.Normal, T.Stamp, T.DAY;
    PopTop(T.Step(T.Stored(ops), push), now, later);
    hide T.Step;
    var below := T.Normal(T.Stored(ops), now);
    var rest := if |below| < T.MAX_DEPTH then below else below[1..];
    assert T.Without(rest + [task], |rest|) == rest;
  }

  lemma {:induction false} NothingBusy(c: Contexts, now: int, lib: Lib)
    ensures !Busy(Cleared(c), now, lib)
  {
  }

  lemma {:induction false} PopTop(stack: seq<T.Task<Saved>>, now: int, later: int)
    ensures var shown := T.Normal(stack, now);
            T.Step(stack, T.Pop(now, later)) == (if shown == [] then stack
                else T.Normal(T.Without(shown, |shown| - 1), later))
    ensures var shown := T.Normal(stack, now);
            shown != [] ==> T.Step(stack, T.Remove(|shown| - 1, now, later)) == T.Step(stack, T.Pop(now, later))
  {
    hide T.Normal;
  }

  /** A snapshot restored by a yes or a no stays on the stack: once the restored contexts are gone, the same
      reply within the day restores it again. */
  lemma {:induction false} AwaitingSnapshotReturns(stack: seq<T.Task<Saved>>, now: int, later: int)
    requires |T.Normal(stack, now)| == 1 && AwaitsConfirmation(T.Normal(stack, now)[0].body)
    requires now <= later && later - T.Normal(stack, now)[0].at <= T.DAY
    ensures |T.Normal(stack, later)| == 1 && AwaitsConfirmation(T.Normal(stack, later)[0].body)
    ensures T.Normal(stack, later)[0] == T.Normal(stack, now)[0]
  {
    OneLater(stack, now, later);
  }

  lemma {:induction false} OneLater(stack: seq<T.Task<Saved>>, now: int, later: int)
    requires |T.Normal(stack, now)| == 1 && now <= later && !T.Expired(T.Normal(stack, now)[0], later)
    ensures T.Normal(stack, later) == T.Normal(stack, now)
  {
    T.LiveLater(stack, now, later);
    var live := T.Live(stack, now);
    assert live == T.Normal(stack, now);
    assert live == [live[0]];
    assert live[1..] == [];
    assert T.Live(live[1..], later) == [];
    assert T.Live(live, later) == live;
  }
}
