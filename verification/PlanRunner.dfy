/** agent/planner_runtime.go: prepareExecutionState and executePlan as the code carries them out, on the
    state they update and the store they write to. */
module PlanRunner {
  import opened Options
  import opened Sequences
  import opened Text
  import opened ExecutionStates
  import opened PlanLoop
  import opened PlanRuns

  class Planner {
    var state: ExecutionState
    var stored: Option<ExecutionState>

    ghost function Now(): World
      reads this
    {
      World(state, stored)
    }

    constructor (s: ExecutionState, kept: Option<ExecutionState>)
      ensures Now() == World(s, kept)
    {
      state, stored := s, kept;
    }

    /** saveExecutionState: the normalised steps are shared with the state in memory. */
    method Save(ok: bool, env: Env)
      modifies this
      ensures Now() == Saved(old(Now()), ok, env)
    {
      var copy := NormalizeExecutionState(state, env);
      StepsOf(state, env);
      state := state.(steps := copy.steps);
      if ok {
        stored := if copy.sessionId == "" then None else Some(copy);
      }
    }

    /** nextPendingStepIndex */
    method NextPendingStepIndex() returns (index: int)
      ensures index == NextPending(state.steps)
    {
      for i := 0 to |state.steps|
        invariant forall k :: 0 <= k < i ==> !IsPending(state.steps[k])
      {
        if state.steps[i].status == NoStatus || state.steps[i].status == Pending {
          return i;
        }
      }
      return -1;
    }

    /** completedSteps */
    method CompletedOf(steps: seq<PlanStep>) returns (out: seq<PlanStep>)
      ensures out == CompletedSteps(steps)
    {
      out := [];
      ghost var rest := CompletedSteps(steps);
      assert steps[0..] == steps;
      for i := 0 to |steps|
        invariant CompletedSteps(steps) == out + rest
        invariant rest == CompletedSteps(steps[i..])
      {
        DropStep(steps, i);
        rest := CompletedSteps(steps[i + 1..]);
        if steps[i].status == Completed {
          Assoc(out, [steps[i]], rest);
          out := out + [steps[i]];
        }
      }
      assert steps[|steps|..] == [];
    }

    /** planner_runtime.go:3003-3016: every step needs a type; a missing title is made from the id. */
    method TitleSteps(batch: seq<PlanStep>) returns (typed: bool, titled: seq<PlanStep>)
      ensures typed <==> !exists k :: 0 <= k < |batch| && batch[k].kind == NoKind
      ensures typed ==> titled == TitledAll(batch)
    {
      titled := batch;
      for k := 0 to |batch|
        invariant |titled| == |batch|
        invariant forall j :: 0 <= j < k ==> batch[j].kind != NoKind && titled[j] == Titled(batch[j])
        invariant forall j :: k <= j < |batch| ==> titled[j] == batch[j]
      {
        if titled[k].kind == NoKind {
          return false, titled;
        }
        if titled[k].title == "" {
          titled := titled[k := titled[k].(title := Spaced(titled[k].id))];
        }
      }
      return true, titled;
    }

    /** planner_runtime.go:2986-3027: ask for the next batch. */
    method Decide(o: Oracle, i: nat) returns (outcome: Outcome, event: Event)
      modifies this
      ensures Iteration(Now(), outcome, event) == DecideStep(old(Now()), o, i)
    {
      hide Normal, NormalSteps, Admitted, Admit, FreshIn, Saved, Trim, TitledAll, CompletedSteps, RepeatsReason, Batch;
      var env := Env(o.decidedAt(i), o.lower);
      var decision := o.decide(i);
      if decision == None {
        return Erred, Refused;
      }
      var known := NormalizeExecutionState(state, env);
      LogStamped(state, env);
      var batch := FilterFreshDuplicates(Batch(decision.value), known.log, known.steps, env.now);
      if |batch| == 0 {
        return Erred, Refused;
      }
      if RepeatsReason(state.steps, batch, o.lower) {
        return Erred, Refused;
      }
      if Trim(decision.value.goal) != "" {
        state := state.(goal := Trim(decision.value.goal));
      }
      var typed, titled := TitleSteps(batch);
      if !typed {
        return Erred, Refused;
      }
      var done := CompletedOf(state.steps);
      state := state.(steps := done + titled, status := RunningPlan, at := Some(env.now));
      Save(o.firstSave(i), env);
      return if o.firstSave(i) then Continue else Erred, Decided(titled);
    }

    /** planner_runtime.go:3030-3163: carry out the pending step `k`. */
    method Perform(o: Oracle, i: nat, k: nat) returns (outcome: Outcome, event: Event)
      requires k < |state.steps|
      modifies this
      ensures Iteration(Now(), outcome, event) == RunStep(old(Now()), o, i, k)
    {
      hide Normal, NormalSteps, Saved, AppendLog, Summarize, NormalWaiting, Trim;
      var env := Env(o.loggedAt(i), o.lower);
      ghost var w := Now();
      state := WithStep(state, k, state.steps[k].(status := Running)).(status := RunningPlan,
      currentStep := state.steps[k].id, at := Some(env.now));
      Save(o.firstSave(i), env);
      assert Now() == Started(w, o, i, k);
      if !o.firstSave(i) {
        return Erred, Halted;
      }
      var step := state.steps[k];
      match step.kind {
        case Tool =>
          if o.redirect(i).Some? {
            if o.clears(i) {
              stored := None;
            }
            return Returned(o.redirect(i).value), Redirected(step);
          }
          var summary := Summarize(o.tool(i));
          outcome, event := Log(o, i, k, step.(status := Completed, output := summary),
                                Observation(step.id, "tool_result", summary, o.tool(i), Some(env.now)));
        case Reason =>
          if o.reason(i) == None {
            state := WithStep(state, k, step.(status := Failed)).(status := Aborted);
            Save(o.lastSave(i), env);
            return Erred, Halted;
          }
          var text := Summarize(o.reason(i).value);
          outcome, event := Log(o, i, k, step.(status := Completed, output := text),
              Observation(step.id, "reasoning", text, "", Some(env.now)));
        case AskUser =>
          var question := Trim(step.instruction);
          if question == "" {
            question := o.question;
          }
          var waiting := NormalWaiting(Some(o.waitingFor(i).(question := Trim(question))), env);
          state := WithStep(state, k, step.(status := Completed, output := question)).(status := WaitingUser,
          waiting := waiting, answer := question, at := Some(env.now));
          Save(o.lastSave(i), env);
          return if o.lastSave(i) then Returned(question) else Erred, Asked(step);
        case Respond =>
          if o.respond(i) == None {
            return Erred, Halted;
          }
          var text := o.respond(i).value;
          state := WithStep(state, k, step.(status := Completed, output := text)).(status := Done, waiting := None,
          answer := text, currentStep := "", at := Some(env.now));
          Save(o.lastSave(i), env);
          return if o.lastSave(i) then Returned(text) else Erred, Responded(step);
        case _ =>
          return Erred, Halted;
      }
    }

    /** appendExecutionLog and the save that ends a tool or reason step. */
    method Log(o: Oracle, i: nat, k: nat, done: PlanStep, obs: Observation) returns (outcome: Outcome, event: Event)
      requires k < |state.steps|
      modifies this
      ensures Iteration(Now(), outcome, event) == Finish(old(Now()), o, i, k, done, obs)
    {
      hide Normal, NormalSteps, Saved;
      var env := Env(o.loggedAt(i), o.lower);
      state := WithStep(state, k, done);
      state := state.(log := state.log + [obs]);
      var logged := NormalizeExecutionState(state, env);
      state := logged.(at := Some(env.now));
      Save(o.lastSave(i), env);
      return if o.lastSave(i) then Continue else Erred, Ran(done, obs);
    }

    /** executePlan */
    method ExecutePlan(o: Oracle) returns (outcome: Outcome, events: seq<Event>)
      modifies this
      ensures Run(Now(), outcome, events) == PlanLoop.ExecutePlan(old(Now()), o)
    {
      hide Iterate, DecideStep, RunStep, RunFor;
      ghost var w := Now();
      outcome, events := Continue, [];
      RunUnfold(w, o, 0);
      for i := 0 to MAX_ITERATIONS
        invariant Run(Now(), outcome, events) == RunFor(w, o, i) && outcome == Continue
      {
        RunUnfold(w, o, i + 1);
        ghost var before := Now();
        var index := NextPendingStepIndex();
        var event;
        if index < 0 {
          outcome, event := Decide(o, i);
        } else {
          outcome, event := Perform(o, i, index);
        }
        IterateIs(before, o, i);
        events := events + [event];
        if outcome != Continue {
          RunStops(w, o, i + 1, MAX_ITERATIONS);
          return;
        }
      }
      outcome := Erred;
    }
  }

  lemma {:induction false} StepsOf(s: ExecutionState, env: Env)
    ensures Normal(s, env).steps == NormalSteps(s.steps) && Normal(s, env).sessionId == s.sessionId
  {
    hide CleanAll, Compact, NormalReferences, NormalHistory, NormalWaiting, NormalSteps, Trim;
  }

  lemma {:induction false} LogStamped(s: ExecutionState, env: Env)
    ensures forall k :: 0 <= k < |Normal(s, env).log| ==> Normal(s, env).log[k].at.Some?
  {
    CleanAllIsClean(s.log + s.observations, env.now);
    CleanAllIsClean(s.notes, env.now);
    CompactIsClean(CleanAll(s.log + s.observations, env.now), CleanAll(s.notes, env.now), env.now);
    hide CleanAll, Compact, NormalReferences, NormalHistory, NormalWaiting, NormalSteps, Trim, Trimmed;
  }

  lemma {:induction false} IterateIs(w: World, o: Oracle, i: nat)
    ensures Iterate(w, o, i) == if NextPending(w.state.steps) < 0 then DecideStep(w, o, i)
            else RunStep(w, o, i, NextPending(w.state.steps))
  {
    hide DecideStep, RunStep;
  }

  /** What prepareExecutionState reads from outside. */
  datatype Turn = Turn(
    reset: bool, text: string, asked: string, sessionId: string, planId: string, userId: int, freshContext: bool,
    remembered: Option<References>, rememberedHistory: seq<ReferenceRecord>, snapshots: seq<Observation>, saveOk: bool)

  function Reply(turn: Turn): string {
    var text := Trim(turn.text);
    if turn.asked != "" then "Answer to previous question [" + turn.asked + "]: " + text else text
  }

  function NewState(turn: Turn): ExecutionState {
    ExecutionState(turn.sessionId, turn.userId, Trim(turn.text), Planning, turn.planId, [], "", None, [], [], [], [],
        None, [], "", "", None)
  }

  /** The state is one that the plan loop leaves behind. */
  predicate Regular(s: ExecutionState) {
    Settled(s) && NormalList(s.steps) && UniqueIds(s.steps)
  }

  /** prepareExecutionState on the state loaded from the store; `ok` is false when the save failed. */
  method PrepareExecutionState(loaded: ExecutionState, turn: Turn, env: Env) returns (ok: bool, planner: Planner)
    requires turn.sessionId != ""
    ensures fresh(planner) && ok == turn.saveOk
    ensures ok ==> planner.stored == Some(Normal(planner.state, env))
    ensures planner.state.status == RunningPlan && NormalList(planner.state.steps)
    ensures var resumes := !turn.reset && loaded.status == WaitingUser && loaded.sessionId != "";
            if resumes then
              && planner.state.sessionId == loaded.sessionId && planner.state.goal == Trim(loaded.goal)
              && planner.state.waiting == None && planner.state.answer == "" && planner.state.lastError == ""
              && planner.state.currentStep == "" && planner.state.snapshots == turn.snapshots
              && planner.state.steps == NormalSteps(CompletedSteps(NormalSteps(loaded.steps)))
              && planner.state.log == Normal(loaded.(log := loaded.log + [ReplyObs(turn, env)]), env).log
              && (Regular(loaded) ==>
                    && Prepared(planner.state) && planner.state.steps == CompletedSteps(loaded.steps)
                    && planner.state.log == LastN(LOG_MAX, loaded.log + CleanObs(ReplyObs(turn, env), env.now)))
            else
              && Prepared(planner.state)
              && planner.state.sessionId == turn.sessionId && planner.state.steps == [] && planner.state.log == []
              && planner.state.userId == turn.userId && planner.state.planId == turn.planId
              && planner.state.goal == Trim(turn.text) && planner.state.answer == ""
              && planner.state.snapshots == turn.snapshots
              && planner.state.references == (if turn.freshContext then None else turn.remembered)
              && planner.state.history == (if turn.freshContext || turn.remembered == None then []
                 else turn.rememberedHistory)
  {
    hide NormalReferences, NormalHistory, NormalWaiting, Trim, IsCleanObs, CleanObs, NormalSteps, Settled,
        UniqueIds, Prepared;
    var state;
    if !turn.reset && loaded.status == WaitingUser && loaded.sessionId != "" {
      var reply := ReplyObs(turn, env);
      var appended := NormalizeExecutionState(loaded.(log := loaded.log + [reply]), env);
      AppendSteps(loaded, reply, env);
      GoalStays(loaded.(log := loaded.log + [reply]), env);
      state := appended.(waiting := None, answer := "", lastError := "", snapshots := turn.snapshots,
                         steps := CompletedSteps(appended.steps), currentStep := "", status := RunningPlan,
                         at := Some(env.now));
      if Regular(loaded) {
        ResumePrepared(loaded, reply, env);
        StillPrepared(AppendLog(loaded, reply, env), state);
        PreparedSteps(state, env);
      }
    } else {
      state := NormalizeExecutionState(NewState(turn), env);
      NewPrepared(turn, env);
      NewHasNothing(turn, env);
      var start := state;
      if !turn.freshContext && turn.remembered.Some? {
        state := state.(references := turn.remembered, history := turn.rememberedHistory);
      }
      state := state.(snapshots := turn.snapshots, status := RunningPlan);
      StillPrepared(start, state);
      PreparedSteps(state, env);
    }
    planner := new Planner(state, None);
    planner.Save(turn.saveOk, env);
    SaveOfAny(state, env);
    assert planner.state == state.(steps := NormalSteps(state.steps));
    if NormalSteps(state.steps) == state.steps {
      assert planner.state == state;
    }
    ok := turn.saveOk;
  }

  lemma {:induction false} GoalStays(s: ExecutionState, env: Env)
    ensures Normal(s, env).goal == Trim(s.goal)
  {
    hide CleanAll, Compact, NormalReferences, NormalHistory, NormalWaiting, NormalSteps, Trim;
  }

  lemma {:induction false} NewHasNothing(turn: Turn, env: Env)
    ensures var s := Normal(NewState(turn), env);
            && s.userId == turn.userId && s.planId == turn.planId && s.goal == Trim(turn.text) && s.answer == ""
            && s.references == None && s.history == []
  {
    assert Trim("") == "" && Trim(Trim(turn.text)) == Trim(turn.text);
    hide CleanAll, Compact, NormalWaiting, NormalSteps, Trim;
  }

  /** A reply that is not blank is logged as the user's, in its own words, after the question it answers. */
  lemma {:induction false} ReplyLogged(turn: Turn, env: Env)
    requires Trim(turn.text) != ""
    ensures var text := Trim(turn.text);
            CleanObs(ReplyObs(turn, env), env.now)
            == [Observation("", "user_reply", if turn.asked == "" then text
                else "Answer to previous question [" + turn.asked + "]: " + text,
                            "", Some(env.now))]
  {
    var (text, head) := (Trim(turn.text), "Answer to previous question [" + turn.asked + "]: ");
    assert Trimmed(head + text) by {
      assert (head + text)[0] == 'A' && (head + text)[|head + text| - 1] == text[|text| - 1];
    }
    assert Trimmed("user_reply") && Trimmed("");
    hide Trim;
  }

  function ReplyObs(turn: Turn, env: Env): Observation {
    Observation("", "user_reply", Reply(turn), "", Some(env.now))
  }

  lemma {:induction false} ResumePrepared(loaded: ExecutionState, reply: Observation, env: Env)
    requires Settled(loaded) && NormalList(loaded.steps) && UniqueIds(loaded.steps)
    ensures var s := AppendLog(loaded, reply, env);
            && Settled(s) && s.steps == loaded.steps && s.sessionId == loaded.sessionId
            && s.log == LastN(LOG_MAX, loaded.log + CleanObs(reply, env.now))
            && NormalList(CompletedSteps(loaded.steps)) && UniqueIds(CompletedSteps(loaded.steps))
            && NextPending(CompletedSteps(loaded.steps)) < 0
  {
    hide AppendLog, CleanObs, Settled, NormalStep;
    AppendOne(loaded, reply, env);
    AppendSteps(loaded, reply, env);
    CompletedUnique(loaded.steps);
    CompletedNormal(loaded.steps);
    CompletedFrom(loaded.steps);
    var done := CompletedSteps(loaded.steps);
    assert forall j :: 0 <= j < |done| ==> done[j] in done;
    assert NormalSteps(done) == done;
    assert forall j :: 0 <= j < |done| ==> !IsPending(done[j]);
  }

  lemma {:induction false} StillPrepared(s: ExecutionState, t: ExecutionState)
    requires Settled(s) && t.log == s.log && t.notes == s.notes && t.observations == s.observations
    requires NormalList(t.steps) && UniqueIds(t.steps) && NextPending(t.steps) < 0 && t.sessionId != ""
    ensures Prepared(t)
  {
    hide NormalList, UniqueIds;
  }

  lemma {:induction false} PreparedSteps(s: ExecutionState, env: Env)
    requires Prepared(s)
    ensures NormalSteps(s.steps) == s.steps && s.sessionId != ""
  {
    hide NormalStep;
  }

  lemma {:induction false} SaveOfAny(s: ExecutionState, env: Env)
    requires s.sessionId != ""
    ensures Saved(World(s, None), true, env).stored == Some(Normal(s.(steps := NormalSteps(s.steps)), env))
    ensures NormalList(NormalSteps(s.steps))
  {
    hide CleanAll, Compact, NormalReferences, NormalHistory, NormalWaiting, NormalSteps, Trim;
    NormalStepsTwice(s.steps);
  }

  lemma {:induction false} NewPrepared(turn: Turn, env: Env)
    requires turn.sessionId != ""
    ensures var s := Normal(NewState(turn), env);
            && Settled(s) && s.steps == [] && s.log == [] && s.sessionId == turn.sessionId
            && NormalList([]) && UniqueIds([]) && NextPending([]) < 0
  {
    hide NormalReferences, NormalWaiting, Trim, IsCleanObs;
    assert [] + NewState(turn).observations == [];
    assert NormalSteps([]) == [];
  }
}
