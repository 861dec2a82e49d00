/** What a run answers, and where the question it puts or the call it makes comes from. */
module PlanAnswers {
  import opened Options
  import opened Sequences
  import opened Text
  import opened ExecutionStates
  import opened PlanLoop
  import opened PlanRuns
  import StringLists

  // ---- What an event says ----

  /** The text of a question: the step's own, or the stock one when it has none. */
  function QuestionOf(s: PlanStep, o: Oracle): string {
    if Trim(s.instruction) != "" then Trim(s.instruction) else o.question
  }

  /** The state a returning run leaves: the answer, and for a question the reason to wait. */
  predicate Tells(s: ExecutionState, answer: string, question: bool) {
    && s.answer == answer && s.status == (if question then WaitingUser else Done)
    && (question && Trim(answer) != "" ==> s.waiting.Some? && s.waiting.value.question == Trim(answer))
    && (!question ==> s.waiting == None && s.currentStep == "")
  }

  /** The event at iteration `i` returns the text, and leaves it in the state and in the store. */
  predicate Answers(e: Event, text: string, after: World, o: Oracle, i: nat) {
    match e
    case Asked(s) =>
      && s.kind == AskUser && text == QuestionOf(s, o)
      && Tells(after.state, text, true) && after.stored.Some? && Tells(after.stored.value, Trim(text), true)
    case Responded(s) =>
      && s.kind == Respond && o.respond(i) == Some(text)
      && Tells(after.state, text, false) && after.stored.Some? && Tells(after.stored.value, Trim(text), false)
    case Redirected(s) => s.kind == Tool && o.redirect(i) == Some(text)
    case _ => false
  }

  /** A performed step logs what the tool or the model gave: whole, and shortened. */
  predicate Records(e: Event, o: Oracle, i: nat) {
    e.Ran? ==>
      && e.obs.at == Some(o.loggedAt(i)) && e.step.output == e.obs.summary && e.step.status == Completed
      && if e.step.kind == Tool then
           e.obs.kind == "tool_result" && e.obs.raw == o.tool(i) && e.obs.summary == Summarize(o.tool(i))
         else
           e.obs.kind == "reasoning" && e.obs.raw == "" && o.reason(i).Some?
               && e.obs.summary == Summarize(o.reason(i).value)
  }

  /** Up to a thousand characters are kept as they are, of more the beginning, less the white space at its end. */
  lemma {:induction false} SummaryIsBeginning(value: string)
    ensures var (v, s) := (Trim(value), Summarize(value));
            if |v| <= OBSERVATION_MAX then s == v
            else exists n :: 0 < n <= OBSERVATION_MAX && s == v[..n] + "..." && Blank(v[n..OBSERVATION_MAX])
  {
    var v := Trim(value);
    if |v| > OBSERVATION_MAX {
      var cut := v[..OBSERVATION_MAX];
      TrimRightCuts(cut);
      TrimRightKeepsHead(cut);
      assert TrimLeft(cut) == cut;
      var n := |TrimRight(cut)|;
      assert cut[..n] == v[..n] && cut[n..] == v[n..OBSERVATION_MAX];
      hide TrimRight, TrimLeft, Blank;
      assert Summarize(value) == v[..n] + "...";
    }
  }

  // ---- One iteration ----

  lemma {:induction false} NormalSays(s: ExecutionState, env: Env)
    ensures var n := Normal(s, env);
            && n.answer == Trim(s.answer) && n.waiting == NormalWaiting(s.waiting, env)
            && (s.status != NoRun ==> n.status == s.status) && n.currentStep == Trim(s.currentStep)
  {
    hide CleanAll, Compact, NormalReferences, NormalHistory, NormalWaiting, NormalSteps, Trim;
  }

  lemma {:induction false} WaitingSays(w: Waiting, question: string, env: Env)
    requires Trim(question) != ""
    ensures var n := NormalWaiting(Some(w.(question := Trim(question))), env);
            && n.Some? && n.value.question == Trim(question)
            && NormalWaiting(n, env).Some? && NormalWaiting(n, env).value.question == Trim(question)
  {
    hide Trim, StringLists.Clean;
    assert Trim(Trim(question)) == Trim(question);
  }

  /** What saving a state that ends a run leaves. */
  lemma {:induction false} SavedTells(w: World, answer: string, question: bool, w0: Waiting, env: Env)
    requires w.state.sessionId != "" && w.state.answer == answer
    requires if question then
               w.state.status == WaitingUser
                   && w.state.waiting == NormalWaiting(Some(w0.(question := Trim(answer))), env)
             else w.state.status == Done && w.state.waiting == None && w.state.currentStep == ""
    ensures var after := Saved(w, true, env);
            && Tells(after.state, answer, question)
            && after.stored.Some? && Tells(after.stored.value, Trim(answer), question)
  {
    hide Normal, NormalSteps, NormalWaiting, Trim;
    NormalSays(w.state, env);
    EmptyTrim();
    NoWaiting(env);
    if Trim(answer) != "" {
      WaitingSays(w0, answer, env);
    }
    assert Trim(Trim(answer)) == Trim(answer);
  }

  lemma {:induction false} NoWaiting(env: Env)
    ensures NormalWaiting(None, env) == None
  {
  }

  lemma {:induction false} AskAnswers(w: World, o: Oracle, i: nat, k: nat)
    requires Sound(w.state) && w.state.sessionId != "" && k < |w.state.steps| && w.state.steps[k].kind == AskUser
    ensures var it := RunStep(w, o, i, k);
            it.outcome.Returned? ==> Answers(it.event, it.outcome.answer, it.world, o, i)
  {
    hide NormalWaiting, Trim, Started, Saved, Settled, NormalList, Tells;
    StartEffect(w, o, i, k);
    var w1 := Started(w, o, i, k);
    var env := Env(o.loggedAt(i), o.lower);
    var step := w1.state.steps[k];
    if o.firstSave(i) && o.lastSave(i) {
      var text := QuestionOf(step, o);
      var waiting := NormalWaiting(Some(o.waitingFor(i).(question := Trim(text))), env);
      var asked := WithStep(w1.state, k, step.(status := Completed, output := text)).(status := WaitingUser,
          waiting := waiting, answer := text, at := Some(env.now));
      SavedTells(World(asked, w1.stored), text, true, o.waitingFor(i), env);
    }
  }

  lemma {:induction false} RespondAnswers(w: World, o: Oracle, i: nat, k: nat)
    requires Sound(w.state) && w.state.sessionId != "" && k < |w.state.steps| && w.state.steps[k].kind == Respond
    ensures var it := RunStep(w, o, i, k);
            it.outcome.Returned? ==> Answers(it.event, it.outcome.answer, it.world, o, i)
  {
    hide NormalWaiting, Trim, Started, Saved, Settled, NormalList, Tells;
    StartEffect(w, o, i, k);
    var w1 := Started(w, o, i, k);
    var env := Env(o.loggedAt(i), o.lower);
    var step := w1.state.steps[k];
    if o.firstSave(i) && o.lastSave(i) && o.respond(i).Some? {
      var text := o.respond(i).value;
      var done := WithStep(w1.state, k, step.(status := Completed, output := text)).(status := Done, waiting := None,
          answer := text, currentStep := "", at := Some(env.now));
      SavedTells(World(done, w1.stored), text, false, o.waitingFor(i), env);
    }
  }

  /** The step an event is about. */
  function StepOf(e: Event): Option<PlanStep> {
    match e
    case Ran(s, _) => Some(s)
    case Asked(s) => Some(s)
    case Responded(s) => Some(s)
    case Redirected(s) => Some(s)
    case _ => None
  }

  predicate Same(a: PlanStep, b: PlanStep) {
    a.kind == b.kind && a.args == b.args && a.tool == b.tool && a.instruction == b.instruction
  }

  lemma {:induction false} StepAnswers(w: World, o: Oracle, i: nat, k: nat)
    requires Sound(w.state) && w.state.sessionId != "" && k < |w.state.steps|
    ensures var it := RunStep(w, o, i, k);
            && (it.outcome.Returned? ==> Answers(it.event, it.outcome.answer, it.world, o, i))
            && Records(it.event, o, i) && !it.event.Decided?
            && (StepOf(it.event).Some? ==> Same(StepOf(it.event).value, w.state.steps[k]))
  {
    hide NormalWaiting, Trim, Started, Saved, Settled, NormalList, Tells, Summarize, Finish;
    StartEffect(w, o, i, k);
    FinishShape(w, o, i, k);
    FinishGoesOn(w, o, i, k);
    var kind := w.state.steps[k].kind;
    if kind == AskUser {
      AskAnswers(w, o, i, k);
    } else if kind == Respond {
      RespondAnswers(w, o, i, k);
    }
    hide Answers;
    if kind == Tool {
      hide NormalWaiting;
      RedirectAnswers(w, o, i, k);
    }
  }

  lemma {:induction false} FinishGoesOn(w: World, o: Oracle, i: nat, k: nat)
    requires k < |w.state.steps|
    ensures forall done, obs :: !Finish(Started(w, o, i, k), o, i, k, done, obs).outcome.Returned?
  {
    hide AppendLog, Started, Saved;
  }

  lemma {:induction false} RedirectAnswers(w: World, o: Oracle, i: nat, k: nat)
    requires Sound(w.state) && k < |w.state.steps| && w.state.steps[k].kind == Tool
    ensures var it := RunStep(w, o, i, k);
            it.outcome.Returned? ==> Answers(it.event, it.outcome.answer, it.world, o, i)
  {
    hide Started, Settled, NormalList, Summarize, Finish;
    StartEffect(w, o, i, k);
    FinishGoesOn(w, o, i, k);
  }

  // ---- Whole runs ----

  /** The steps of a decision as the model gave them. */
  function Given(d: Decision): seq<PlanStep> {
    if d.steps == [] && d.single.Some? then [d.single.value] else d.steps
  }

  /** The step is one the model gave, in trimmed form. */
  predicate Gave(s: PlanStep, given: seq<PlanStep>) {
    exists b :: b in given && s.kind == b.kind && s.args == b.args && s.tool == Trim(b.tool)
        && s.instruction == Trim(b.instruction)
  }

  /** The step was there at the start, or one of these events is the decision that proposed it. */
  predicate Proposed(s: PlanStep, start: seq<PlanStep>, events: seq<Event>, o: Oracle) {
    || (exists b :: b in start && Same(s, b))
    || exists j :: 0 <= j < |events| && events[j].Decided? && o.decide(j).Some? && Gave(s, Given(o.decide(j).value))
  }

  predicate AllProposed(steps: seq<PlanStep>, start: seq<PlanStep>, events: seq<Event>, o: Oracle) {
    forall s :: s in steps ==> Proposed(s, start, events, o)
  }

  lemma {:induction false} ProposedMore(s: PlanStep, t: PlanStep, start: seq<PlanStep>, events: seq<Event>,
      e: Event, o: Oracle)
    requires Proposed(s, start, events, o) && Same(t, s)
    ensures Proposed(t, start, events + [e], o)
  {
    if b :| b in start && Same(s, b) {
      assert Same(t, b);
    } else {
      var j :| 0 <= j < |events| && events[j].Decided? && o.decide(j).Some? && Gave(s, Given(o.decide(j).value));
      assert (events + [e])[j] == events[j];
      hide Trim;
      assert Gave(t, Given(o.decide(j).value));
    }
  }

  lemma {:induction false} BatchGave(d: Decision, log: seq<Observation>, known: seq<PlanStep>, now: int,
      s: PlanStep, t: PlanStep)
    requires s in Admitted(Batch(d), log, known, now) && SameCall(t, s)
    ensures Gave(t, Given(d))
  {
    hide Admitted, Trim;
    AdmittedFresh(Batch(d), log, known, now);
    var k :| 0 <= k < |Admitted(Batch(d), log, known, now)| && Admitted(Batch(d), log, known, now)[k] == s;
    assert s in Batch(d);
    var j :| 0 <= j < |Batch(d)| && Batch(d)[j] == s;
    assert Batch(d)[j] == NormalStep(Given(d)[j], j);
    assert Given(d)[j] in Given(d);
  }

  lemma {:induction false} DecisionProposed(w: World, o: Oracle, n: nat, start: seq<PlanStep>, events: seq<Event>)
    requires Sound(w.state) && AllProposed(w.state.steps, start, events, o) && |events| == n
    ensures var it := DecideStep(w, o, n); AllProposed(it.world.state.steps, start, events + [it.event], o)
  {
    hide DecideStep, Settled, NormalList, Admitted, Proposed, Batch, Gave;
    DecideEffect(w, o, n);
    var it := DecideStep(w, o, n);
    var (all, after) := (events + [it.event], it.world.state.steps);
    forall s | s in after ensures Proposed(s, start, all, o) {
      if it.event.Decided? {
        var d := o.decide(n).value;
        var batch := Admitted(Batch(d), w.state.log, w.state.steps, o.decidedAt(n));
        OldOrNew(w.state, it.world.state, batch, s);
        if s in w.state.steps {
          ProposedMore(s, s, start, events, it.event, o);
        } else {
          var b :| b in batch && SameCall(s, b);
          BatchGave(d, w.state.log, w.state.steps, o.decidedAt(n), b, s);
          NewlyProposed(s, start, all, n, o);
        }
      } else {
        ProposedMore(s, s, start, events, it.event, o);
      }
    }
  }

  lemma {:induction false} NewlyProposed(s: PlanStep, start: seq<PlanStep>, events: seq<Event>, j: nat, o: Oracle)
    requires j < |events| && events[j].Decided? && o.decide(j).Some? && Gave(s, Given(o.decide(j).value))
    ensures Proposed(s, start, events, o)
  {
    hide Gave;
  }

  lemma {:induction false} OldOrNew(before: ExecutionState, after: ExecutionState, batch: seq<PlanStep>, s: PlanStep)
    requires Extended(before, after, batch) && s in after.steps
    ensures s in before.steps || exists b :: b in batch && SameCall(s, b)
  {
    hide Settled, NormalList, SameCall;
    var kept := CompletedSteps(before.steps);
    CompletedFrom(before.steps);
    var j :| 0 <= j < |after.steps| && after.steps[j] == s;
    if j < |kept| {
      assert s == after.steps[..|kept|][j] == kept[j];
    } else {
      assert s == after.steps[|kept|..][j - |kept|];
      assert SameCall(s, batch[j - |kept|]);
    }
  }

  lemma {:induction false} StepProposed(w: World, o: Oracle, n: nat, k: nat, start: seq<PlanStep>, events: seq<Event>)
    requires Sound(w.state) && AllProposed(w.state.steps, start, events, o) && k < |w.state.steps|
    ensures var it := RunStep(w, o, n, k); AllProposed(it.world.state.steps, start, events + [it.event], o)
  {
    hide RunStep, Settled, NormalList, Proposed;
    var it := RunStep(w, o, n, k);
    RunTouchesOne(w, o, n, k);
    var (all, after) := (events + [it.event], it.world.state.steps);
    forall s | s in after ensures Proposed(s, start, all, o) {
      var j :| 0 <= j < |after| && after[j] == s;
      assert w.state.steps[j] in w.state.steps;
      assert Same(s, w.state.steps[j]);
      ProposedMore(w.state.steps[j], s, start, events, it.event, o);
    }
  }

  lemma {:induction false} RunProposed(w: World, o: Oracle, n: nat)
    requires Sound(w.state)
    ensures var r := RunFor(w, o, n);
            && Sound(r.world.state) && r.world.state.sessionId == w.state.sessionId
            && AllProposed(r.world.state.steps, w.state.steps, r.events, o)
  {
    hide Iterate, Sound, Proposed, RunFor;
    RunUnfold(w, o, n);
    CompletedStepsStay(w, o, n, n);
    if n == 0 {
      forall s | s in w.state.steps ensures Proposed(s, w.state.steps, [], o) {
        AtStart(s, w.state.steps, o);
      }
    } else {
      RunProposed(w, o, n - 1);
      RunLength(w, o, n - 1);
      var r := RunFor(w, o, n - 1);
      if r.outcome == Continue {
        IterateProposed(r.world, o, n - 1, w.state.steps, r.events);
      }
    }
  }

  lemma {:induction false} AtStart(s: PlanStep, start: seq<PlanStep>, o: Oracle)
    requires s in start
    ensures Proposed(s, start, [], o)
  {
    assert Same(s, s);
  }

  lemma {:induction false} IterateProposed(w: World, o: Oracle, n: nat, start: seq<PlanStep>, events: seq<Event>)
    requires Sound(w.state) && AllProposed(w.state.steps, start, events, o) && |events| == n
    ensures var it := Iterate(w, o, n); AllProposed(it.world.state.steps, start, events + [it.event], o)
  {
    hide DecideStep, RunStep, Sound, AllProposed;
    var k := NextPending(w.state.steps);
    if k < 0 {
      DecisionProposed(w, o, n, start, events);
    } else {
      StepProposed(w, o, n, k, start, events);
    }
  }

  /** Event `i` of a run is about a proposed step, and records what was given. */
  predicate Faithful(events: seq<Event>, i: nat, start: seq<PlanStep>, o: Oracle)
    requires i < |events|
  {
    && Records(events[i], o, i)
    && (StepOf(events[i]).Some? ==> Proposed(StepOf(events[i]).value, start, events[..i], o))
  }

  lemma {:induction false} IterateFaithful(w: World, o: Oracle, n: nat, start: seq<PlanStep>, events: seq<Event>)
    requires Sound(w.state) && w.state.sessionId != "" && AllProposed(w.state.steps, start, events, o) && |events| == n
    ensures var it := Iterate(w, o, n);
            && Faithful(events + [it.event], n, start, o)
            && (it.outcome.Returned? ==> Answers(it.event, it.outcome.answer, it.world, o, n))
  {
    hide DecideStep, RunStep, Sound, Proposed, Records, Answers;
    var it := Iterate(w, o, n);
    assert (events + [it.event])[..n] == events;
    var k := NextPending(w.state.steps);
    if k < 0 {
      DecideNeverReturns(w, o, n);
      DecideRecords(w, o, n);
    } else {
      StepAnswers(w, o, n, k);
      if StepOf(it.event).Some? {
        assert w.state.steps[k] in w.state.steps;
        SameProposed(w.state.steps[k], StepOf(it.event).value, start, events, o);
      }
    }
  }

  lemma {:induction false} SameProposed(s: PlanStep, t: PlanStep, start: seq<PlanStep>, events: seq<Event>, o: Oracle)
    requires Proposed(s, start, events, o) && Same(t, s)
    ensures Proposed(t, start, events, o)
  {
    if b :| b in start && Same(s, b) {
      assert Same(t, b);
    } else {
      var j :| 0 <= j < |events| && events[j].Decided? && o.decide(j).Some? && Gave(s, Given(o.decide(j).value));
      hide Trim;
      assert Gave(t, Given(o.decide(j).value));
    }
  }

  lemma {:induction false} DecideRecords(w: World, o: Oracle, n: nat)
    ensures var e := DecideStep(w, o, n).event; Records(e, o, n) && StepOf(e) == None
  {
    hide Normal, Admitted, RepeatsReason, Trim, CompletedSteps, Saved;
  }

  /** In every run each step that is performed, asked about, answered from or redirected was there at the start
      or was given by the model in an earlier decision: its kind, tool, arguments and instruction are those,
      trimmed. What is logged for it is what the tool or the model gave. */
  lemma {:induction false} RunFaithful(w: World, o: Oracle, n: nat, i: nat)
    requires Sound(w.state) && w.state.sessionId != "" && i < |RunFor(w, o, n).events|
    ensures Faithful(RunFor(w, o, n).events, i, w.state.steps, o)
  {
    hide Iterate, Sound, Faithful, RunFor, AllProposed;
    RunUnfold(w, o, n);
    if n > 0 {
      var r := RunFor(w, o, n - 1);
      if i < |r.events| {
        RunFaithful(w, o, n - 1, i);
        if r.outcome == Continue {
          FaithfulLonger(r.events, [Iterate(r.world, o, n - 1).event], i, w.state.steps, o);
        }
      } else {
        RunProposed(w, o, n - 1);
        RunLength(w, o, n - 1);
        IterateFaithful(r.world, o, n - 1, w.state.steps, r.events);
      }
    }
  }

  lemma {:induction false} FaithfulLonger(events: seq<Event>, more: seq<Event>, i: nat, start: seq<PlanStep>, o: Oracle)
    requires i < |events| && Faithful(events, i, start, o)
    ensures Faithful(events + more, i, start, o)
  {
    hide Records, Proposed;
    assert (events + more)[..i] == events[..i];
  }

  lemma {:induction false} ReturnAnswers(w: World, o: Oracle, n: nat)
    requires Sound(w.state) && w.state.sessionId != ""
    ensures var r := RunFor(w, o, n);
            var last := |r.events| - 1;
            r.outcome.Returned? ==> last >= 0 && Answers(r.events[last], r.outcome.answer, r.world, o, last)
  {
    hide Iterate, Sound, Answers, RunFor, AllProposed, Faithful;
    RunUnfold(w, o, n);
    if n > 0 {
      ReturnAnswers(w, o, n - 1);
      RunProposed(w, o, n - 1);
      RunLength(w, o, n - 1);
      var r := RunFor(w, o, n - 1);
      if r.outcome == Continue {
        IterateFaithful(r.world, o, n - 1, w.state.steps, r.events);
      }
    }
  }

  /** A run that returns ended with a question, a response or a redirect, and returns that: the instruction of
      the asking step, trimmed, or the stock question when it has none; the text the model responded; the text
      of the redirect. The first two are also the answer in the state and in the store, and the question is
      what the state then waits for an answer to. The step it is about was there at the start or was given by
      the model in a decision of this run. */
  lemma {:induction false} ReturnsWhatWasGiven(w: World, o: Oracle)
    requires Sound(w.state) && w.state.sessionId != ""
    ensures var r := ExecutePlan(w, o);
            var last := |r.events| - 1;
            r.outcome.Returned? ==>
              && last >= 0 && Answers(r.events[last], r.outcome.answer, r.world, o, last)
              && StepOf(r.events[last]).Some?
              && Proposed(StepOf(r.events[last]).value, w.state.steps, r.events[..last], o)
  {
    hide Sound, Answers, RunFor, Proposed;
    var r := ExecutePlan(w, o);
    ReturnAnswers(w, o, MAX_ITERATIONS);
    if r.outcome.Returned? {
      RunFaithful(w, o, MAX_ITERATIONS, |r.events| - 1);
      AnswersAbout(r.events[|r.events| - 1], r.outcome.answer, r.world, o, |r.events| - 1);
    }
  }

  lemma {:induction false} AnswersAbout(e: Event, text: string, after: World, o: Oracle, i: nat)
    requires Answers(e, text, after, o, i)
    ensures StepOf(e).Some?
  {
  }

  // ---- When a run fails ----

  /** Iteration `n` cannot be carried out: the model decides nothing that is new and well formed, the store
      refuses a write, the model gives no text, or nobody knows the kind of step. */
  predicate Fails(w: World, o: Oracle, n: nat) {
    var k := NextPending(w.state.steps);
    || !o.firstSave(n)
    || if k < 0 then !Decides(w, o, n)
       else
         match w.state.steps[k].kind
         case Tool => o.redirect(n) == None && !o.lastSave(n)
         case Reason => o.reason(n) == None || !o.lastSave(n)
         case AskUser => !o.lastSave(n)
         case Respond => o.respond(n) == None || !o.lastSave(n)
         case _ => true
  }

  /** The decision has a batch that is new, is no repeated reasoning and names the kind of every step. */
  predicate Decides(w: World, o: Oracle, n: nat) {
    && o.decide(n).Some?
    && var batch := Admitted(Batch(o.decide(n).value), w.state.log, w.state.steps, o.decidedAt(n));
    && batch != [] && !RepeatsReason(w.state.steps, batch, o.lower)
    && forall k :: 0 <= k < |batch| ==> batch[k].kind != NoKind
  }

  lemma {:induction false} DecisionFails(w: World, o: Oracle, n: nat)
    requires Sound(w.state)
    ensures var it := DecideStep(w, o, n);
            && (it.outcome == Erred <==> !Decides(w, o, n) || !o.firstSave(n))
            && (it.outcome == Erred || it.outcome == Continue)
  {
    hide Normal, NormalList, Settled, Admitted, RepeatsReason, Trim, CompletedSteps, Saved;
    SettledNormal(w.state, Env(o.decidedAt(n), o.lower));
    NormalListFixed(w.state.steps);
  }

  lemma {:induction false} StepFails(w: World, o: Oracle, n: nat, k: nat)
    requires Sound(w.state) && k < |w.state.steps| && k == NextPending(w.state.steps)
    ensures RunStep(w, o, n, k).outcome == Erred <==> Fails(w, o, n)
  {
    hide NormalWaiting, Trim, Started, Saved, Settled, NormalList, Summarize, Finish, Decides;
    StartEffect(w, o, n, k);
    FinishSaves(w, o, n, k);
  }

  lemma {:induction false} FinishSaves(w: World, o: Oracle, n: nat, k: nat)
    requires k < |w.state.steps|
    ensures forall done, obs ::
              Finish(Started(w, o, n, k), o, n, k, done, obs).outcome == if o.lastSave(n) then Continue else Erred
  {
    hide AppendLog, Started, Saved;
  }

  lemma {:induction false} IterateFails(w: World, o: Oracle, n: nat)
    requires Sound(w.state)
    ensures Iterate(w, o, n).outcome == Erred <==> Fails(w, o, n)
  {
    hide DecideStep, RunStep, Sound, Decides;
    if NextPending(w.state.steps) < 0 {
      DecisionFails(w, o, n);
    } else {
      StepFails(w, o, n, NextPending(w.state.steps));
    }
  }

  /** A run fails exactly when one of its iterations does or all twelve are used up. */
  lemma {:induction false} RunFails(w: World, o: Oracle)
    requires Sound(w.state)
    ensures ExecutePlan(w, o).outcome == Erred
            <==> || RunFor(w, o, 12).outcome == Continue
                 || exists n: nat :: n < 12 && RunFor(w, o, n).outcome == Continue && Fails(RunFor(w, o, n).world, o, n)
  {
    hide Sound, RunFor, Fails;
    FailsWithin(w, o, 12);
  }

  lemma {:induction false} FailsWithin(w: World, o: Oracle, m: nat)
    requires Sound(w.state)
    ensures RunFor(w, o, m).outcome == Erred
            <==> exists n: nat :: n < m && RunFor(w, o, n).outcome == Continue && Fails(RunFor(w, o, n).world, o, n)
  {
    hide Iterate, Sound, RunFor, Fails;
    RunUnfold(w, o, m);
    if m > 0 {
      var r := RunFor(w, o, m - 1);
      FailsWithin(w, o, m - 1);
      CompletedStepsStay(w, o, m - 1, m - 1);
      IterateFails(r.world, o, m - 1);
      GoesOnBefore(w, o, m);
    }
  }

  lemma {:induction false} GoesOnBefore(w: World, o: Oracle, m: nat)
    ensures RunFor(w, o, m).outcome == Continue ==> forall n :: 0 <= n < m ==> RunFor(w, o, n).outcome == Continue
    ensures forall n :: 0 <= n < m && RunFor(w, o, n).outcome != Continue ==> RunFor(w, o, m) == RunFor(w, o, n)
  {
    hide Iterate, RunFor;
    forall n | 0 <= n < m && RunFor(w, o, n).outcome != Continue ensures RunFor(w, o, m) == RunFor(w, o, n) {
      RunStops(w, o, n, m);
    }
  }

  /** The batch of a decision is announced under titles: the step's own, or its id in words. */
  lemma {:induction false} DecidedTitles(w: World, o: Oracle, n: nat)
    requires Sound(w.state) && DecideStep(w, o, n).event.Decided?
    ensures o.decide(n).Some?
    ensures var batch := Admitted(Batch(o.decide(n).value), w.state.log, w.state.steps, o.decidedAt(n));
            var said := DecideStep(w, o, n).event.batch;
            && |said| == |batch|
            && forall k :: 0 <= k < |batch| ==>
                 var (b, s) := (batch[k], said[k]);
                 if b.title != "" then s == b
                 else && s == b.(title := s.title) && |s.title| == |b.id|
                      && forall i ::
                         0 <= i < |b.id|
                         ==> (b.id[i] == '_' ==> s.title[i] == ' ') && (b.id[i] != '_' ==> s.title[i] == b.id[i])
  {
    hide Normal, NormalList, Settled, Admitted, RepeatsReason, Trim, CompletedSteps, Saved;
    SettledNormal(w.state, Env(o.decidedAt(n), o.lower));
    NormalListFixed(w.state.steps);
  }

  // ---- What counts as the same call, and as the same thought ----

  /** Calls of one tool with the same arguments have one signature, and no others do, unless a tool's name has a
      bar in it. */
  lemma {:induction false} SignatureTells(a: PlanStep, b: PlanStep)
    ensures Trim(a.tool) == Trim(b.tool) && a.args == b.args ==> Signature(a) == Signature(b)
    ensures '|' !in Trim(a.tool) && '|' !in Trim(b.tool) && Signature(a) == Signature(b)
            ==> Trim(a.tool) == Trim(b.tool) && a.args == b.args
  {
    var (s, t, n, m) := (Signature(a), Signature(b), |Trim(a.tool)|, |Trim(b.tool)|);
    hide Trim;
    assert s == Trim(a.tool) + "|" + a.args && t == Trim(b.tool) + "|" + b.args;
    assert s[..n] == Trim(a.tool) && s[n] == '|' && s[n + 1..] == a.args;
    assert t[..m] == Trim(b.tool) && t[m] == '|' && t[m + 1..] == b.args;
    if '|' !in Trim(a.tool) && '|' !in Trim(b.tool) {
      assert n < m ==> t[n] == Trim(b.tool)[n] && s[n] != t[n];
      assert m < n ==> s[m] == Trim(a.tool)[m] && s[m] != t[m];
    }
  }

  /** Step `j` is the last completed one. */
  predicate LastDone(steps: seq<PlanStep>, j: nat)
    requires j < |steps|
  {
    steps[j].status == Completed && forall i :: j < i < |steps| ==> steps[i].status != Completed
  }

  lemma {:induction false} LastOfCompleted(steps: seq<PlanStep>, j: nat)
    requires j < |steps| && LastDone(steps, j)
    ensures var done := CompletedSteps(steps); done != [] && done[|done| - 1] == steps[j]
  {
    CompletedConcat(steps[..j + 1], steps[j + 1..]);
    CompletedConcat(steps[..j], [steps[j]]);
    assert steps[..j + 1] == steps[..j] + [steps[j]] && steps == steps[..j + 1] + steps[j + 1..];
    NoneCompleted(steps[j + 1..]);
    assert CompletedSteps([steps[j]]) == [steps[j]] by { assert [steps[j]][1..] == []; }
    hide CompletedSteps;
  }

  lemma {:induction false} NoneCompleted(steps: seq<PlanStep>)
    requires forall i :: 0 <= i < |steps| ==> steps[i].status != Completed
    ensures CompletedSteps(steps) == []
  {
    if steps != [] {
      NoneCompleted(steps[1..]);
    }
  }

  /** A batch repeats a thought when the last step completed was reasoning and every step of the batch is the same
      reasoning: same tool, title and instruction, in lower case and trimmed as a whole. */
  lemma {:induction false} RepeatsLastThought(steps: seq<PlanStep>, j: nat, batch: seq<PlanStep>,
      lower: string -> string)
    requires j < |steps| && LastDone(steps, j)
    ensures RepeatsReason(steps, batch, lower)
            <==> && batch != [] && steps[j].kind == Reason
                 && forall b :: b in batch ==>
                      && b.kind == Reason
                      && lower(Trim("reason|" + b.tool + "|" + b.title + "|" + b.instruction))
                         == lower(Trim("reason|" + steps[j].tool + "|" + steps[j].title + "|" + steps[j].instruction))
  {
    LastOfCompleted(steps, j);
    hide CompletedSteps, Trim;
    forall s: PlanStep | s.kind == Reason
      ensures SemanticKey(s, lower) == lower(Trim("reason|" + s.tool + "|" + s.title + "|" + s.instruction))
    {
      assert "reason" + "|" == "reason|";
    }
    hide SemanticKey;
  }

  lemma {:induction false} NothingToRepeat(steps: seq<PlanStep>, batch: seq<PlanStep>, lower: string -> string)
    requires forall i :: 0 <= i < |steps| ==> steps[i].status != Completed
    ensures !RepeatsReason(steps, batch, lower)
  {
    NoneCompleted(steps);
  }
}
