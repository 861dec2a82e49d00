/** agent/planner_runtime.go: the plan loop. Each of at most twelve iterations either asks the language
    model for the next batch of steps or carries out one pending step. */
module PlanLoop {
  import opened Options
  import opened Sequences
  import opened Text
  import opened ExecutionStates

  const MAX_ITERATIONS := 12
  const FRESH_SECONDS := 60
  const OBSERVATION_MAX := 1000

  // ---- Tool-call signatures and recently fetched data ----

  /** toolCallSignature */
  function Signature(step: PlanStep): string {
    Trim(step.tool) + "|" + step.args
  }

  /** The step a map from ids to steps holds for `id`: the last one. */
  function StepById(steps: seq<PlanStep>, id: string): Option<PlanStep> {
    if steps == [] then None
    else if steps[|steps| - 1].id == id then Some(steps[|steps| - 1])
    else StepById(steps[..|steps| - 1], id)
  }

  function Age(obs: Observation, now: int): nat
    requires obs.at.Some?
  {
    if now < obs.at.value then 0 else now - obs.at.value
  }

  /** The observation is a recent tool result whose step, looked up by id, has this signature. */
  predicate FreshEntry(obs: Observation, steps: seq<PlanStep>, now: int, sig: string) {
    && obs.kind == "tool_result" && obs.at.Some? && Age(obs, now) <= FRESH_SECONDS
    && var step := StepById(steps, obs.stepId);
       step.Some? && step.value.tool != "" && Signature(step.value) == sig
  }

  predicate FreshIn(log: seq<Observation>, steps: seq<PlanStep>, now: int, sig: string) {
    exists k :: 0 <= k < |log| && FreshEntry(log[k], steps, now, sig)
  }

  /** buildRecentlyFetchedData on a normalised state: the latest result per signature. */
  method BuildRecentlyFetched(log: seq<Observation>, steps: seq<PlanStep>, now: int) returns (latest: map<string, int>)
    requires forall k :: 0 <= k < |log| ==> log[k].at.Some?
    ensures forall sig :: sig in latest && now - latest[sig] <= FRESH_SECONDS <==> FreshIn(log, steps, now, sig)
  {
    latest := map[];
    var stepById := map[];
    for i := 0 to |steps|
      invariant forall id :: (if id in stepById then Some(stepById[id]) else None) == StepById(steps[..i], id)
    {
      assert steps[..i + 1][..i] == steps[..i];
      stepById := stepById[steps[i].id := steps[i]];
    }
    assert steps[..|steps|] == steps;
    for k := 0 to |log|
      invariant forall sig ::
                sig in latest && now - latest[sig] <= FRESH_SECONDS <==> FreshIn(log[..k], steps, now, sig)
    {
      FreshSnoc(log, k, steps, now);
      var obs := log[k];
      if obs.kind != "tool_result" {
        continue;
      }
      if obs.stepId !in stepById || stepById[obs.stepId].tool == "" {
        continue;
      }
      var sig := Signature(stepById[obs.stepId]);
      if sig !in latest || latest[sig] < obs.at.value {
        latest := latest[sig := obs.at.value];
      }
    }
    assert log[..|log|] == log;
  }

  lemma {:induction false} FreshSnoc(log: seq<Observation>, k: nat, steps: seq<PlanStep>, now: int)
    requires k < |log|
    ensures forall sig ::
            FreshIn(log[..k + 1], steps, now, sig)
            <==> FreshIn(log[..k], steps, now, sig) || FreshEntry(log[k], steps, now, sig)
  {
    hide FreshEntry;
    forall sig
      ensures FreshIn(log[..k + 1], steps, now, sig)
              <==> FreshIn(log[..k], steps, now, sig) || FreshEntry(log[k], steps, now, sig)
    {
      if FreshIn(log[..k], steps, now, sig) {
        var j :| 0 <= j < k && FreshEntry(log[..k][j], steps, now, sig);
        assert log[..k + 1][j] == log[..k][j];
      }
      if FreshEntry(log[k], steps, now, sig) {
        assert log[..k + 1][k] == log[k];
      }
      if FreshIn(log[..k + 1], steps, now, sig) {
        var j :| 0 <= j < k + 1 && FreshEntry(log[..k + 1][j], steps, now, sig);
        assert j < k ==> log[..k][j] == log[..k + 1][j];
      }
    }
  }

  /** The steps kept when the signatures in `used` are taken; each kept tool step takes its own. */
  function Admit(steps: seq<PlanStep>, used: set<string>): seq<PlanStep>
    decreases |steps|
  {
    if steps == [] then []
    else if steps[0].kind != Tool then [steps[0]] + Admit(steps[1..], used)
    else if Signature(steps[0]) in used then Admit(steps[1..], used)
    else [steps[0]] + Admit(steps[1..], used + {Signature(steps[0])})
  }

  function BatchSignatures(steps: seq<PlanStep>): set<string> {
    set k | 0 <= k < |steps| && steps[k].kind == Tool :: Signature(steps[k])
  }

  function Admitted(steps: seq<PlanStep>, log: seq<Observation>, known: seq<PlanStep>, now: int): seq<PlanStep> {
    Admit(steps, set sig | sig in BatchSignatures(steps) && FreshIn(log, known, now, sig))
  }

  /** filterFreshDuplicateToolSteps, on a normalised state. */
  method FilterFreshDuplicates(steps: seq<PlanStep>, log: seq<Observation>, known: seq<PlanStep>, now: int)
    returns (out: seq<PlanStep>)
    requires forall k :: 0 <= k < |log| ==> log[k].at.Some?
    ensures out == Admitted(steps, log, known, now)
  {
    if |steps| == 0 {
      return [];
    }
    var latest := BuildRecentlyFetched(log, known, now);
    var used: set<string> := set sig | sig in latest && now - latest[sig] <= FRESH_SECONDS;
    out := [];
    ghost var rest := Admit(steps, used);
    assert steps[0..] == steps;
    ghost var taken: set<string> := set sig | sig in BatchSignatures(steps) && FreshIn(log, known, now, sig);
    AdmitAgree(steps, used, taken);
    for i := 0 to |steps|
      invariant Admitted(steps, log, known, now) == out + rest
      invariant rest == Admit(steps[i..], used)
    {
      DropStep(steps, i);
      if steps[i].kind != Tool {
        rest := Admit(steps[i + 1..], used);
        Assoc(out, [steps[i]], rest);
        out := out + [steps[i]];
        continue;
      }
      var sig := Signature(steps[i]);
      if sig in used {
        continue;
      }
      used := used + {sig};
      rest := Admit(steps[i + 1..], used);
      Assoc(out, [steps[i]], rest);
      out := out + [steps[i]];
    }
    assert steps[|steps|..] == [];
  }

  lemma {:induction false} AdmitAgree(steps: seq<PlanStep>, a: set<string>, b: set<string>)
    requires forall sig :: sig in BatchSignatures(steps) ==> (sig in a <==> sig in b)
    ensures Admit(steps, a) == Admit(steps, b)
    decreases |steps|
  {
    if steps != [] {
      forall sig | sig in BatchSignatures(steps[1..]) ensures sig in BatchSignatures(steps) {
        var k :| 0 <= k < |steps[1..]| && steps[1..][k].kind == Tool && Signature(steps[1..][k]) == sig;
        assert steps[k + 1] == steps[1..][k];
      }
      if steps[0].kind == Tool {
        assert Signature(steps[0]) in BatchSignatures(steps);
        AdmitAgree(steps[1..], a + {Signature(steps[0])}, b + {Signature(steps[0])});
      }
      AdmitAgree(steps[1..], a, b);
    }
  }

  predicate Distinct(batch: seq<PlanStep>) {
    forall i, j :: 0 <= i < j < |batch| && batch[i].kind == Tool && batch[j].kind == Tool
        ==> Signature(batch[i]) != Signature(batch[j])
  }

  lemma {:induction false} AdmitDistinct(steps: seq<PlanStep>, used: set<string>)
    ensures Distinct(Admit(steps, used))
    ensures forall k :: 0 <= k < |Admit(steps, used)| && Admit(steps, used)[k].kind == Tool
                        ==> Signature(Admit(steps, used)[k]) !in used
    ensures forall k :: 0 <= k < |Admit(steps, used)| ==> Admit(steps, used)[k] in steps
    decreases |steps|
  {
    hide Signature;
    if steps != [] {
      var takes := steps[0].kind == Tool && Signature(steps[0]) !in used;
      AdmitDistinct(steps[1..], if takes then used + {Signature(steps[0])} else used);
    }
  }

  /** Nothing is dropped without a reason: every proposed tool signature was fetched less than a minute
      ago or is in the admitted batch, and steps of other kinds are all admitted, in order. */
  lemma {:induction false} AdmitComplete(steps: seq<PlanStep>, used: set<string>, k: nat)
    requires k < |steps|
    ensures steps[k].kind == Tool ==> Signature(steps[k]) in used || exists j ::
            0 <= j < |Admit(steps, used)|
            && Admit(steps, used)[j].kind == Tool && Signature(Admit(steps, used)[j]) == Signature(steps[k])
    ensures steps[k].kind != Tool ==> steps[k] in Admit(steps, used)
    decreases |steps|
  {
    hide Signature;
    var keep := steps[0].kind != Tool || Signature(steps[0]) !in used;
    var used' := if steps[0].kind == Tool then used + {Signature(steps[0])} else used;
    if k == 0 {
      if keep { assert Admit(steps, used)[0] == steps[0]; }
    } else {
      AdmitComplete(steps[1..], used', k - 1);
      var rest := Admit(steps[1..], used');
      assert Admit(steps, used) == (if keep then [steps[0]] else []) + rest by {
        if !keep { assert used' == used; }
      }
      if steps[k].kind == Tool && Signature(steps[k]) !in used {
        if Signature(steps[k]) in used' {
          assert Admit(steps, used)[0] == steps[0];
        } else {
          var j :| 0 <= j < |rest| && rest[j].kind == Tool && Signature(rest[j]) == Signature(steps[k]);
          assert Admit(steps, used)[if keep then j + 1 else j] == rest[j];
        }
      }
    }
  }

  /** Every admitted batch has pairwise distinct tool signatures, none of them fetched in the last minute. */
  lemma {:induction false} AdmittedFresh(steps: seq<PlanStep>, log: seq<Observation>, known: seq<PlanStep>, now: int)
    ensures Distinct(Admitted(steps, log, known, now))
    ensures forall k :: 0 <= k < |Admitted(steps, log, known, now)| && Admitted(steps, log, known, now)[k].kind == Tool
              ==> !FreshIn(log, known, now, Signature(Admitted(steps, log, known, now)[k]))
    ensures forall k :: 0 <= k < |Admitted(steps, log, known, now)| ==> Admitted(steps, log, known, now)[k] in steps
  {
    hide FreshIn, Admit, Signature;
    var used := set sig | sig in BatchSignatures(steps) && FreshIn(log, known, now, sig);
    AdmitDistinct(steps, used);
    forall k | 0 <= k < |Admit(steps, used)| && Admit(steps, used)[k].kind == Tool
      ensures !FreshIn(log, known, now, Signature(Admit(steps, used)[k]))
    {
      var s := Admit(steps, used)[k];
      assert s in steps;
      var j :| 0 <= j < |steps| && steps[j] == s;
      assert Signature(s) in BatchSignatures(steps);
    }
  }

  // ---- One iteration ----

  /** A decision as parsed from the model's answer; `single` is its "step" member when that has a type. */
  datatype Decision = Decision(goal: string, steps: seq<PlanStep>, single: Option<PlanStep>)

  /** normalizeNextStepDecision: the batch. */
  function Batch(d: Decision): seq<PlanStep> {
    NormalSteps(if d.steps == [] && d.single.Some? then [d.single.value] else d.steps)
  }

  /** Everything an iteration takes from outside: the clock (in seconds, when the model is asked and when
      a result is logged), the model, the tools, and whether the store accepts a write or a clear. */
  datatype Oracle = Oracle(
    lower: string -> string,
    decidedAt: nat -> int,
    loggedAt: nat -> int,
    decide: nat -> Option<Decision>,
    redirect: nat -> Option<string>,
    tool: nat -> string,
    reason: nat -> Option<string>,
    respond: nat -> Option<string>,
    question: string,
    waitingFor: nat -> Waiting,
    firstSave: nat -> bool,
    lastSave: nat -> bool,
    clears: nat -> bool)

  ghost predicate ClockForward(o: Oracle) {
    forall i: nat :: o.decidedAt(i) <= o.loggedAt(i) <= o.decidedAt(i + 1)
  }

  datatype Outcome = Continue | Returned(answer: string) | Erred
  datatype Event =
    | Refused
    | Decided(batch: seq<PlanStep>)
    | Ran(step: PlanStep, obs: Observation)
    | Asked(step: PlanStep)
    | Responded(step: PlanStep)
    | Redirected(step: PlanStep)
    | Halted

  datatype World = World(state: ExecutionState, stored: Option<ExecutionState>)
  datatype Iteration = Iteration(world: World, outcome: Outcome, event: Event)

  function NextPending(steps: seq<PlanStep>): (i: int)
    ensures -1 <= i < |steps|
    ensures i >= 0 ==> IsPending(steps[i]) && forall k :: 0 <= k < i ==> !IsPending(steps[k])
    ensures i < 0 ==> forall k :: 0 <= k < |steps| ==> !IsPending(steps[k])
  {
    if steps == [] then -1
    else if IsPending(steps[0]) then 0
    else
      var k := NextPending(steps[1..]);
      assert forall j :: 0 < j < |steps| ==> steps[j] == steps[1..][j - 1];
      if k < 0 then -1 else k + 1
  }

  predicate IsPending(step: PlanStep) {
    step.status == NoStatus || step.status == Pending
  }

  function CompletedSteps(steps: seq<PlanStep>): seq<PlanStep> {
    if steps == [] then []
    else if steps[0].status == Completed then [steps[0]] + CompletedSteps(steps[1..])
    else CompletedSteps(steps[1..])
  }

  function KindText(kind: StepKind): string {
    match kind
    case NoKind => ""
    case Tool => "tool"
    case Reason => "reason"
    case AskUser => "ask_user"
    case Respond => "respond"
    case OtherKind(name) => name
  }

  /** stepSemanticKey */
  function SemanticKey(step: PlanStep, lower: string -> string): string {
    lower(Trim(KindText(step.kind) + "|" + step.tool + "|" + step.title + "|" + step.instruction))
  }

  /** hasRepeatedReasonLoop */
  predicate RepeatsReason(steps: seq<PlanStep>, batch: seq<PlanStep>, lower: string -> string) {
    var done := CompletedSteps(steps);
    && batch != [] && done != [] && done[|done| - 1].kind == Reason
    && forall k :: 0 <= k < |batch| ==>
       batch[k].kind == Reason && SemanticKey(batch[k], lower) == SemanticKey(done[|done| - 1], lower)
  }

  function Spaced(id: string): string {
    seq(|id|, i requires 0 <= i < |id| => if id[i] == '_' then ' ' else id[i])
  }

  function Titled(step: PlanStep): PlanStep {
    if step.title == "" then step.(title := Spaced(step.id)) else step
  }

  function TitledAll(batch: seq<PlanStep>): (out: seq<PlanStep>)
    ensures |out| == |batch| && forall k :: 0 <= k < |batch| ==> out[k] == Titled(batch[k])
  {
    seq(|batch|, k requires 0 <= k < |batch| => Titled(batch[k]))
  }

  /** saveExecutionState: the stored copy is normal, and so are the steps, which copy and original share. */
  function Saved(w: World, ok: bool, env: Env): World {
    var steps := NormalSteps(w.state.steps);
    World(w.state.(steps := steps),
          if !ok then w.stored else if w.state.sessionId == "" then None else Some(Normal(w.state, env)))
  }

  /** summarizeObservation */
  function Summarize(value: string): string {
    var v := Trim(value);
    if |v| <= OBSERVATION_MAX then v else Trim(v[..OBSERVATION_MAX]) + "..."
  }

  function WithStep(s: ExecutionState, i: nat, step: PlanStep): ExecutionState
    requires i < |s.steps|
  {
    s.(steps := s.steps[i := step])
  }

  function DecideStep(w: World, o: Oracle, i: nat): Iteration {
    var now, env := o.decidedAt(i), Env(o.decidedAt(i), o.lower);
    var d := o.decide(i);
    if d == None then Iteration(w, Erred, Refused)
    else
      var known := Normal(w.state, env);
      var batch := Admitted(Batch(d.value), known.log, known.steps, now);
      if batch == [] || RepeatsReason(w.state.steps, batch, o.lower) then Iteration(w, Erred, Refused)
      else
        var goal := Trim(d.value.goal);
        var s := if goal != "" then w.state.(goal := goal) else w.state;
        if exists k :: 0 <= k < |batch| && batch[k].kind == NoKind then Iteration(World(s, w.stored), Erred, Refused)
        else
          var titled := TitledAll(batch);
          var next := s.(steps := CompletedSteps(s.steps) + titled, status := RunningPlan, at := Some(now));
          Iteration(Saved(World(next, w.stored), o.firstSave(i), env),
                    if o.firstSave(i) then Continue else Erred, Decided(titled))
  }

  /** The step is marked running and the state saved. */
  function Started(w: World, o: Oracle, i: nat, k: nat): (w1: World)
    requires k < |w.state.steps|
    ensures |w1.state.steps| == |w.state.steps|
  {
    var now := o.loggedAt(i);
    var started := WithStep(w.state, k, w.state.steps[k].(status := Running)).(status := RunningPlan,
        currentStep := w.state.steps[k].id, at := Some(now));
    Saved(World(started, w.stored), o.firstSave(i), Env(now, o.lower))
  }

  function RunStep(w: World, o: Oracle, i: nat, k: nat): Iteration
    requires k < |w.state.steps|
  {
    var env := Env(o.loggedAt(i), o.lower);
    var w1 := Started(w, o, i, k);
    var s, step := w1.state, w1.state.steps[k];
    if !o.firstSave(i) then Iteration(w1, Erred, Halted)
    else
      match step.kind
      case Tool =>
        if o.redirect(i).Some? then
          Iteration(World(s, if o.clears(i) then None else w1.stored), Returned(o.redirect(i).value), Redirected(step))
        else
          var obs := Observation(step.id, "tool_result", Summarize(o.tool(i)), o.tool(i), Some(env.now));
          Finish(w1, o, i, k, step.(status := Completed, output := Summarize(o.tool(i))), obs)
      case Reason =>
        if o.reason(i) == None then
          var failed := WithStep(s, k, step.(status := Failed)).(status := Aborted);
          Iteration(Saved(World(failed, w1.stored), o.lastSave(i), env), Erred, Halted)
        else
          var text := Summarize(o.reason(i).value);
          Finish(w1, o, i, k, step.(status := Completed, output := text),
              Observation(step.id, "reasoning", text, "", Some(env.now)))
      case AskUser =>
        var question := if Trim(step.instruction) == "" then o.question else Trim(step.instruction);
        var waiting := NormalWaiting(Some(o.waitingFor(i).(question := Trim(question))), env);
        var asked := WithStep(s, k, step.(status := Completed, output := question)).(status := WaitingUser,
            waiting := waiting, answer := question, at := Some(env.now));
        Iteration(Saved(World(asked, w1.stored), o.lastSave(i), env),
                  if o.lastSave(i) then Returned(question) else Erred, Asked(step))
      case Respond =>
        if o.respond(i) == None then Iteration(w1, Erred, Halted)
        else
          var text := o.respond(i).value;
          var done := WithStep(s, k, step.(status := Completed, output := text)).(status := Done, waiting := None,
              answer := text, currentStep := "", at := Some(env.now));
          Iteration(Saved(World(done, w1.stored), o.lastSave(i), env),
                    if o.lastSave(i) then Returned(text) else Erred, Responded(step))
      case _ => Iteration(w1, Erred, Halted)
  }

  /** A tool or reason step that succeeded: log its observation and save. */
  function Finish(w: World, o: Oracle, i: nat, k: nat, done: PlanStep, obs: Observation): Iteration
    requires k < |w.state.steps|
  {
    var env := Env(o.loggedAt(i), o.lower);
    var logged := AppendLog(WithStep(w.state, k, done), obs, env).(at := Some(env.now));
    Iteration(Saved(World(logged, w.stored), o.lastSave(i), env),
              if o.lastSave(i) then Continue else Erred, Ran(done, obs))
  }

  function Iterate(w: World, o: Oracle, i: nat): Iteration {
    var k := NextPending(w.state.steps);
    if k < 0 then DecideStep(w, o, i) else RunStep(w, o, i, k)
  }

  // ---- A whole run ----

  datatype Run = Run(world: World, outcome: Outcome, events: seq<Event>)

  /** The run after at most `n` iterations. */
  function RunFor(w: World, o: Oracle, n: nat): Run {
    if n == 0 then Run(w, Continue, [])
    else
      var r := RunFor(w, o, n - 1);
      if r.outcome != Continue then r
      else
        var it := Iterate(r.world, o, n - 1);
        Run(it.world, it.outcome, r.events + [it.event])
  }

  /** executePlan: a run still going after its last iteration is an error. */
  function ExecutePlan(w: World, o: Oracle): Run {
    var r := RunFor(w, o, MAX_ITERATIONS);
    if r.outcome == Continue then r.(outcome := Erred) else r
  }

  predicate Executes(e: Event) {
    e.Ran? || e.Asked? || e.Responded? || e.Redirected?
  }

  function Executions(events: seq<Event>): nat {
    if events == [] then 0 else Executions(events[..|events| - 1]) + if Executes(events[|events| - 1]) then 1 else 0
  }

  function Decisions(events: seq<Event>): nat {
    if events == [] then 0 else Decisions(events[..|events| - 1]) + if events[|events| - 1].Decided? then 1 else 0
  }

  lemma {:induction false} CountBoth(events: seq<Event>)
    ensures Decisions(events) + Executions(events) <= |events|
  {
    if events != [] {
      CountBoth(events[..|events| - 1]);
    }
  }

  lemma {:induction false} RunLength(w: World, o: Oracle, n: nat)
    ensures |RunFor(w, o, n).events| <= n
    ensures RunFor(w, o, n).outcome == Continue ==> |RunFor(w, o, n).events| == n
  {
    hide Iterate;
    if n > 0 {
      RunLength(w, o, n - 1);
    }
  }

  lemma {:induction false} FirstEvent(w: World, o: Oracle, n: nat)
    requires NextPending(w.state.steps) < 0 && n > 0
    ensures RunFor(w, o, n).events != [] && !Executes(RunFor(w, o, n).events[0])
  {
    if n > 1 {
      FirstEvent(w, o, n - 1);
      hide Iterate;
    } else {
      assert RunFor(w, o, 0) == Run(w, Continue, []);
      hide DecideStep;
      DecideDoesNotExecute(w, o, 0);
    }
  }

  lemma {:induction false} DecideDoesNotExecute(w: World, o: Oracle, i: nat)
    ensures !Executes(DecideStep(w, o, i).event)
  {
    hide Normal, Admitted, Saved;
  }

  lemma {:induction false} CountSkipsFirst(events: seq<Event>)
    requires events != [] && !Executes(events[0])
    ensures Executions(events) < |events|
  {
    if |events| > 1 {
      CountSkipsFirst(events[..|events| - 1]);
    } else {
      assert events[..0] == [];
    }
  }

  /** Decisions and executed steps share a budget of twelve; a run that starts with nothing pending, as
      every prepared one does, executes at most eleven steps. */
  lemma {:induction false} Budget(w: World, o: Oracle)
    ensures var events := ExecutePlan(w, o).events;
            && Decisions(events) + Executions(events) <= MAX_ITERATIONS
            && (NextPending(w.state.steps) < 0 ==> Executions(events) < MAX_ITERATIONS)
  {
    var events := ExecutePlan(w, o).events;
    RunLength(w, o, MAX_ITERATIONS);
    CountBoth(events);
    if NextPending(w.state.steps) < 0 {
      FirstEvent(w, o, MAX_ITERATIONS);
      CountSkipsFirst(events);
    }
  }

  // ---- What one iteration does to steps, log and store ----

  predicate NormalList(steps: seq<PlanStep>) {
    NormalSteps(steps) == steps
  }

  predicate SameCalls(a: seq<PlanStep>, b: seq<PlanStep>) {
    |a| == |b| && forall j :: 0 <= j < |a| ==> SameCall(a[j], b[j])
  }

  predicate NormalAt(step: PlanStep, i: nat) {
    NormalStep(step, i) == step && step.status != NoStatus
  }

  /** The step is as normalisation leaves it at some position, and hence at any. */
  ghost predicate NormalSomewhere(step: PlanStep) {
    exists i: nat :: NormalAt(step, i)
  }

  /** Two versions of one step: only title, output and error may differ. */
  predicate SameCall(a: PlanStep, b: PlanStep) {
    a.id == b.id && a.kind == b.kind && a.tool == b.tool && a.args == b.args && a.status == b.status
    && a.instruction == b.instruction
  }

  lemma {:induction false} NormalStepFixed(step: PlanStep, i: nat, j: nat)
    requires NormalStep(step, i) == step
    ensures NormalStep(step, j) == step
  {
    StepNameTrimmed(i);
    hide Trim, StepName;
  }

  lemma {:induction false} SavedSteps(w: World, ok: bool, env: Env)
    ensures NormalList(Saved(w, ok, env).state.steps)
    ensures Saved(w, ok, env).state == w.state.(steps := NormalSteps(w.state.steps))
  {
    hide Normal, NormalSteps;
    NormalStepsTwice(w.state.steps);
  }

  /** Normalising a normal list in which one step was replaced changes at most that step. */
  lemma {:induction false} NormalUpdate(steps: seq<PlanStep>, k: nat, step: PlanStep)
    requires NormalList(steps) && k < |steps| && step.id == steps[k].id && step.tool == steps[k].tool
             && step.instruction == steps[k].instruction && step.status != NoStatus
    ensures var out := NormalSteps(steps[k := step]);
            && out == steps[k := out[k]] && SameCall(out[k], step) && out[k] == NormalStep(step, k)
  {
    var out := NormalSteps(steps[k := step]);
    assert NormalStep(steps[k], k) == steps[k];
    hide Trim, StepName;
    forall j | 0 <= j < |steps| && j != k ensures out[j] == steps[j] {
      assert NormalStep(steps[j], j) == steps[j];
    }
    StepNameTrimmed(k);
  }

  lemma {:induction false} ObsIsClean(obs: Observation, now: int)
    requires obs.kind == "tool_result" || obs.kind == "reasoning"
    requires obs.at.Some?
    ensures CleanObs(obs, now) == [TrimObs(obs)] && TrimObs(obs).kind == obs.kind && TrimObs(obs).at == obs.at
  {
    assert Trimmed("tool_result") && Trimmed("reasoning");
  }

  lemma {:induction false} AppendSteps(s: ExecutionState, obs: Observation, env: Env)
    ensures AppendLog(s, obs, env).steps == NormalSteps(s.steps)
    ensures AppendLog(s, obs, env).sessionId == s.sessionId
    ensures s.status != NoRun ==> AppendLog(s, obs, env).status == s.status
  {
    hide CleanAll, Compact, NormalReferences, NormalHistory, NormalWaiting, NormalSteps, Trim;
  }

  lemma {:induction false} FinishEffect(w: World, o: Oracle, i: nat, k: nat, done: PlanStep, obs: Observation)
    requires Settled(w.state) && NormalList(w.state.steps) && k < |w.state.steps|
    requires done.id == w.state.steps[k].id && done.tool == w.state.steps[k].tool && done.status == Completed
    requires done.instruction == w.state.steps[k].instruction
    requires (obs.kind == "tool_result" || obs.kind == "reasoning") && obs.at.Some?
    ensures var s := Finish(w, o, i, k, done, obs).world.state;
            && Settled(s) && NormalList(s.steps) && s.sessionId == w.state.sessionId
            && s.log == LastN(LOG_MAX, w.state.log + [TrimObs(obs)])
            && s.steps == w.state.steps[k := s.steps[k]] && SameCall(s.steps[k], done)
  {
    hide AppendLog, Normal, NormalSteps, Settled, TrimObs, CleanObs;
    var env := Env(o.loggedAt(i), o.lower);
    var s0 := WithStep(w.state, k, done);
    SettledReads(w.state, s0);
    AppendOne(s0, obs, env);
    ObsIsClean(obs, env.now);
    AppendSteps(s0, obs, env);
    NormalUpdate(w.state.steps, k, done);
    NormalStepsTwice(s0.steps);
    var logged := AppendLog(s0, obs, env);
    SettledReads(logged, Finish(w, o, i, k, done, obs).world.state);
  }

  lemma {:induction false} SettledReads(s: ExecutionState, t: ExecutionState)
    requires Settled(s) && t.log == s.log && t.notes == s.notes && t.observations == s.observations
    ensures Settled(t)
  {
  }

  /** `after` is `before` with step `k` completed and its observation logged, and nothing else changed
      among the steps and the log. */
  predicate Performed(before: ExecutionState, after: ExecutionState, k: nat, step: PlanStep,
      obs: Observation, now: int) {
    && k < |before.steps| && |after.steps| == |before.steps|
    && Settled(after) && NormalList(after.steps) && after.sessionId == before.sessionId
    && after.log == LastN(LOG_MAX, before.log + [TrimObs(obs)])
    && after.steps == before.steps[k := after.steps[k]]
    && SameCall(after.steps[k], step) && SameCall(step, before.steps[k].(status := Completed))
    && obs.stepId == step.id && obs.at == Some(now)
    && obs.kind == (if step.kind == Tool then "tool_result" else "reasoning")
    && (step.kind == Tool || step.kind == Reason)
  }

  lemma {:induction false} StartEffect(w: World, o: Oracle, i: nat, k: nat)
    requires Settled(w.state) && NormalList(w.state.steps) && k < |w.state.steps|
    ensures var s := Started(w, o, i, k).state;
            && Settled(s) && NormalList(s.steps) && s.sessionId == w.state.sessionId && s.log == w.state.log
            && s.steps == w.state.steps[k := s.steps[k]] && SameCall(s.steps[k], w.state.steps[k].(status := Running))
  {
    hide Normal, NormalSteps, Settled;
    var now := o.loggedAt(i);
    var running := w.state.steps[k].(status := Running);
    var started := WithStep(w.state, k, running).(status := RunningPlan, currentStep := w.state.steps[k].id,
        at := Some(now));
    NormalUpdate(w.state.steps, k, running);
    SavedSteps(World(started, w.stored), o.firstSave(i), Env(now, o.lower));
    SettledReads(w.state, Started(w, o, i, k).state);
  }

  lemma {:induction false} FinishPerforms(w: World, w1: World, o: Oracle, i: nat, k: nat, text: string, raw: string)
    requires k < |w.state.steps| && w1 == Started(w, o, i, k)
    requires Settled(w.state) && NormalList(w.state.steps)
    requires w.state.steps[k].kind == Tool || w.state.steps[k].kind == Reason
    ensures var step := w1.state.steps[k].(status := Completed, output := text);
            var obs := Observation(step.id, if step.kind == Tool then "tool_result" else "reasoning", text, raw,
                                   Some(o.loggedAt(i)));
            Performed(w.state, Finish(w1, o, i, k, step, obs).world.state, k, step, obs, o.loggedAt(i))
  {
    hide Settled, NormalList, TrimObs, Finish, Started;
    StartEffect(w, o, i, k);
    var step := w1.state.steps[k].(status := Completed, output := text);
    var obs := Observation(step.id, if step.kind == Tool then "tool_result" else "reasoning", text, raw,
                           Some(o.loggedAt(i)));
    FinishEffect(w1, o, i, k, step, obs);
  }

  /** If the loop goes on after running a step, or fails only in the last save, the step was performed. */
  lemma {:induction false} RunEffect(w: World, o: Oracle, i: nat, k: nat)
    requires Settled(w.state) && NormalList(w.state.steps) && k < |w.state.steps|
    ensures var it := RunStep(w, o, i, k);
            && (it.outcome == Continue ==> it.event.Ran?)
            && (it.event.Ran? ==> Performed(w.state, it.world.state, k, it.event.step, it.event.obs, o.loggedAt(i)))
  {
    hide Performed, Saved, NormalWaiting, Summarize, Trim, Started, Finish;
    StartEffect(w, o, i, k);
    FinishShape(w, o, i, k);
    var w1 := Started(w, o, i, k);
    if w.state.steps[k].kind == Tool {
      FinishPerforms(w, w1, o, i, k, Summarize(o.tool(i)), o.tool(i));
    } else if w.state.steps[k].kind == Reason && o.reason(i).Some? {
      FinishPerforms(w, w1, o, i, k, Summarize(o.reason(i).value), "");
    }
  }

  lemma {:induction false} FinishShape(w: World, o: Oracle, i: nat, k: nat)
    requires k < |w.state.steps|
    ensures forall done, obs :: var it := Finish(Started(w, o, i, k), o, i, k, done, obs); it.event == Ran(done, obs)
  {
    hide AppendLog, Started, Saved;
  }

  lemma {:induction false} SettledNormal(s: ExecutionState, env: Env)
    requires Settled(s)
    ensures Normal(s, env).log == s.log && Normal(s, env).steps == NormalSteps(s.steps)
  {
    hide NormalReferences, NormalHistory, NormalWaiting, NormalSteps, Trim, IsCleanObs;
    CleanAllFixed(s.log, env.now);
    CleanAllFixed(s.notes, env.now);
    assert s.log + [] == s.log;
  }

  lemma {:induction false} CompletedNormal(steps: seq<PlanStep>)
    requires NormalList(steps)
    ensures forall j :: 0 <= j < |CompletedSteps(steps)|
                        ==> NormalStep(CompletedSteps(steps)[j], j) == CompletedSteps(steps)[j]
  {
    CompletedFrom(steps);
    forall j | 0 <= j < |CompletedSteps(steps)|
        ensures NormalStep(CompletedSteps(steps)[j], j) == CompletedSteps(steps)[j] {
      var s := CompletedSteps(steps)[j];
      var i :| 0 <= i < |steps| && steps[i] == s;
      assert NormalSteps(steps)[i] == NormalStep(steps[i], i);
      NormalStepFixed(s, i, j);
    }
  }

  lemma {:induction false} CompletedFrom(steps: seq<PlanStep>)
    ensures forall j :: 0 <= j < |CompletedSteps(steps)|
                        ==> CompletedSteps(steps)[j] in steps && CompletedSteps(steps)[j].status == Completed
    ensures forall s :: s in steps && s.status == Completed ==> s in CompletedSteps(steps)
  {
    if steps != [] {
      CompletedFrom(steps[1..]);
      assert steps == [steps[0]] + steps[1..];
    }
  }

  /** `after` keeps the completed steps of `before` as they are and appends the batch. */
  predicate Extended(before: ExecutionState, after: ExecutionState, batch: seq<PlanStep>) {
    var kept := CompletedSteps(before.steps);
    && Settled(after) && NormalList(after.steps) && after.log == before.log && after.sessionId == before.sessionId
    && |after.steps| == |kept| + |batch| && after.steps[..|kept|] == kept && SameCalls(after.steps[|kept|..], batch)
  }

  /** A decision either is refused or keeps the completed steps, as they are, and appends the admitted
      batch; the log is untouched. */
  lemma {:induction false} DecideEffect(w: World, o: Oracle, i: nat)
    requires Settled(w.state) && NormalList(w.state.steps)
    ensures var it := DecideStep(w, o, i);
            && (it.event.Decided? || (it.event == Refused && it.outcome == Erred
               && it.world.state.steps == w.state.steps))
            && (it.event.Decided? ==>
                  && o.decide(i).Some?
                  && Extended(w.state, it.world.state,
                     Admitted(Batch(o.decide(i).value), w.state.log, w.state.steps, o.decidedAt(i))))
  {
    hide Normal, Settled, NormalList, Admitted, RepeatsReason, Trim, CompletedSteps, Saved, Extended;
    var it := DecideStep(w, o, i);
    if it.event.Decided? {
      var env := Env(o.decidedAt(i), o.lower);
      SettledNormal(w.state, env);
      NormalListFixed(w.state.steps);
      var d := o.decide(i).value;
      var batch := Admitted(Batch(d), w.state.log, w.state.steps, o.decidedAt(i));
      var goal := Trim(d.goal);
      AdmittedNormal(d, w.state.log, w.state.steps, o.decidedAt(i));
      ExtendSaved(w, if goal != "" then w.state.(goal := goal) else w.state, batch, o.firstSave(i), env);
    }
  }

  lemma {:induction false} ExtendSaved(w: World, s: ExecutionState, batch: seq<PlanStep>, ok: bool, env: Env)
    requires Settled(w.state) && NormalList(w.state.steps)
    requires s.log == w.state.log && s.notes == w.state.notes && s.observations == w.state.observations
             && s.steps == w.state.steps
    requires s.sessionId == w.state.sessionId
    requires forall j :: 0 <= j < |batch| ==> NormalSomewhere(batch[j])
    ensures var next := s.(steps := CompletedSteps(s.steps) + TitledAll(batch), status := RunningPlan,
            at := Some(env.now));
            Extended(w.state, Saved(World(next, w.stored), ok, env).state, batch)
  {
    hide Normal, Settled, CompletedSteps, NormalStep, NormalSteps, NormalSomewhere, NormalList, Titled,
        SameCalls, TitledAll;
    var kept := CompletedSteps(w.state.steps);
    var next := s.(steps := kept + TitledAll(batch), status := RunningPlan, at := Some(env.now));
    var after := Saved(World(next, w.stored), ok, env).state;
    SavedSteps(World(next, w.stored), ok, env);
    SettledReads(w.state, after);
    NormalBatch(w.state.steps, batch);
    assert after.steps == NormalSteps(kept + TitledAll(batch));
  }

  lemma {:induction false} NormalBatch(steps: seq<PlanStep>, batch: seq<PlanStep>)
    requires NormalList(steps) && forall j :: 0 <= j < |batch| ==> NormalSomewhere(batch[j])
    ensures var kept := CompletedSteps(steps);
            var out := NormalSteps(kept + TitledAll(batch));
            |out| == |kept| + |batch| && out[..|kept|] == kept && SameCalls(out[|kept|..], batch)
  {
    hide NormalStep, NormalSteps, NormalSomewhere, NormalList, Titled, SameCalls, CompletedSteps;
    CompletedNormal(steps);
    AppendedNormal(CompletedSteps(steps), batch);
  }

  lemma {:induction false} NormalListFixed(steps: seq<PlanStep>)
    requires NormalList(steps)
    ensures NormalSteps(steps) == steps
  {
  }

  lemma {:induction false} AdmittedNormal(d: Decision, log: seq<Observation>, known: seq<PlanStep>, now: int)
    ensures var batch := Admitted(Batch(d), log, known, now);
            forall j :: 0 <= j < |batch| ==> NormalSomewhere(batch[j])
  {
    hide FreshIn, Admit, Trim, StepName, NormalStep;
    AdmittedFresh(Batch(d), log, known, now);
    var batch := Admitted(Batch(d), log, known, now);
    BatchNormal(d);
    forall j | 0 <= j < |batch| ensures NormalSomewhere(batch[j]) {
      assert batch[j] in Batch(d);
    }
  }

  lemma {:induction false} BatchNormal(d: Decision)
    ensures forall s :: s in Batch(d) ==> NormalSomewhere(s)
  {
    var raw := if d.steps == [] && d.single.Some? then [d.single.value] else d.steps;
    NormalStepsTwice(raw);
    hide Trim, StepName;
    forall s | s in Batch(d) ensures NormalSomewhere(s) {
      var i :| 0 <= i < |Batch(d)| && Batch(d)[i] == s;
      assert NormalSteps(NormalSteps(raw))[i] == NormalStep(NormalSteps(raw)[i], i);
      assert NormalAt(s, i);
    }
  }

  lemma {:induction false} AppendedNormal(kept: seq<PlanStep>, batch: seq<PlanStep>)
    requires forall j :: 0 <= j < |kept| ==> NormalStep(kept[j], j) == kept[j]
    requires forall j :: 0 <= j < |batch| ==> NormalSomewhere(batch[j])
    ensures var out := NormalSteps(kept + TitledAll(batch));
            |out| == |kept| + |batch| && out[..|kept|] == kept && SameCalls(out[|kept|..], batch)
  {
    hide NormalStep, Titled;
    var out := NormalSteps(kept + TitledAll(batch));
    var tail := out[|kept|..];
    forall j | 0 <= j < |batch| ensures SameCall(tail[j], batch[j]) {
      assert tail[j] == out[|kept| + j] == NormalStep(Titled(batch[j]), |kept| + j);
      assert NormalSomewhere(batch[j]);
      var i: nat :| NormalAt(batch[j], i);
      TitledSameCall(batch[j], i, |kept| + j);
    }
    assert forall j :: 0 <= j < |kept| ==> out[j] == NormalStep(kept[j], j);
  }

  lemma {:induction false} TitledSameCall(step: PlanStep, i: nat, j: nat)
    requires NormalStep(step, i) == step && step.status != NoStatus
    ensures SameCall(NormalStep(Titled(step), j), step)
  {
    StepNameTrimmed(i);
    hide Trim, StepName;
  }
}
