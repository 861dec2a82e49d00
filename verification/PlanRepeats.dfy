/** When a run of the plan loop repeats a tool call although its result is recent, without any assumption
    on step ids: exactly when a decision overlooked that result. */
module PlanRepeats {
  import opened Options
  import opened Sequences
  import opened Text
  import opened ExecutionStates
  import opened Decimals
  import opened PlanLoop
  import opened PlanRuns

  // ---- What a decision overlooks ----

  /** The batch calls the tool whose result `k` is still retained and recent. */
  predicate Overlooks(batch: seq<PlanStep>, h: seq<Logged>, k: nat, now: int)
    requires k < |h|
  {
    !Spent(h, k, |h|, now) && exists s :: s in batch && s.kind == Tool && h[k].call == Some(Signature(s))
  }

  /** A decision taken when `size` observations had been logged overlooked the `k`-th of them. */
  datatype Oversight = Oversight(k: nat, size: nat)

  /** What the `n`-th iteration of a run overlooks; nothing when it is not a decision. */
  function OverlookedAt(w: World, o: Oracle, n: nat): set<Oversight> {
    var r := RunFor(w, o, n);
    var h := History(r.events);
    if r.outcome == Continue && Iterate(r.world, o, n).event.Decided? && o.decide(n).Some? then
      var batch := Admitted(Batch(o.decide(n).value), r.world.state.log, r.world.state.steps, o.decidedAt(n));
      set k: nat | k < |h| && Overlooks(batch, h, k, o.decidedAt(n)) :: Oversight(k, |h|)
    else {}
  }

  function Overlooked(w: World, o: Oracle, n: nat): set<Oversight> {
    if n == 0 then {} else Overlooked(w, o, n - 1) + OverlookedAt(w, o, n - 1)
  }

  /** A retained recent result keeps its call out of the batch exactly when the last step that has the id
      the result names is a step of that call; a call is overlooked when no retained recent result does so. */
  lemma {:induction false} OverlooksExactly(d: Decision, log: seq<Observation>, steps: seq<PlanStep>,
      h: seq<Logged>, k: nat, now: int)
    requires k < |h| && h[k].call.Some?
    ensures Overlooks(Admitted(Batch(d), log, steps, now), h, k, now)
            <==> && !Spent(h, k, |h|, now)
                 && (exists s :: s in Batch(d) && s.kind == Tool && Signature(s) == h[k].call.value)
                 && forall e :: e in log && e.kind == "tool_result" && e.at.Some? && Age(e, now) <= FRESH_SECONDS
                      ==> !(var s := StepById(steps, e.stepId);
                          s.Some? && s.value.tool != "" && Signature(s.value) == h[k].call.value)
  {
    var batch, admitted := Batch(d), Admitted(Batch(d), log, steps, now);
    var sig := h[k].call.value;
    AdmittedFresh(batch, log, steps, now);
    FreshMeans(log, steps, now, sig);
    hide Batch, Admitted, Signature, Spent, Age, StepById;
    if FreshIn(log, steps, now, sig) {
      forall s | s in admitted && s.kind == Tool ensures Signature(s) != sig {
        var j :| 0 <= j < |admitted| && admitted[j] == s;
      }
    } else if exists s :: s in batch && s.kind == Tool && Signature(s) == sig {
      var s :| s in batch && s.kind == Tool && Signature(s) == sig;
      ProposedAdmitted(batch, log, steps, now, s);
    }
  }

  lemma {:induction false} FreshMeans(log: seq<Observation>, steps: seq<PlanStep>, now: int, sig: string)
    ensures FreshIn(log, steps, now, sig)
            <==> exists e :: e in log && e.kind == "tool_result" && e.at.Some? && Age(e, now) <= FRESH_SECONDS
                             && var s := StepById(steps, e.stepId);
                                s.Some? && s.value.tool != "" && Signature(s.value) == sig
  {
    hide StepById, Signature, Age;
    if FreshIn(log, steps, now, sig) {
      var j :| 0 <= j < |log| && FreshEntry(log[j], steps, now, sig);
      assert log[j] in log;
    }
    forall e | e in log && FreshEntry(e, steps, now, sig) ensures FreshIn(log, steps, now, sig) {
      var j :| 0 <= j < |log| && log[j] == e;
    }
  }

  lemma {:induction false} ProposedAdmitted(batch: seq<PlanStep>, log: seq<Observation>, steps: seq<PlanStep>,
      now: int, s: PlanStep)
    requires s in batch && s.kind == Tool && !FreshIn(log, steps, now, Signature(s))
    ensures exists a :: a in Admitted(batch, log, steps, now) && a.kind == Tool && Signature(a) == Signature(s)
  {
    hide FreshIn, Signature, Admit;
    var used := set sig | sig in BatchSignatures(batch) && FreshIn(log, steps, now, sig);
    var k :| 0 <= k < |batch| && batch[k] == s;
    AdmitComplete(batch, used, k);
    var j :| 0 <= j < |Admit(batch, used)| && Admit(batch, used)[j].kind == Tool
        && Signature(Admit(batch, used)[j]) == Signature(s);
    assert Admit(batch, used)[j] in Admit(batch, used);
  }

  // ---- Every early repetition goes back to an oversight ----

  predicate Noted(missed: set<Oversight>, k: nat, b: nat) {
    exists v :: v in missed && v.k == k && v.size <= b
  }

  /** Every pending call with a recent result was overlooked. */
  predicate PendingNoted(steps: seq<PlanStep>, h: seq<Logged>, now: int, missed: set<Oversight>) {
    forall s, k :: s in steps && PendingTool(s) && 0 <= k < |h| && h[k].call == Some(Signature(s))
      ==> Spent(h, k, |h|, now) || Noted(missed, k, |h|)
  }

  /** Every call repeated too soon was overlooked before it was repeated. */
  predicate PairsNoted(h: seq<Logged>, missed: set<Oversight>) {
    forall a, b :: 0 <= a < b < |h| && h[a].call.Some? && h[a].call == h[b].call
        ==> Spent(h, a, b, At(h[b])) || Noted(missed, a, b)
  }

  predicate Traced(s: ExecutionState, h: seq<Logged>, now: int, missed: set<Oversight>) {
    Settled(s) && NormalList(s.steps) && DistinctPending(s.steps) && PendingNoted(s.steps, h, now, missed)
  }

  lemma {:induction false} NotedMore(missed: set<Oversight>, more: set<Oversight>, k: nat, b: nat, c: nat)
    requires Noted(missed, k, b) && b <= c
    ensures Noted(missed + more, k, c)
  {
    var v :| v in missed && v.k == k && v.size <= b;
    assert v in missed + more;
  }

  lemma {:induction false} PairsMore(h: seq<Logged>, missed: set<Oversight>, more: set<Oversight>)
    requires PairsNoted(h, missed)
    ensures PairsNoted(h, missed + more)
  {
    hide Spent, At, Noted;
    forall a, b | 0 <= a < b < |h| && h[a].call.Some? && h[a].call == h[b].call
      ensures Spent(h, a, b, At(h[b])) || Noted(missed + more, a, b)
    {
      if !Spent(h, a, b, At(h[b])) {
        NotedMore(missed, more, a, b, b);
      }
    }
  }

  lemma {:induction false} SpentLater(h: seq<Logged>, k: nat, n: nat, m: nat, now: int, later: int)
    requires k < |h| && n <= m && now <= later && Spent(h, k, n, now)
    ensures Spent(h, k, m, later)
  {
  }

  lemma {:induction false} DecisionTraced(before: ExecutionState, after: ExecutionState, d: Decision, h: seq<Logged>,
      now: int, later: int,
                                          missed: set<Oversight>, more: set<Oversight>)
    requires now <= later && Extended(before, after, Admitted(Batch(d), before.log, before.steps, now))
    requires forall k: nat ::
             k < |h| && Overlooks(Admitted(Batch(d), before.log, before.steps, now), h, k, now)
             ==> Oversight(k, |h|) in more
    ensures Traced(after, h, later, missed + more)
  {
    hide Settled, NormalList, Admitted, Signature, SameCalls, CompletedSteps, DistinctPending, Spent, Batch;
    var batch := Admitted(Batch(d), before.log, before.steps, now);
    AdmittedFresh(Batch(d), before.log, before.steps, now);
    ExtendedPending(before.steps, after.steps, batch);
    forall s, k | s in after.steps && PendingTool(s) && 0 <= k < |h| && h[k].call == Some(Signature(s))
      ensures Spent(h, k, |h|, later) || Noted(missed + more, k, |h|)
    {
      if Spent(h, k, |h|, now) {
        SpentLater(h, k, |h|, |h|, now, later);
      } else {
        var b :| b in batch && b.kind == Tool && Signature(b) == Signature(s);
        assert Overlooks(batch, h, k, now);
        assert Oversight(k, |h|) in missed + more;
      }
    }
  }

  lemma {:induction false} RunTraced(s: ExecutionState, after: ExecutionState, k: nat, step: PlanStep,
      obs: Observation, h: seq<Logged>,
                                     prev: int, now: int, later: int, missed: set<Oversight>)
    requires Traced(s, h, prev, missed) && PairsNoted(h, missed) && prev <= now <= later
    requires Performed(s, after, k, step, obs, now) && IsPending(s.steps[k])
    ensures var h' := h + [Logged(TrimObs(obs), CallOf(step))];
            Traced(after, h', later, missed) && PairsNoted(h', missed)
  {
    hide Settled, NormalList, Signature, DistinctPending, TrimObs, Noted, Spent;
    var l := Logged(TrimObs(obs), CallOf(step));
    UpdatedSteps(s, after, k, step, obs, now);
    RunPendingNoted(s, after, k, step, obs, h, l, prev, now, later, missed);
    RunPairsNoted(s, after, k, step, obs, h, l, prev, now, missed);
  }

  lemma {:induction false} RunPendingNoted(s: ExecutionState, after: ExecutionState, k: nat, step: PlanStep,
      obs: Observation, h: seq<Logged>,
                                           l: Logged, prev: int, now: int, later: int, missed: set<Oversight>)
    requires Performed(s, after, k, step, obs, now) && IsPending(s.steps[k]) && prev <= now <= later
    requires DistinctPending(s.steps) && PendingNoted(s.steps, h, prev, missed) && l.call == CallOf(step)
    ensures PendingNoted(after.steps, h + [l], later, missed)
  {
    hide Settled, NormalList, Signature, TrimObs, Noted;
    UpdatedSteps(s, after, k, step, obs, now);
    SameCallFacts(step, s.steps[k].(status := Completed));
    SignatureReads(s.steps[k]);
    var h' := h + [l];
    assert h'[|h|].call == CallOf(s.steps[k]);
    forall p, j | p in after.steps && PendingTool(p) && 0 <= j < |h'| && h'[j].call == Some(Signature(p))
      ensures Spent(h', j, |h'|, later) || Noted(missed, j, |h'|)
    {
      var i :| 0 <= i < |s.steps| && i != k && s.steps[i] == p;
      assert j < |h|;
      if !Spent(h, j, |h|, prev) {
        NotedMore(missed, {}, j, |h|, |h'|);
        assert missed + {} == missed;
      }
    }
  }

  lemma {:induction false} RunPairsNoted(s: ExecutionState, after: ExecutionState, k: nat, step: PlanStep,
      obs: Observation, h: seq<Logged>,
                                         l: Logged, prev: int, now: int, missed: set<Oversight>)
    requires Performed(s, after, k, step, obs, now) && IsPending(s.steps[k]) && prev <= now
    requires PendingNoted(s.steps, h, prev, missed) && PairsNoted(h, missed) && l == Logged(TrimObs(obs), CallOf(step))
    ensures PairsNoted(h + [l], missed)
  {
    hide Settled, NormalList, Signature, TrimObs, Noted;
    AtIs(obs, l.call, now);
    SameCallFacts(step, s.steps[k].(status := Completed));
    SignatureReads(s.steps[k]);
    var h' := h + [l];
    forall a, b | 0 <= a < b < |h'| && h'[a].call.Some? && h'[a].call == h'[b].call
      ensures Spent(h', a, b, At(h'[b])) || Noted(missed, a, b)
    {
      if b < |h| {
        assert Spent(h, a, b, At(h[b])) || Noted(missed, a, b);
      } else {
        assert s.steps[k] in s.steps && PendingTool(s.steps[k]);
        assert Spent(h, a, |h|, prev) || Noted(missed, a, |h|);
      }
    }
  }

  lemma {:induction false} RunIsTraced(w: World, o: Oracle, n: nat)
    requires Prepared(w.state) && ClockForward(o)
    ensures var r := RunFor(w, o, n);
            && PairsNoted(History(r.events), Overlooked(w, o, n))
            && (r.outcome == Continue ==> Traced(r.world.state, History(r.events), o.decidedAt(n), Overlooked(w, o, n)))
  {
    hide Iterate, Traced, PairsNoted, ClockForward, RunFor, History, OverlookedAt;
    RunUnfold(w, o, n);
    if n == 0 {
      NothingTraced(w.state, o.decidedAt(0));
    } else {
      RunIsTraced(w, o, n - 1);
      var r := RunFor(w, o, n - 1);
      PairsMore(History(r.events), Overlooked(w, o, n - 1), OverlookedAt(w, o, n - 1));
      if r.outcome == Continue {
        IterateTraced(w, o, r, n - 1, Overlooked(w, o, n - 1));
      }
    }
  }

  lemma {:induction false} NothingTraced(s: ExecutionState, now: int)
    requires Prepared(s)
    ensures Traced(s, [], now, {}) && PairsNoted([], {})
  {
    hide NormalList, Settled;
    assert forall p :: p in s.steps ==> !IsPending(p);
  }

  lemma {:induction false} IterateTraced(w: World, o: Oracle, r: Run, n: nat, missed: set<Oversight>)
    requires r == RunFor(w, o, n) && r.outcome == Continue && ClockForward(o)
    requires PairsNoted(History(r.events), missed) && Traced(r.world.state, History(r.events), o.decidedAt(n), missed)
    ensures var it := Iterate(r.world, o, n);
            var h, more := History(r.events + [it.event]), OverlookedAt(w, o, n);
            && PairsNoted(h, missed + more)
            && (it.outcome == Continue ==> Traced(it.world.state, h, o.decidedAt(n + 1), missed + more))
  {
    hide DecideStep, RunStep, RunFor, History, Logging, PairsNoted, PendingNoted, Settled, NormalList, DistinctPending;
    var it, h, more := Iterate(r.world, o, n), History(r.events), OverlookedAt(w, o, n);
    HistorySnoc(r.events, it.event);
    PairsMore(h, missed, more);
    var k := NextPending(r.world.state.steps);
    if k < 0 {
      DecideTraced(w, o, r, n, missed);
    } else {
      assert more == {} by { RunNotDecided(r.world, o, n, k); }
      assert missed + more == missed;
      RunStepTraced(r.world, o, n, k, h, missed);
    }
  }

  lemma {:induction false} DecideTraced(w: World, o: Oracle, r: Run, n: nat, missed: set<Oversight>)
    requires r == RunFor(w, o, n) && r.outcome == Continue && ClockForward(o) && NextPending(r.world.state.steps) < 0
    requires Traced(r.world.state, History(r.events), o.decidedAt(n), missed)
    ensures var it := DecideStep(r.world, o, n);
            && !it.event.Ran?
            && (it.outcome == Continue
               ==> Traced(it.world.state, History(r.events), o.decidedAt(n + 1), missed + OverlookedAt(w, o, n)))
  {
    hide DecideStep, RunFor, History, Overlooks, Settled, NormalList, DistinctPending, PendingNoted,
        Extended, Admitted, Batch;
    DecideEffect(r.world, o, n);
    DecideContinues(r.world, o, n);
    var it := DecideStep(r.world, o, n);
    if it.event.Decided? {
      DecisionTraced(r.world.state, it.world.state, o.decide(n).value, History(r.events), o.decidedAt(n),
          o.decidedAt(n + 1),
                     missed, OverlookedAt(w, o, n));
    }
  }

  lemma {:induction false} DecideContinues(w: World, o: Oracle, n: nat)
    ensures DecideStep(w, o, n).outcome == Continue ==> DecideStep(w, o, n).event.Decided?
  {
    hide Normal, Admitted, RepeatsReason, Trim, CompletedSteps, Saved;
  }

  lemma {:induction false} RunNotDecided(w: World, o: Oracle, n: nat, k: nat)
    requires k < |w.state.steps|
    ensures !RunStep(w, o, n, k).event.Decided?
  {
    hide Started, Saved, Finish, NormalWaiting, Summarize, Trim;
    FinishShape(w, o, n, k);
  }

  lemma {:induction false} RunStepTraced(w: World, o: Oracle, n: nat, k: nat, h: seq<Logged>, missed: set<Oversight>)
    requires ClockForward(o) && Traced(w.state, h, o.decidedAt(n), missed) && PairsNoted(h, missed)
    requires k < |w.state.steps| && IsPending(w.state.steps[k])
    ensures var it := RunStep(w, o, n, k);
            && (it.outcome == Continue ==> it.event.Ran?)
            && (it.event.Ran? ==> && PairsNoted(h + Logging(it.event), missed)
                                  && Traced(it.world.state, h + Logging(it.event), o.decidedAt(n + 1), missed))
  {
    hide RunStep, PairsNoted, PendingNoted, DistinctPending, Performed, Settled, NormalList;
    RunEffect(w, o, n, k);
    var it := RunStep(w, o, n, k);
    if it.event.Ran? {
      RunTraced(w.state, it.world.state, k, it.event.step, it.event.obs, h, o.decidedAt(n), o.loggedAt(n),
          o.decidedAt(n + 1), missed);
    }
  }

  /** In every run from a prepared state, whatever ids the model gives: a tool call is carried out twice
      within sixty seconds and eight observations exactly when some decision overlooked its first result
      and the call was then carried out while that result was still recent. What this says lies in one
      direction: there is no repetition without such a decision. Which decisions those are, from what the
      model proposed and the state at that moment, is OverlooksExactly. */
  lemma {:induction false} RepeatsExactly(w: World, o: Oracle)
    requires Prepared(w.state) && ClockForward(o)
    ensures var h := History(ExecutePlan(w, o).events);
            !SpacedOut(h) <==> exists v: Oversight, b: nat ::
              && v in Overlooked(w, o, MAX_ITERATIONS) && v.k < v.size <= b < |h|
              && h[v.k].call.Some? && h[v.k].call == h[b].call && !Spent(h, v.k, b, At(h[b]))
  {
    hide History, RunFor, Overlooked, Spent, At, Traced, PairsNoted, SpacedOut, ClockForward;
    var missed := Overlooked(w, o, MAX_ITERATIONS);
    RunIsTraced(w, o, MAX_ITERATIONS);
    forall v | v in missed ensures v.k < v.size {
      OversightSizes(w, o, MAX_ITERATIONS, v);
    }
    PairsExactly(History(ExecutePlan(w, o).events), missed);
  }

  lemma {:induction false} PairsExactly(h: seq<Logged>, missed: set<Oversight>)
    requires PairsNoted(h, missed) && forall v :: v in missed ==> v.k < v.size
    ensures !SpacedOut(h) <==> exists v: Oversight, b: nat ::
              && v in missed && v.k < v.size <= b < |h|
              && h[v.k].call.Some? && h[v.k].call == h[b].call && !Spent(h, v.k, b, At(h[b]))
  {
    hide Spent, At;
    if !SpacedOut(h) {
      var a, b :| 0 <= a < b < |h| && h[a].call.Some? && h[a].call == h[b].call && !Spent(h, a, b, At(h[b]));
      var v :| v in missed && v.k == a && v.size <= b;
      assert v.k < v.size <= b < |h|;
    }
  }

  lemma {:induction false} OversightSizes(w: World, o: Oracle, n: nat, v: Oversight)
    requires v in Overlooked(w, o, n)
    ensures v.k < v.size
  {
    hide RunFor, History, Iterate, Overlooks, Admitted, Batch;
    if v !in OverlookedAt(w, o, n - 1) {
      OversightSizes(w, o, n - 1, v);
    }
  }

  // ---- Runs that do it ----

  /** A tool step as a model may give it: no id, no status. */
  predicate Unnamed(c: PlanStep) {
    c.id == "" && c.kind == Tool && c.status == NoStatus && Trim(c.tool) != ""
  }

  const START := World(ExecutionState("s", 1, "", RunningPlan, "p", [], "", None, [], [], [], [], None, [], "",
      "", Some(0)), None)

  /** The model's decisions are those of `answers`, everything else goes well, and the clock stands still. */
  function Script(answers: map<nat, PlanStep>, redirects: bool, clears: bool, lower: string -> string): Oracle {
    Oracle(lower, i => 0, i => 0, i => if i in answers then Some(Decision("", [answers[i]], None)) else None,
           i => if redirects then Some("done") else None, i => "ok", i => None, i => None, "?",
           i => Waiting("", "", [], "", None), i => true, i => true, i => clears)
  }

  /** The calls have run, each under the id "step_1". */
  predicate Stage(s: ExecutionState, calls: seq<PlanStep>) {
    && Settled(s) && NormalList(s.steps) && |s.steps| == |s.log| == |calls|
    && (forall j :: 0 <= j < |calls| ==> SameCall(s.steps[j], NormalStep(calls[j], 0).(status := Completed)))
    && (forall j :: 0 <= j < |calls| ==> s.log[j].stepId == "step_1")
  }

  lemma {:induction false} StartsAtStage()
    ensures Stage(START.state, []) && Prepared(START.state)
  {
  }

  lemma {:induction false} UnnamedNormal(c: PlanStep)
    requires Unnamed(c)
    ensures var s := NormalStep(c, 0);
            && s.id == "step_1" && s.kind == Tool && s.status == Pending && s.tool != "" && Signature(s) == Signature(c)
            && Batch(Decision("", [c], None)) == [s]
  {
    SignatureNormal(c, 0);
    assert NormalStep(c, 0).id == "step_1" by {
      assert StepName(0) == "step_1" by { assert Digits(1) == "1"; }
      assert Trim("") == "";
      hide StepName, Trim;
    }
    hide Trim, Signature, StepName;
  }

  lemma {:induction false} SignatureNormal(step: PlanStep, i: nat)
    ensures Signature(NormalStep(step, i)) == Signature(step)
  {
    hide StepName;
  }

  /** All steps share one id, so the last one is looked up for every result. */
  lemma {:induction false} LastLooksUp(s: ExecutionState, calls: seq<PlanStep>, now: int, sig: string)
    requires Stage(s, calls) && (forall j :: 0 <= j < |calls| ==> Unnamed(calls[j]))
    requires calls == [] || Signature(calls[|calls| - 1]) != sig
    ensures !FreshIn(s.log, s.steps, now, sig)
  {
    hide Signature, Settled, NormalList, NormalStep, Unnamed, Age;
    if calls != [] {
      var last := |calls| - 1;
      UnnamedNormal(calls[last]);
      assert SameCall(s.steps[last], NormalStep(calls[last], 0).(status := Completed));
      SameSignature(s.steps[last], NormalStep(calls[last], 0));
      assert StepById(s.steps, "step_1") == Some(s.steps[last]);
      forall j | 0 <= j < |s.log| ensures !FreshEntry(s.log[j], s.steps, now, sig) {
        assert s.log[j].stepId == "step_1";
      }
    }
  }

  lemma {:induction false} SameSignature(a: PlanStep, b: PlanStep)
    requires SameCall(a, b.(status := Completed))
    ensures Signature(a) == Signature(b)
  {
  }

  lemma {:induction false} AllCompleted(steps: seq<PlanStep>)
    requires forall j :: 0 <= j < |steps| ==> steps[j].status == Completed
    ensures CompletedSteps(steps) == steps && NextPending(steps) < 0
  {
    CompletedFixed(steps);
  }

  /** A decision for one call that no retained result keeps out. */
  lemma {:induction false} OneDecided(w: World, o: Oracle, i: nat, calls: seq<PlanStep>, c: PlanStep)
    requires Stage(w.state, calls) && Unnamed(c) && o.decide(i) == Some(Decision("", [c], None)) && o.firstSave(i)
    requires !FreshIn(w.state.log, w.state.steps, o.decidedAt(i), Signature(c))
    ensures var it := Iterate(w, o, i);
            && it.outcome == Continue && it.event.Decided? && NextPending(it.world.state.steps) == |calls|
            && Extended(w.state, it.world.state, [NormalStep(c, 0)]) && it.world.state.steps[..|calls|] == w.state.steps
  {
    UnnamedNormal(c);
    hide Settled, NormalList, Signature, FreshIn, NormalStep, Unnamed, Saved, Normal, Extended;
    AllCompleted(w.state.steps);
    OneAdmitted(NormalStep(c, 0), w.state.log, w.state.steps, o.decidedAt(i));
    KnownSteps(w.state, Env(o.decidedAt(i), o.lower));
    DecideEffect(w, o, i);
    OneIsDecided(w, o, i, NormalStep(c, 0));
    NewStepPending(w.state, Iterate(w, o, i).world.state, NormalStep(c, 0));
  }

  lemma {:induction false} KnownSteps(s: ExecutionState, env: Env)
    requires Settled(s) && NormalList(s.steps)
    ensures Normal(s, env).log == s.log && Normal(s, env).steps == s.steps
  {
    SettledNormal(s, env);
    hide Normal;
  }

  lemma {:induction false} OneAdmitted(s: PlanStep, log: seq<Observation>, steps: seq<PlanStep>, now: int)
    requires s.kind == Tool && !FreshIn(log, steps, now, Signature(s))
    ensures Admitted([s], log, steps, now) == [s]
  {
    hide FreshIn, Signature;
    var used := set sig | sig in BatchSignatures([s]) && FreshIn(log, steps, now, sig);
    assert Admitted([s], log, steps, now) == Admit([s], used);
    assert Signature(s) !in used;
    assert [s][1..] == [];
  }

  lemma {:induction false} OneIsDecided(w: World, o: Oracle, i: nat, s: PlanStep)
    requires o.decide(i).Some? && o.firstSave(i) && s.kind == Tool
    requires var known := Normal(w.state, Env(o.decidedAt(i), o.lower));
             Admitted(Batch(o.decide(i).value), known.log, known.steps, o.decidedAt(i)) == [s]
    ensures DecideStep(w, o, i).event.Decided? && DecideStep(w, o, i).outcome == Continue
  {
    hide Normal, Admitted, Batch, Saved, Trim, CompletedSteps;
    var known := Normal(w.state, Env(o.decidedAt(i), o.lower));
    var batch := Admitted(Batch(o.decide(i).value), known.log, known.steps, o.decidedAt(i));
    assert batch[0].kind == Tool;
    assert !RepeatsReason(w.state.steps, batch, o.lower);
  }

  lemma {:induction false} NewStepPending(before: ExecutionState, after: ExecutionState, s: PlanStep)
    requires Extended(before, after, [s]) && CompletedSteps(before.steps) == before.steps && s.status == Pending
    requires forall j :: 0 <= j < |before.steps| ==> before.steps[j].status == Completed
    ensures NextPending(after.steps) == |before.steps| && after.steps[..|before.steps|] == before.steps
  {
    hide Settled, NormalList, CompletedSteps;
    var n := |before.steps|;
    assert SameCall(after.steps[n..][0], s);
    assert after.steps[n] == after.steps[n..][0];
    assert IsPending(after.steps[n]);
    forall j | 0 <= j < n ensures !IsPending(after.steps[j]) {
      assert after.steps[j] == after.steps[..n][j] == before.steps[j];
    }
  }

  /** A pending tool step that runs through. */
  lemma {:induction false} OneRan(w: World, o: Oracle, i: nat, k: nat)
    requires Settled(w.state) && NormalList(w.state.steps) && NextPending(w.state.steps) == k
             && w.state.steps[k].kind == Tool
    requires o.firstSave(i) && o.lastSave(i) && o.redirect(i) == None
    ensures var it := Iterate(w, o, i);
            it.outcome == Continue && it.event.Ran?
                && Performed(w.state, it.world.state, k, it.event.step, it.event.obs, o.loggedAt(i))
  {
    RunEffect(w, o, i, k);
    hide Performed, Settled, NormalList;
    ToolContinues(w, o, i, k);
  }

  lemma {:induction false} ToolContinues(w: World, o: Oracle, i: nat, k: nat)
    requires Settled(w.state) && NormalList(w.state.steps) && k < |w.state.steps| && w.state.steps[k].kind == Tool
    requires o.firstSave(i) && o.lastSave(i) && o.redirect(i) == None
    ensures RunStep(w, o, i, k).outcome == Continue
  {
    hide Settled, NormalList, Started, Saved, AppendLog, Summarize;
    StartEffect(w, o, i, k);
  }

  /** A call decided and run: the next stage. */
  lemma {:induction false} OneRound(w: World, o: Oracle, i: nat, calls: seq<PlanStep>, c: PlanStep)
    requires Stage(w.state, calls) && |calls| < LOG_MAX && Unnamed(c)
             && (forall j :: 0 <= j < |calls| ==> Unnamed(calls[j]))
    requires calls == [] || Signature(calls[|calls| - 1]) != Signature(c)
    requires o.decide(i) == Some(Decision("", [c], None)) && o.firstSave(i) && o.firstSave(i + 1) && o.lastSave(i + 1)
             && o.redirect(i + 1) == None
    ensures var d := Iterate(w, o, i);
            var r := Iterate(d.world, o, i + 1);
            && d.outcome == Continue && !d.event.Ran? && r.outcome == Continue && Stage(r.world.state, calls + [c])
            && r.event.Ran? && CallOf(r.event.step) == Some(Signature(c)) && r.event.obs.at == Some(o.loggedAt(i + 1))
  {
    hide Iterate, Settled, NormalList, Signature, Extended, Performed;
    LastLooksUp(w.state, calls, o.decidedAt(i), Signature(c));
    OneDecided(w, o, i, calls, c);
    var d := Iterate(w, o, i);
    UnnamedNormal(c);
    AllCompleted(w.state.steps);
    NewStep(w.state, d.world.state, NormalStep(c, 0));
    OneRan(d.world, o, i + 1, |calls|);
    var r := Iterate(d.world, o, i + 1);
    StageAfter(w.state, d.world.state, r.world.state, calls, c, r.event.step, r.event.obs, o.loggedAt(i + 1));
  }

  lemma {:induction false} NewStep(before: ExecutionState, after: ExecutionState, s: PlanStep)
    requires Extended(before, after, [s]) && CompletedSteps(before.steps) == before.steps
    ensures Settled(after) && NormalList(after.steps) && after.log == before.log
    ensures var n := |before.steps|;
            |after.steps| == n + 1 && SameCall(after.steps[n], s) && after.steps[..n] == before.steps
  {
    hide Settled, NormalList, CompletedSteps;
    assert SameCall(after.steps[|before.steps|..][0], s);
  }

  lemma {:induction false} StageAfter(s0: ExecutionState, s1: ExecutionState, s2: ExecutionState, calls: seq<PlanStep>,
      c: PlanStep, step: PlanStep,
                                      obs: Observation, now: int)
    requires Stage(s0, calls) && Unnamed(c) && |calls| < LOG_MAX
    requires Settled(s1) && NormalList(s1.steps) && s1.log == s0.log
    requires |s1.steps| == |calls| + 1 && SameCall(s1.steps[|calls|], NormalStep(c, 0))
             && s1.steps[..|calls|] == s0.steps
    requires Performed(s1, s2, |calls|, step, obs, now)
    ensures Stage(s2, calls + [c]) && CallOf(step) == Some(Signature(c)) && obs.at == Some(now)
  {
    hide Settled, NormalList, Signature, NormalStep, Unnamed, TrimObs;
    var n := |calls|;
    UnnamedNormal(c);
    assert "step_1" == step.id;
    NamedTrims(obs);
    SameSignature(step, s1.steps[n]);
    SameCallFacts(s1.steps[n], NormalStep(c, 0));
    StageSteps(s0.steps, s2.steps, calls, c) by {
      assert s2.steps[..n] == s0.steps;
    }
    StageLog(s0.log, s2.log, obs);
  }

  lemma {:induction false} StageSteps(before: seq<PlanStep>, after: seq<PlanStep>, calls: seq<PlanStep>, c: PlanStep)
    requires |before| == |calls| && |after| == |calls| + 1 && after[..|calls|] == before
    requires forall j :: 0 <= j < |calls| ==> SameCall(before[j], NormalStep(calls[j], 0).(status := Completed))
    requires SameCall(after[|calls|], NormalStep(c, 0).(status := Completed))
    ensures forall j :: 0 <= j < |after| ==> SameCall(after[j], NormalStep((calls + [c])[j], 0).(status := Completed))
  {
    hide SameCall, NormalStep;
    forall j | 0 <= j < |after| ensures SameCall(after[j], NormalStep((calls + [c])[j], 0).(status := Completed)) {
      if j < |calls| {
        assert after[j] == before[j] && (calls + [c])[j] == calls[j];
      }
    }
  }

  lemma {:induction false} StageLog(before: seq<Observation>, after: seq<Observation>, obs: Observation)
    requires |before| < LOG_MAX && after == LastN(LOG_MAX, before + [TrimObs(obs)]) && TrimObs(obs).stepId == "step_1"
    requires forall j :: 0 <= j < |before| ==> before[j].stepId == "step_1"
    ensures |after| == |before| + 1 && forall j :: 0 <= j < |after| ==> after[j].stepId == "step_1"
  {
    hide TrimObs;
    assert after == before + [TrimObs(obs)];
  }

  lemma {:induction false} NamedTrims(obs: Observation)
    requires obs.stepId == "step_1"
    ensures TrimObs(obs).stepId == "step_1"
  {
    assert Trimmed("step_1");
  }

  lemma {:induction false} TwoIterations(w: World, o: Oracle, n: nat)
    requires RunFor(w, o, n).outcome == Continue
    requires var d := Iterate(RunFor(w, o, n).world, o, n);
             d.outcome == Continue && !d.event.Ran? && Iterate(d.world, o, n + 1).outcome == Continue
    ensures var r := RunFor(w, o, n);
            var d := Iterate(r.world, o, n);
            var it := Iterate(d.world, o, n + 1);
            RunFor(w, o, n + 2).world == it.world && RunFor(w, o, n + 2).outcome == Continue
            && History(RunFor(w, o, n + 2).events) == History(r.events) + Logging(it.event)
  {
    hide Iterate, Logging;
    RunUnfold(w, o, n + 1);
    RunUnfold(w, o, n + 2);
    var r := RunFor(w, o, n);
    var d := Iterate(r.world, o, n);
    HistorySnoc(r.events, d.event);
    HistorySnoc(r.events + [d.event], Iterate(d.world, o, n + 1).event);
  }

  lemma {:induction false} ThreeRounds(w: World, o: Oracle, a: PlanStep, b: PlanStep)
    requires Stage(w.state, []) && Unnamed(a) && Unnamed(b) && Signature(a) != Signature(b)
    requires o == Script(map[0 := a, 2 := b, 4 := a], false, true, o.lower)
    ensures var h := History(RunFor(w, o, 6).events);
            |h| == 3 && h[0].call == h[2].call == Some(Signature(a)) && At(h[0]) == At(h[2]) == 0
  {
    hide Iterate, Stage, Unnamed, Signature, RunFor, History, TrimObs;
    RunUnfold(w, o, 0);
    assert [] + [a] == [a] && [a] + [b] == [a, b];
    OneRound(w, o, 0, [], a);
    TwoIterations(w, o, 0);
    OneRound(RunFor(w, o, 2).world, o, 2, [a], b);
    TwoIterations(w, o, 2);
    OneRound(RunFor(w, o, 4).world, o, 4, [a, b], a);
    TwoIterations(w, o, 4);
    forall obs: Observation, call | obs.at == Some(0) ensures At(Logged(TrimObs(obs), call)) == 0 {
      AtIs(obs, call, 0);
    }
  }

  lemma {:induction false} HistoryGrows(w: World, o: Oracle, n: nat, m: nat)
    requires n <= m
    ensures History(RunFor(w, o, n).events) <= History(RunFor(w, o, m).events)
  {
    hide Iterate, Logging, RunFor, History;
    if n < m {
      HistoryGrows(w, o, n, m - 1);
      RunUnfold(w, o, m);
      var r := RunFor(w, o, m - 1);
      HistorySnoc(r.events, Iterate(r.world, o, m - 1).event);
    }
  }

  /** Without ids from the model the guarantee fails: batches a, b, a without ids all become "step_1", and
      the run carries a out again two observations later, in the same second. */
  lemma {:induction false} UnnamedStepsRepeat(a: PlanStep, b: PlanStep, lower: string -> string)
    requires Unnamed(a) && Unnamed(b) && Signature(a) != Signature(b)
    ensures var o := Script(map[0 := a, 2 := b, 4 := a], false, true, lower);
            Prepared(START.state) && ClockForward(o) && !SpacedOut(History(ExecutePlan(START, o).events))
  {
    var o := Script(map[0 := a, 2 := b, 4 := a], false, true, lower);
    StartsAtStage();
    ThreeRounds(START, o, a, b);
    HistoryGrows(START, o, 6, MAX_ITERATIONS);
    hide RunFor, History, START, Signature, Unnamed, Prepared;
    var h := History(ExecutePlan(START, o).events);
    assert h[2].call.Some? && h[0].call == h[2].call && !Spent(h, 0, 2, At(h[2]));
  }

  /** A redirect whose clear the store refuses: the run returns without error and leaves an active state. */
  lemma {:induction false} RefusedClearLeavesActive(a: PlanStep, lower: string -> string)
    requires Unnamed(a)
    ensures var r := ExecutePlan(START, Script(map[0 := a], true, false, lower));
            r.outcome == Returned("done") && |r.events| == 2 && r.events[1].Redirected? && Active(r.world.stored)
  {
    hide Iterate, Stage, Unnamed, RunFor, START, Active;
    var o := Script(map[0 := a], true, false, lower);
    var d := RedirectedRun(a, o);
    hide Script;
    TwoRounds(START, o);
    RunStops(START, o, 2, MAX_ITERATIONS);
  }

  lemma {:induction false} TwoRounds(w: World, o: Oracle)
    requires Iterate(w, o, 0).outcome == Continue
    ensures var d := Iterate(w, o, 0);
            var it := Iterate(d.world, o, 1);
            RunFor(w, o, 2) == Run(it.world, it.outcome, [d.event, it.event])
  {
    hide Iterate;
    RunUnfold(w, o, 0);
    RunUnfold(w, o, 1);
    RunUnfold(w, o, 2);
  }

  lemma {:induction false} RedirectedRun(a: PlanStep, o: Oracle) returns (d: Iteration)
    requires Unnamed(a) && o == Script(map[0 := a], true, false, o.lower)
    ensures d == Iterate(START, o, 0) && d.outcome == Continue
    ensures var it := Iterate(d.world, o, 1);
            it.outcome == Returned("done") && it.event.Redirected? && Active(it.world.stored)
  {
    hide Iterate, Stage, Unnamed, Signature, START, Active;
    StartsAtStage();
    LastLooksUp(START.state, [], 0, Signature(a));
    OneDecided(START, o, 0, [], a);
    d := Iterate(START, o, 0);
    UnnamedNormal(a);
    FirstStep(START.state, d.world.state, NormalStep(a, 0));
    RedirectReturns(d.world, o, 1);
  }

  lemma {:induction false} FirstStep(before: ExecutionState, after: ExecutionState, s: PlanStep)
    requires before == START.state && Extended(before, after, [s]) && s.kind == Tool
    ensures Settled(after) && NormalList(after.steps) && |after.steps| == 1 && after.steps[0].kind == Tool
            && Trim(after.sessionId) != ""
  {
    hide Settled, NormalList;
    assert CompletedSteps([]) == [];
    assert SameCall(after.steps[0..][0], s);
    assert Trimmed("s");
  }

  lemma {:induction false} RedirectReturns(w: World, o: Oracle, i: nat)
    requires Settled(w.state) && NormalList(w.state.steps) && Trim(w.state.sessionId) != ""
             && NextPending(w.state.steps) == 0
    requires w.state.steps[0].kind == Tool && o.firstSave(i) && o.redirect(i).Some? && !o.clears(i)
    ensures var it := Iterate(w, o, i);
            it.outcome == Returned(o.redirect(i).value) && it.event.Redirected? && Active(it.world.stored)
  {
    hide Settled, NormalList, Started, Saved, Summarize, Trim, Active;
    StartEffect(w, o, i, 0);
    StartedActive(w, o, i, 0);
  }
}
