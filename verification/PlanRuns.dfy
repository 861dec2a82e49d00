/** What holds over whole runs of the plan loop: no tool call is repeated too soon, completed steps stay,
    and what a run leaves in the store. */
module PlanRuns {
  import opened Options
  import opened Sequences
  import opened Text
  import opened ExecutionStates
  import opened Decimals
  import opened PlanLoop

  // ---- No tool call is repeated while its result is recent ----

  /** An observation as logged, and the signature of the tool call it answers, if it has a named tool. */
  datatype Logged = Logged(obs: Observation, call: Option<string>)

  function At(l: Logged): int {
    if l.obs.at.Some? then l.obs.at.value else 0
  }

  function CallOf(step: PlanStep): Option<string> {
    if step.kind == Tool && step.tool != "" then Some(Signature(step)) else None
  }

  function Logging(e: Event): seq<Logged> {
    if e.Ran? then [Logged(TrimObs(e.obs), CallOf(e.step))] else []
  }

  /** Everything a run logs, oldest first. */
  function History(events: seq<Event>): seq<Logged> {
    if events == [] then [] else History(events[..|events| - 1]) + Logging(events[|events| - 1])
  }

  function Observations(h: seq<Logged>): (obs: seq<Observation>)
    ensures |obs| == |h| && forall k :: 0 <= k < |h| ==> obs[k] == h[k].obs
  {
    seq(|h|, k requires 0 <= k < |h| => h[k].obs)
  }

  /** The `k`-th of `n` logged observations has left the log, or was over a minute old at `now`. */
  predicate Spent(h: seq<Logged>, k: nat, n: nat, now: int)
    requires k < |h|
  {
    n - k > LOG_MAX || now - At(h[k]) > FRESH_SECONDS
  }

  /** Two runs of one call are more than a minute apart, or eight other observations lie between them. */
  predicate SpacedOut(h: seq<Logged>) {
    forall a, b :: 0 <= a < b < |h| && h[a].call.Some? && h[a].call == h[b].call ==> Spent(h, a, b, At(h[b]))
  }

  predicate UniqueIds(steps: seq<PlanStep>) {
    forall i, j :: 0 <= i < j < |steps| ==> steps[i].id != steps[j].id
  }

  predicate NewIds(steps: seq<PlanStep>, batch: seq<PlanStep>) {
    && UniqueIds(batch)
    && forall s, b :: s in steps && b in batch ==> s.id != b.id
  }

  predicate Answers(s: PlanStep, l: Logged) {
    s.id == l.obs.stepId && s.status == Completed && s.tool != "" && l.call == Some(Signature(s))
  }

  /** The step that made the call is still there, completed, under the id the observation names. */
  predicate Backed(l: Logged, steps: seq<PlanStep>) {
    l.call.Some? ==> l.obs.kind == "tool_result" && l.obs.at.Some? && exists s :: s in steps && Answers(s, l)
  }

  predicate PendingTool(s: PlanStep) {
    IsPending(s) && s.kind == Tool
  }

  predicate DistinctPending(steps: seq<PlanStep>) {
    forall i, j :: 0 <= i < j < |steps| && PendingTool(steps[i]) && PendingTool(steps[j])
        ==> Signature(steps[i]) != Signature(steps[j])
  }

  predicate PendingSpent(steps: seq<PlanStep>, h: seq<Logged>, now: int) {
    forall s, k :: s in steps && PendingTool(s) && 0 <= k < |h| && h[k].call == Some(Signature(s))
        ==> Spent(h, k, |h|, now)
  }

  predicate AllBacked(h: seq<Logged>, steps: seq<PlanStep>) {
    forall k :: 0 <= k < |h| ==> Backed(h[k], steps)
  }

  predicate Consistent(s: ExecutionState, before: seq<Observation>, h: seq<Logged>, now: int) {
    && Settled(s) && NormalList(s.steps) && s.log == LastN(LOG_MAX, before + Observations(h))
    && UniqueIds(s.steps) && AllBacked(h, s.steps)
    && DistinctPending(s.steps) && PendingSpent(s.steps, h, now) && SpacedOut(h)
  }

  lemma {:induction false} FindById(steps: seq<PlanStep>, s: PlanStep)
    requires UniqueIds(steps) && s in steps
    ensures StepById(steps, s.id) == Some(s)
  {
    var last := |steps| - 1;
    if steps[last] != s {
      var i :| 0 <= i < |steps| && steps[i] == s;
      assert steps[i].id != steps[last].id;
      assert steps[..last][i] == s;
      FindById(steps[..last], s);
    }
  }

  /** A backed observation still in the log makes its call fresh, unless it is over a minute old. */
  lemma {:induction false} RetainedIsFresh(s: ExecutionState, before: seq<Observation>,
      h: seq<Logged>, k: nat, now: int)
    requires s.log == LastN(LOG_MAX, before + Observations(h)) && UniqueIds(s.steps)
    requires k < |h| && h[k].call.Some? && Backed(h[k], s.steps)
    ensures Spent(h, k, |h|, now) || FreshIn(s.log, s.steps, now, h[k].call.value)
  {
    hide Signature;
    if |h| - k <= LOG_MAX {
      var all := before + Observations(h);
      var p := |before| + k - (|all| - |s.log|);
      assert s.log[p] == h[k].obs;
      var step :| step in s.steps && Answers(step, h[k]);
      FindById(s.steps, step);
      assert !Spent(h, k, |h|, now) ==> FreshEntry(s.log[p], s.steps, now, h[k].call.value);
    }
  }

  lemma {:induction false} ExtendedIds(before: seq<PlanStep>, after: seq<PlanStep>, batch: seq<PlanStep>)
    requires UniqueIds(before) && NewIds(before, batch)
    requires var kept := CompletedSteps(before);
             |after| == |kept| + |batch| && after[..|kept|] == kept && SameCalls(after[|kept|..], batch)
    ensures UniqueIds(after)
  {
    var kept := CompletedSteps(before);
    CompletedFrom(before);
    CompletedUnique(before);
    forall i, j | 0 <= i < j < |after| ensures after[i].id != after[j].id {
      assert i < |kept| ==> after[i] == after[..|kept|][i] && after[i] in kept;
      assert j < |kept| ==> after[j] == after[..|kept|][j];
      assert i >= |kept| ==> after[i] == after[|kept|..][i - |kept|] && SameCall(after[i], batch[i - |kept|]);
      assert j >= |kept| ==> after[j] == after[|kept|..][j - |kept|] && SameCall(after[j], batch[j - |kept|]);
    }
  }

  lemma {:induction false} CompletedUnique(steps: seq<PlanStep>)
    requires UniqueIds(steps)
    ensures UniqueIds(CompletedSteps(steps))
  {
    if steps != [] {
      CompletedUnique(steps[1..]);
      CompletedFrom(steps[1..]);
      forall s | s in steps[1..] ensures s.id != steps[0].id {
        var j :| 0 <= j < |steps[1..]| && steps[1..][j] == s;
        assert steps[j + 1] == s;
      }
    }
  }

  lemma {:induction false} SameCallFacts(a: PlanStep, b: PlanStep)
    requires SameCall(a, b)
    ensures Signature(a) == Signature(b) && PendingTool(a) == PendingTool(b) && CallOf(a) == CallOf(b)
  {
  }

  lemma {:induction false} ExtendedPending(before: seq<PlanStep>, after: seq<PlanStep>, batch: seq<PlanStep>)
    requires var kept := CompletedSteps(before);
             |after| == |kept| + |batch| && after[..|kept|] == kept && SameCalls(after[|kept|..], batch)
    ensures Distinct(batch) ==> DistinctPending(after)
    ensures forall s :: s in after && PendingTool(s)
                        ==> exists b :: b in batch && b.kind == Tool && Signature(b) == Signature(s)
  {
    hide Signature;
    var kept := CompletedSteps(before);
    CompletedFrom(before);
    assert forall i :: 0 <= i < |kept| ==> after[i] == after[..|kept|][i] == kept[i];
    forall i | 0 <= i < |after| && PendingTool(after[i])
      ensures i >= |kept| && batch[i - |kept|].kind == Tool && Signature(batch[i - |kept|]) == Signature(after[i])
    {
      assert after[i] == after[|kept|..][i - |kept|];
      SameCallFacts(after[i], batch[i - |kept|]);
    }
    forall s | s in after && PendingTool(s)
        ensures exists b :: b in batch && b.kind == Tool && Signature(b) == Signature(s) {
      var i :| 0 <= i < |after| && after[i] == s;
      assert batch[i - |kept|] in batch;
    }
  }

  lemma {:induction false} ExtendedBacked(before: seq<PlanStep>, after: seq<PlanStep>,
      batch: seq<PlanStep>, h: seq<Logged>)
    requires |after| == |CompletedSteps(before)| + |batch|
             && after[..|CompletedSteps(before)|] == CompletedSteps(before)
    requires AllBacked(h, before)
    ensures AllBacked(h, after)
  {
    hide Signature;
    CompletedFrom(before);
    forall k | 0 <= k < |h| ensures Backed(h[k], after) {
      assert Backed(h[k], before);
      if h[k].call.Some? {
        var s :| s in before && Answers(s, h[k]);
        assert s in CompletedSteps(before);
        assert s in after[..|CompletedSteps(before)|];
      }
    }
  }

  lemma {:induction false} DecideKeeps(s: ExecutionState, after: ExecutionState, d: Decision, before: seq<Observation>,
      h: seq<Logged>, prev: int, now: int)
    requires Consistent(s, before, h, prev)
    requires Extended(s, after, Admitted(Batch(d), s.log, s.steps, now))
    requires NewIds(s.steps, Batch(d))
    ensures Consistent(after, before, h, now)
  {
    hide Settled, NormalList, Admitted, Signature, SpacedOut, AllBacked, SameCalls, CompletedSteps, DistinctPending,
        UniqueIds, FreshIn;
    var batch := Admitted(Batch(d), s.log, s.steps, now);
    AdmittedFresh(Batch(d), s.log, s.steps, now);
    AdmittedIds(d, s.log, s.steps, now);
    ExtendedIds(s.steps, after.steps, batch);
    ExtendedBacked(s.steps, after.steps, batch, h);
    ExtendedPending(s.steps, after.steps, batch);
    forall p, k | p in after.steps && PendingTool(p) && 0 <= k < |h| && h[k].call == Some(Signature(p))
        ensures Spent(h, k, |h|, now) {
      var b :| b in batch && b.kind == Tool && Signature(b) == Signature(p);
      var j :| 0 <= j < |batch| && batch[j] == b;
      assert !FreshIn(s.log, s.steps, now, Signature(batch[j]));
      BackedAt(h, s.steps, k);
      RetainedIsFresh(s, before, h, k, now);
    }
  }

  lemma {:induction false} BackedAt(h: seq<Logged>, steps: seq<PlanStep>, k: nat)
    requires AllBacked(h, steps) && k < |h|
    ensures Backed(h[k], steps)
  {
  }

  lemma {:induction false} AdmittedIds(d: Decision, log: seq<Observation>, known: seq<PlanStep>, now: int)
    requires NewIds(known, Batch(d))
    ensures NewIds(known, Admitted(Batch(d), log, known, now))
  {
    hide FreshIn, Signature, Batch;
    AdmittedFresh(Batch(d), log, known, now);
    AdmitUnique(Batch(d), set sig | sig in BatchSignatures(Batch(d)) && FreshIn(log, known, now, sig));
    var batch := Admitted(Batch(d), log, known, now);
    forall s, b | s in known && b in batch ensures s.id != b.id {
      var j :| 0 <= j < |batch| && batch[j] == b;
      assert batch[j] in Batch(d);
    }
  }

  lemma {:induction false} AdmitUnique(steps: seq<PlanStep>, used: set<string>)
    requires UniqueIds(steps)
    ensures UniqueIds(Admit(steps, used))
    decreases |steps|
  {
    hide Signature;
    if steps != [] {
      var used' := if steps[0].kind == Tool then used + {Signature(steps[0])} else used;
      AdmitUnique(steps[1..], used);
      AdmitUnique(steps[1..], used');
      AdmitDistinct(steps[1..], used');
      forall s | s in steps[1..] ensures s.id != steps[0].id {
        var j :| 0 <= j < |steps[1..]| && steps[1..][j] == s;
        assert steps[j + 1] == s;
      }
    }
  }

  lemma {:induction false} UpdatedSteps(s: ExecutionState, after: ExecutionState, k: nat, step: PlanStep,
      obs: Observation, now: int)
    requires Performed(s, after, k, step, obs, now)
    ensures UniqueIds(s.steps) ==> UniqueIds(after.steps)
    ensures IsPending(s.steps[k]) && DistinctPending(s.steps) ==> DistinctPending(after.steps)
    ensures forall p :: p in after.steps && PendingTool(p)
                        ==> p in s.steps && exists i :: 0 <= i < |s.steps| && i != k && s.steps[i] == p
  {
    hide Signature, Settled, NormalList, UniqueIds, DistinctPending, LastN, TrimObs;
    assert after.steps[k].id == s.steps[k].id && !PendingTool(after.steps[k]) by {
      SameCallFacts(after.steps[k], step);
      SameCallFacts(step, s.steps[k].(status := Completed));
    }
    OthersPending(s.steps, after.steps, k);
    SameIds(s.steps, after.steps, k);
  }

  lemma {:induction false} SameIds(before: seq<PlanStep>, after: seq<PlanStep>, k: nat)
    requires k < |before| == |after| && after == before[k := after[k]] && after[k].id == before[k].id
    ensures UniqueIds(before) ==> UniqueIds(after)
  {
    assert forall i :: 0 <= i < |before| ==> after[i].id == before[i].id;
  }

  lemma {:induction false} OthersPending(before: seq<PlanStep>, after: seq<PlanStep>, k: nat)
    requires k < |before| == |after| && after == before[k := after[k]] && !PendingTool(after[k])
    ensures DistinctPending(before) ==> DistinctPending(after)
    ensures forall p :: p in after && PendingTool(p)
                        ==> p in before && exists i :: 0 <= i < |before| && i != k && before[i] == p
  {
    hide Signature, PendingTool;
    assert forall i :: 0 <= i < |before| && i != k ==> after[i] == before[i];
    forall p | p in after && PendingTool(p)
        ensures p in before && exists i :: 0 <= i < |before| && i != k && before[i] == p {
      var i :| 0 <= i < |after| && after[i] == p;
      assert before[i] == p;
    }
  }

  lemma {:induction false} RunKeepsBacked(s: ExecutionState, after: ExecutionState, k: nat, step: PlanStep,
      obs: Observation, h: seq<Logged>, now: int)
    requires Performed(s, after, k, step, obs, now) && IsPending(s.steps[k]) && AllBacked(h, s.steps)
             && NormalList(s.steps)
    ensures AllBacked(h + [Logged(TrimObs(obs), CallOf(step))], after.steps)
  {
    hide Signature, Settled, NormalList;
    var l := Logged(TrimObs(obs), CallOf(step));
    forall j | 0 <= j < |h| ensures Backed(h[j], after.steps) {
      assert Backed(h[j], s.steps);
      if h[j].call.Some? {
        var p :| p in s.steps && Answers(p, h[j]);
        var i :| 0 <= i < |s.steps| && s.steps[i] == p;
        assert after.steps[i] == p;
      }
    }
    assert Backed(l, after.steps) by {
      if l.call.Some? {
        TrimmedId(s.steps, k, obs, step);
        SameCallFacts(after.steps[k], step);
        assert after.steps[k] in after.steps && Answers(after.steps[k], l);
      }
    }
  }

  lemma {:induction false} TrimmedId(steps: seq<PlanStep>, k: nat, obs: Observation, step: PlanStep)
    requires NormalList(steps) && k < |steps| && step.id == steps[k].id && obs.stepId == step.id
             && obs.kind == "tool_result"
    ensures TrimObs(obs).stepId == step.id && TrimObs(obs).kind == "tool_result" && TrimObs(obs).at == obs.at
  {
    assert NormalStep(steps[k], k) == steps[k];
    StepNameTrimmed(k);
    assert Trimmed("tool_result");
    hide StepName;
  }

  lemma {:induction false} PairwiseSnoc(h: seq<Logged>, l: Logged)
    requires SpacedOut(h)
    requires forall k :: 0 <= k < |h| && h[k].call.Some? && h[k].call == l.call ==> Spent(h, k, |h|, At(l))
    ensures SpacedOut(h + [l])
  {
    var h' := h + [l];
    forall a, b | 0 <= a < b < |h'| && h'[a].call.Some? && h'[a].call == h'[b].call ensures Spent(h', a, b, At(h'[b])) {
      if b < |h| {
        assert Spent(h, a, b, At(h[b]));
      } else {
        assert Spent(h, a, |h|, At(l));
      }
    }
  }

  lemma {:induction false} RunKeeps(s: ExecutionState, after: ExecutionState, k: nat, step: PlanStep, obs: Observation,
      before: seq<Observation>, h: seq<Logged>, prev: int, now: int)
    requires Consistent(s, before, h, prev) && prev <= now
    requires Performed(s, after, k, step, obs, now) && IsPending(s.steps[k])
    ensures Consistent(after, before, h + [Logged(TrimObs(obs), CallOf(step))], now)
  {
    hide Settled, NormalList, Signature, SpacedOut, AllBacked, DistinctPending, UniqueIds, TrimObs;
    var l := Logged(TrimObs(obs), CallOf(step));
    UpdatedSteps(s, after, k, step, obs, now);
    RunKeepsBacked(s, after, k, step, obs, h, now);
    AtIs(obs, l.call, now);
    forall j | 0 <= j < |h| && h[j].call.Some? && h[j].call == l.call ensures Spent(h, j, |h|, At(l)) {
      SameCallFacts(step, s.steps[k].(status := Completed));
      assert s.steps[k] in s.steps && PendingTool(s.steps[k]);
      SignatureReads(s.steps[k]);
      assert Spent(h, j, |h|, prev);
    }
    PairwiseSnoc(h, l);
    assert Observations(h + [l]) == Observations(h) + [l.obs];
    Assoc(before, Observations(h), [l.obs]);
    LastNAppend(LOG_MAX, before + Observations(h), [l.obs]);
    RunKeepsPending(s, after, k, step, obs, h, l, prev, now);
  }

  lemma {:induction false} SignatureReads(step: PlanStep)
    ensures Signature(step.(status := Completed)) == Signature(step)
  {
  }

  lemma {:induction false} AtIs(obs: Observation, call: Option<string>, now: int)
    requires obs.at == Some(now)
    ensures At(Logged(TrimObs(obs), call)) == now
  {
  }

  lemma {:induction false} RunKeepsPending(s: ExecutionState, after: ExecutionState, k: nat, step: PlanStep,
      obs: Observation, h: seq<Logged>, l: Logged, prev: int, now: int)
    requires Performed(s, after, k, step, obs, now) && IsPending(s.steps[k]) && prev <= now
    requires DistinctPending(s.steps) && PendingSpent(s.steps, h, prev) && l.call == CallOf(step)
    ensures PendingSpent(after.steps, h + [l], now)
  {
    hide Settled, NormalList, Signature, TrimObs;
    UpdatedSteps(s, after, k, step, obs, now);
    SameCallFacts(step, s.steps[k].(status := Completed));
    SignatureReads(s.steps[k]);
    var h' := h + [l];
    assert h'[|h|].call == CallOf(s.steps[k]);
    forall p, j | p in after.steps && PendingTool(p) && 0 <= j < |h'| && h'[j].call == Some(Signature(p))
        ensures Spent(h', j, |h'|, now) {
      var i :| 0 <= i < |s.steps| && i != k && s.steps[i] == p;
      if j < |h| {
        assert Spent(h, j, |h|, prev);
      }
    }
  }

  /** Every batch the model proposes has new, distinct ids. */
  ghost predicate IdsAreNew(w: World, o: Oracle) {
    forall n: nat :: n < MAX_ITERATIONS && RunFor(w, o, n).outcome == Continue && o.decide(n).Some?
      ==> NewIds(RunFor(w, o, n).world.state.steps, Batch(o.decide(n).value))
  }

  /** A state as prepareExecutionState leaves it. */
  predicate Prepared(s: ExecutionState) {
    Settled(s) && NormalList(s.steps) && UniqueIds(s.steps) && NextPending(s.steps) < 0 && s.sessionId != ""
  }

  lemma {:induction false} RunConsistent(w: World, o: Oracle, n: nat)
    requires Prepared(w.state) && ClockForward(o) && IdsAreNew(w, o) && n <= MAX_ITERATIONS
    ensures var r := RunFor(w, o, n);
            && SpacedOut(History(r.events))
            && (r.outcome == Continue ==> Consistent(r.world.state, w.state.log, History(r.events), o.decidedAt(n)))
  {
    hide Iterate, Settled, NormalList, Consistent, SpacedOut, UniqueIds, ClockForward, IdsAreNew, RunFor, History;
    RunUnfold(w, o, n);
    if n == 0 {
      StartsConsistent(w, o.decidedAt(0));
    } else {
      RunConsistent(w, o, n - 1);
      var r := RunFor(w, o, n - 1);
      if r.outcome == Continue {
        IterateConsistent(w, o, r, n - 1);
      }
    }
  }

  lemma {:induction false} RunUnfold(w: World, o: Oracle, n: nat)
    ensures n == 0 ==> RunFor(w, o, n) == Run(w, Continue, [])
    ensures n > 0 ==>
              var r := RunFor(w, o, n - 1);
              RunFor(w, o, n) == if r.outcome != Continue then r else
                                   var it := Iterate(r.world, o, n - 1);
                                   Run(it.world, it.outcome, r.events + [it.event])
    ensures History([]) == []
  {
    hide Iterate;
  }

  lemma {:induction false} StartsConsistent(w: World, now: int)
    requires Prepared(w.state)
    ensures SpacedOut([]) && Consistent(w.state, w.state.log, [], now)
  {
    hide NormalList;
    assert w.state.log + Observations([]) == w.state.log;
    assert forall s :: s in w.state.steps ==> !IsPending(s);
  }

  lemma {:induction false} HistorySnoc(events: seq<Event>, e: Event)
    ensures History(events + [e]) == History(events) + Logging(e)
    ensures !e.Ran? ==> History(events + [e]) == History(events)
  {
    assert (events + [e])[..|events|] == events;
  }

  lemma {:induction false} DecideConsistent(w: World, o: Oracle, n: nat, before: seq<Observation>, h: seq<Logged>)
    requires ClockForward(o) && Consistent(w.state, before, h, o.decidedAt(n))
    requires o.decide(n).Some? ==> NewIds(w.state.steps, Batch(o.decide(n).value))
    ensures var it := DecideStep(w, o, n);
            !it.event.Ran? && (it.outcome == Continue ==> Consistent(it.world.state, before, h, o.decidedAt(n + 1)))
  {
    hide DecideStep, Consistent, Extended, NewIds, Settled, NormalList;
    ConsistentFacts(w.state, before, h, o.decidedAt(n));
    DecideEffect(w, o, n);
    var it := DecideStep(w, o, n);
    if it.event.Decided? {
      DecideKeeps(w.state, it.world.state, o.decide(n).value, before, h, o.decidedAt(n), o.decidedAt(n));
      ConsistentLater(it.world.state, before, h, o.decidedAt(n), o.decidedAt(n + 1));
    }
  }

  lemma {:induction false} RunStepConsistent(w: World, o: Oracle, n: nat, k: nat,
      before: seq<Observation>, h: seq<Logged>)
    requires ClockForward(o) && Consistent(w.state, before, h, o.decidedAt(n))
    requires k < |w.state.steps| && IsPending(w.state.steps[k])
    ensures var it := RunStep(w, o, n, k);
            && (it.outcome == Continue ==> it.event.Ran?)
            && (it.event.Ran? ==> Consistent(it.world.state, before, h + Logging(it.event), o.decidedAt(n + 1)))
  {
    hide RunStep, Consistent, Performed, Settled, NormalList;
    ConsistentFacts(w.state, before, h, o.decidedAt(n));
    RunEffect(w, o, n, k);
    var it := RunStep(w, o, n, k);
    if it.event.Ran? {
      RunKeeps(w.state, it.world.state, k, it.event.step, it.event.obs, before, h, o.decidedAt(n), o.loggedAt(n));
      ConsistentLater(it.world.state, before, h + Logging(it.event), o.loggedAt(n), o.decidedAt(n + 1));
    }
  }

  lemma {:induction false} IterateConsistent(w: World, o: Oracle, r: Run, n: nat)
    requires r == RunFor(w, o, n) && n < MAX_ITERATIONS && r.outcome == Continue
    requires ClockForward(o) && IdsAreNew(w, o)
    requires SpacedOut(History(r.events)) && Consistent(r.world.state, w.state.log, History(r.events), o.decidedAt(n))
    ensures var it := Iterate(r.world, o, n);
            var h := History(r.events + [it.event]);
            && SpacedOut(h)
            && (it.outcome == Continue ==> Consistent(it.world.state, w.state.log, h, o.decidedAt(n + 1)))
  {
    hide DecideStep, RunStep, Consistent, SpacedOut, NewIds, RunFor, History, Logging;
    var it := Iterate(r.world, o, n);
    HistorySnoc(r.events, it.event);
    var k := NextPending(r.world.state.steps);
    if k < 0 {
      DecideConsistent(r.world, o, n, w.state.log, History(r.events));
    } else {
      RunStepConsistent(r.world, o, n, k, w.state.log, History(r.events));
      if it.event.Ran? {
        ConsistentFacts(it.world.state, w.state.log, History(r.events) + Logging(it.event), o.decidedAt(n + 1));
      }
    }
  }

  lemma {:induction false} ConsistentFacts(s: ExecutionState, before: seq<Observation>, h: seq<Logged>, now: int)
    requires Consistent(s, before, h, now)
    ensures Settled(s) && NormalList(s.steps) && SpacedOut(h)
  {
  }

  lemma {:induction false} ConsistentLater(s: ExecutionState, before: seq<Observation>, h: seq<Logged>,
      now: int, later: int)
    requires Consistent(s, before, h, now) && now <= later
    ensures Consistent(s, before, h, later) && SpacedOut(h)
  {
    hide Settled, NormalList, UniqueIds, AllBacked, DistinctPending, Signature;
    forall p, k | p in s.steps && PendingTool(p) && 0 <= k < |h| && h[k].call == Some(Signature(p))
        ensures Spent(h, k, |h|, later) {
      assert Spent(h, k, |h|, now);
    }
  }

  /** In every run from a prepared state whose batches have new, distinct ids: whenever the same tool call
      is carried out twice, the two results are more than sixty seconds apart or at least eight other
      observations were logged between them. */
  lemma {:induction false} NoCallRepeatedSoon(w: World, o: Oracle)
    requires Prepared(w.state) && ClockForward(o) && IdsAreNew(w, o)
    ensures SpacedOut(History(ExecutePlan(w, o).events))
  {
    RunConsistent(w, o, MAX_ITERATIONS);
  }

  // ---- Completed steps stay completed ----

  lemma {:induction false} CompletedUpdate(steps: seq<PlanStep>, k: nat, step: PlanStep)
    requires k < |steps| && steps[k].status != Completed
    ensures multiset(CompletedSteps(steps[k := step]))
            == multiset(CompletedSteps(steps)) + if step.status == Completed then multiset{step} else multiset{}
  {
    var out := steps[k := step];
    if k == 0 {
      assert out[1..] == steps[1..];
    } else {
      assert out[1..] == steps[1..][k - 1 := step];
      CompletedUpdate(steps[1..], k - 1, step);
    }
  }

  lemma {:induction false} CompletedConcat(a: seq<PlanStep>, b: seq<PlanStep>)
    ensures CompletedSteps(a + b) == CompletedSteps(a) + CompletedSteps(b)
  {
    if a == [] {
      assert a + b == b;
    } else {
      assert (a + b)[1..] == a[1..] + b;
      CompletedConcat(a[1..], b);
    }
  }

  lemma {:induction false} CompletedFixed(steps: seq<PlanStep>)
    requires forall j :: 0 <= j < |steps| ==> steps[j].status == Completed
    ensures CompletedSteps(steps) == steps
  {
    if steps != [] {
      CompletedFixed(steps[1..]);
    }
  }

  /** A decision adds to the completed steps exactly those of its batch that the model itself presented as
      completed, in order: such steps are recorded without having run. */
  lemma {:induction false} DecisionCompletes(before: ExecutionState, after: ExecutionState, batch: seq<PlanStep>)
    requires Extended(before, after, batch)
    ensures var kept, done := CompletedSteps(before.steps), CompletedSteps(after.steps);
            kept <= done && SameCalls(done[|kept|..], CompletedSteps(batch))
  {
    hide Settled, NormalList;
    var kept := CompletedSteps(before.steps);
    var tail := after.steps[|kept|..];
    assert after.steps == kept + tail;
    CompletedConcat(kept, tail);
    CompletedFrom(before.steps);
    CompletedFixed(kept);
    CompletedSame(tail, batch);
  }

  lemma {:induction false} CompletedSame(a: seq<PlanStep>, b: seq<PlanStep>)
    requires SameCalls(a, b)
    ensures SameCalls(CompletedSteps(a), CompletedSteps(b))
  {
    if a != [] {
      assert SameCall(a[0], b[0]);
      forall j | 0 <= j < |a[1..]| ensures SameCall(a[1..][j], b[1..][j]) {
        assert SameCall(a[j + 1], b[j + 1]);
      }
      CompletedSame(a[1..], b[1..]);
    }
  }

  /** Whatever becomes of a step that is run, it is the only one touched. */
  lemma {:induction false} RunTouchesOne(w: World, o: Oracle, i: nat, k: nat)
    requires Settled(w.state) && NormalList(w.state.steps) && k < |w.state.steps|
    ensures TouchesOne(w.state, RunStep(w, o, i, k).world.state, k)
  {
    hide Performed, Saved, NormalWaiting, Summarize, Trim, Started, Finish, NormalList, Settled, NormalSteps;
    StartEffect(w, o, i, k);
    RunEffect(w, o, i, k);
    FinishShape(w, o, i, k);
    var it := RunStep(w, o, i, k);
    if it.event.Ran? {
      PerformedFacts(w.state, it.world.state, k, it.event.step, it.event.obs, o.loggedAt(i));
    } else if o.firstSave(i) {
      StopTouchesOne(w, o, i, k);
    }
  }

  /** Only step `k` has changed, in status, title and results, and the state can be saved. */
  predicate TouchesOne(before: ExecutionState, after: ExecutionState, k: nat)
    requires k < |before.steps|
  {
    && |after.steps| == |before.steps| && after.steps == before.steps[k := after.steps[k]] && NormalList(after.steps)
    && SameCall(after.steps[k], before.steps[k].(status := after.steps[k].status))
    && after.sessionId == before.sessionId && Settled(after)
  }

  /** An iteration that stops at a started step. */
  lemma {:induction false} StopTouchesOne(w: World, o: Oracle, i: nat, k: nat)
    requires Settled(w.state) && NormalList(w.state.steps) && k < |w.state.steps|
    requires o.firstSave(i) && !RunStep(w, o, i, k).event.Ran?
    ensures TouchesOne(w.state, RunStep(w, o, i, k).world.state, k)
  {
    hide Performed, Saved, NormalWaiting, Summarize, Trim, Started, Finish, NormalList, Settled, NormalSteps;
    StartEffect(w, o, i, k);
    FinishShape(w, o, i, k);
    var w1 := Started(w, o, i, k);
    var it := RunStep(w, o, i, k);
    var env := Env(o.loggedAt(i), o.lower);
    var step := w1.state.steps[k];
    if step.kind == Reason && o.reason(i) == None {
      SavedUpdate(w1, it.world.state, step.(status := Failed),
          WithStep(w1.state, k, step.(status := Failed)).(status := Aborted), o.lastSave(i), env, k);
    } else if step.kind == AskUser {
      var question := if Trim(step.instruction) == "" then o.question else Trim(step.instruction);
      var waiting := NormalWaiting(Some(o.waitingFor(i).(question := Trim(question))), env);
      var asked := step.(status := Completed, output := question);
      SavedUpdate(w1, it.world.state, asked,
          WithStep(w1.state, k, asked).(status := WaitingUser, waiting := waiting, answer := question,
          at := Some(env.now)), o.lastSave(i), env, k);
    } else if step.kind == Respond && o.respond(i).Some? {
      var text := o.respond(i).value;
      var done := step.(status := Completed, output := text);
      SavedUpdate(w1, it.world.state, done,
          WithStep(w1.state, k, done).(status := Done, waiting := None, answer := text, currentStep := "",
          at := Some(env.now)), o.lastSave(i), env, k);
    }
  }

  lemma {:induction false} PerformedFacts(before: ExecutionState, after: ExecutionState, k: nat, step: PlanStep,
      obs: Observation, now: int)
    requires Performed(before, after, k, step, obs, now)
    ensures |after.steps| == |before.steps| && after.steps == before.steps[k := after.steps[k]]
            && NormalList(after.steps) && Settled(after)
    ensures SameCall(after.steps[k], before.steps[k].(status := after.steps[k].status))
    ensures after.sessionId == before.sessionId
  {
    hide Settled, NormalList;
  }

  lemma {:induction false} SavedUpdate(w: World, after: ExecutionState, step: PlanStep, s: ExecutionState,
      ok: bool, env: Env, k: nat)
    requires Settled(w.state) && NormalList(w.state.steps) && k < |w.state.steps|
    requires SameCall(step, w.state.steps[k].(status := step.status)) && step.status != NoStatus
    requires s.steps == w.state.steps[k := step]
    requires s.log == w.state.log && s.notes == w.state.notes && s.observations == w.state.observations
             && s.sessionId == w.state.sessionId
    requires after == Saved(World(s, w.stored), ok, env).state
    ensures |after.steps| == |w.state.steps| && after.steps == w.state.steps[k := after.steps[k]]
            && NormalList(after.steps) && Settled(after)
    ensures SameCall(after.steps[k], step) && after.sessionId == w.state.sessionId
  {
    hide Normal, Settled, NormalSteps;
    NormalUpdate(w.state.steps, k, step);
    SavedSteps(World(s, w.stored), ok, env);
    SettledReads(w.state, after);
  }

  predicate Sound(s: ExecutionState) {
    Settled(s) && NormalList(s.steps)
  }

  lemma {:induction false} IterateKeepsCompleted(w: World, o: Oracle, i: nat)
    requires Sound(w.state)
    ensures var it := Iterate(w, o, i);
            && Sound(it.world.state) && it.world.state.sessionId == w.state.sessionId
            && multiset(CompletedSteps(w.state.steps)) <= multiset(CompletedSteps(it.world.state.steps))
  {
    hide DecideStep, RunStep, Extended, Settled, NormalList, CompletedSteps;
    var k := NextPending(w.state.steps);
    var after := Iterate(w, o, i).world.state;
    if k >= 0 {
      RunTouchesOne(w, o, i, k);
      CompletedUpdate(w.state.steps, k, after.steps[k]);
    } else {
      DecideEffect(w, o, i);
      if DecideStep(w, o, i).event.Decided? {
        var batch := Admitted(Batch(o.decide(i).value), w.state.log, w.state.steps, o.decidedAt(i));
        DecisionCompletes(w.state, after, batch);
        ExtendedFacts(w.state, after, batch);
        PrefixMultiset(CompletedSteps(w.state.steps), CompletedSteps(after.steps));
      } else {
        RefusedFacts(w, o, i);
      }
    }
  }

  lemma {:induction false} ExtendedFacts(before: ExecutionState, after: ExecutionState, batch: seq<PlanStep>)
    requires Extended(before, after, batch)
    ensures Sound(after) && after.sessionId == before.sessionId
  {
    hide Settled, NormalList, CompletedSteps, SameCalls;
  }

  lemma {:induction false} RefusedFacts(w: World, o: Oracle, i: nat)
    requires Sound(w.state) && DecideStep(w, o, i).event == Refused
    ensures Sound(DecideStep(w, o, i).world.state) && DecideStep(w, o, i).world.state.sessionId == w.state.sessionId
  {
    hide Normal, Admitted, RepeatsReason, Trim, CompletedSteps, IsCleanObs;
  }

  lemma {:induction false} PrefixMultiset(a: seq<PlanStep>, b: seq<PlanStep>)
    requires a <= b
    ensures multiset(a) <= multiset(b)
  {
    assert b == a + b[|a|..];
  }

  /** In any run, a step once completed is there, unchanged, after every later iteration. */
  lemma {:induction false} CompletedStepsStay(w: World, o: Oracle, m: nat, n: nat)
    requires Sound(w.state) && m <= n
    ensures var before, after := RunFor(w, o, m).world.state, RunFor(w, o, n).world.state;
            && Sound(after) && after.sessionId == w.state.sessionId
            && multiset(CompletedSteps(before.steps)) <= multiset(CompletedSteps(after.steps))
    decreases n
  {
    hide Iterate, Sound, CompletedSteps;
    RunUnfold(w, o, n);
    if m < n {
      CompletedStepsStay(w, o, m, n - 1);
      IterateKeepsCompleted(RunFor(w, o, n - 1).world, o, n - 1);
    } else if n > 0 {
      CompletedStepsStay(w, o, n - 1, n - 1);
      IterateKeepsCompleted(RunFor(w, o, n - 1).world, o, n - 1);
    }
  }

  // ---- What a run leaves in the store ----

  /** hasActiveExecutionState of what the store holds. */
  predicate Active(stored: Option<ExecutionState>) {
    && stored.Some? && Trim(stored.value.sessionId) != ""
    && (stored.value.status == Planning || stored.value.status == RunningPlan || stored.value.status == WaitingUser)
  }

  lemma {:induction false} NormalKeeps(s: ExecutionState, env: Env)
    ensures Normal(s, env).sessionId == s.sessionId && (s.status != NoRun ==> Normal(s, env).status == s.status)
  {
    hide CleanAll, Compact, NormalReferences, NormalHistory, NormalWaiting, NormalSteps, Trim;
  }

  lemma {:induction false} SavedStore(w: World, env: Env)
    requires w.state.sessionId != "" && w.state.status != NoRun
    ensures var stored := Saved(w, true, env).stored;
            stored.Some? && stored.value.sessionId == w.state.sessionId && stored.value.status == w.state.status
  {
    hide Normal, NormalSteps;
    NormalKeeps(w.state, env);
  }

  /** The event leaves an active state in the store: the user was asked, or a redirect could not clear it. */
  predicate LeavesActive(e: Event, cleared: bool) {
    e.Asked? || (e.Redirected? && !cleared)
  }

  lemma {:induction false} ReturnStores(w: World, o: Oracle, i: nat)
    requires Trim(w.state.sessionId) != "" && Sound(w.state)
    ensures var it := Iterate(w, o, i);
            it.outcome.Returned? ==> (Active(it.world.stored) <==> LeavesActive(it.event, o.clears(i)))
  {
    var k := NextPending(w.state.steps);
    if k < 0 {
      DecideNeverReturns(w, o, i);
    } else {
      ReturnedRun(w, o, i, k);
    }
    hide DecideStep, RunStep, Trim, Active;
  }

  lemma {:induction false} DecideNeverReturns(w: World, o: Oracle, i: nat)
    ensures !DecideStep(w, o, i).outcome.Returned?
  {
    hide Normal, Admitted, RepeatsReason, Trim, CompletedSteps, Saved;
  }

  /** Saving the step as running leaves an active state. */
  lemma {:induction false} StartedActive(w: World, o: Oracle, i: nat, k: nat)
    requires Trim(w.state.sessionId) != "" && k < |w.state.steps| && o.firstSave(i)
    ensures Active(Started(w, o, i, k).stored)
  {
    hide Trim, Saved;
    EmptyTrim();
    var now := o.loggedAt(i);
    var running := w.state.steps[k].(status := Running);
    var started := WithStep(w.state, k, running).(status := RunningPlan, currentStep := w.state.steps[k].id,
        at := Some(now));
    SavedStore(World(started, w.stored), Env(now, o.lower));
  }

  lemma {:induction false} ReturnedRun(w: World, o: Oracle, i: nat, k: nat)
    requires Trim(w.state.sessionId) != "" && Sound(w.state) && k < |w.state.steps|
    ensures var it := RunStep(w, o, i, k);
            it.outcome.Returned? ==> (Active(it.world.stored) <==> LeavesActive(it.event, o.clears(i)))
  {
    hide NormalWaiting, Summarize, Trim, Started, Saved, Settled, NormalList;
    StartEffect(w, o, i, k);
    EmptyTrim();
    var w1 := Started(w, o, i, k);
    var env := Env(o.loggedAt(i), o.lower);
    var step := w1.state.steps[k];
    if o.firstSave(i) {
      StartedActive(w, o, i, k);
    }
    if o.firstSave(i) && step.kind == AskUser {
      var question := if Trim(step.instruction) == "" then o.question else Trim(step.instruction);
      var waiting := NormalWaiting(Some(o.waitingFor(i).(question := Trim(question))), env);
      var done := WithStep(w1.state, k, step.(status := Completed, output := question));
      SavedStore(World(done.(status := WaitingUser, waiting := waiting, answer := question, at := Some(env.now)),
          w1.stored), env);
    } else if o.firstSave(i) && step.kind == Respond && o.respond(i).Some? {
      var text := o.respond(i).value;
      var done := WithStep(w1.state, k, step.(status := Completed, output := text));
      SavedStore(World(done.(status := Done, waiting := None, answer := text, currentStep := "", at := Some(env.now)),
          w1.stored), env);
    }
  }

  lemma {:induction false} EmptyTrim()
    ensures Trim("") == ""
  {
  }

  /** A run that returns without error leaves an active state in the store exactly when it stopped to ask
      the user, or redirected and the store refused to be cleared. */
  lemma {:induction false} ReturnLeavesActive(w: World, o: Oracle)
    requires Trim(w.state.sessionId) != "" && Sound(w.state)
    ensures var r := ExecutePlan(w, o);
            var last := |r.events| - 1;
            r.outcome.Returned? ==>
                last >= 0 && (Active(r.world.stored) <==> LeavesActive(r.events[last], o.clears(last)))
  {
    hide RunFor, Sound, Trim, Active, LeavesActive;
    ReturnWithin(w, o, MAX_ITERATIONS);
  }

  lemma {:induction false} ReturnWithin(w: World, o: Oracle, n: nat)
    requires Trim(w.state.sessionId) != "" && Sound(w.state)
    ensures var r := RunFor(w, o, n);
            var last := |r.events| - 1;
            r.outcome.Returned? ==>
                last >= 0 && (Active(r.world.stored) <==> LeavesActive(r.events[last], o.clears(last)))
  {
    hide Iterate, Sound, Trim, Active, RunFor, LeavesActive;
    RunUnfold(w, o, n);
    if n > 0 {
      ReturnWithin(w, o, n - 1);
      CompletedStepsStay(w, o, n - 1, n - 1);
      RunLength(w, o, n - 1);
      ReturnStores(RunFor(w, o, n - 1).world, o, n - 1);
    }
  }

  lemma {:induction false} RunStops(w: World, o: Oracle, m: nat, n: nat)
    requires m <= n && RunFor(w, o, m).outcome != Continue
    ensures RunFor(w, o, n) == RunFor(w, o, m)
  {
    hide Iterate;
    if m < n {
      RunStops(w, o, m, n - 1);
    }
  }
}
