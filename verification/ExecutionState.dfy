/** agent/execution_state.go: the plan state, its normal form, and its bounded execution log. */
module ExecutionStates {
  import opened Options
  import opened Sequences
  import opened Text
  import opened Decimals
  import opened StringLists

  datatype StepKind = NoKind | Tool | Reason | AskUser | Respond | OtherKind(name: string)
  datatype StepStatus = NoStatus | Pending | Running | Completed | Failed | OtherStatus(name: string)
  datatype RunStatus = NoRun | Planning | RunningPlan | WaitingUser | Done | Aborted | OtherRun(name: string)

  /** `args` is the canonical JSON text of the tool arguments. */
  datatype PlanStep = PlanStep(id: string, kind: StepKind, title: string, status: StepStatus,
      tool: string, args: string,
                               instruction: string, needsConfirmation: bool, output: string, error: string)

  /** Time stamps are RFC 3339 texts in UTC: here whole seconds, None for the empty text. */
  datatype Observation = Observation(stepId: string, kind: string, summary: string, raw: string, at: Option<int>)
  datatype Entity = Entity(id: string, name: string, source: string, at: Option<int>)
  datatype References = References(strategy: Option<Entity>, trader: Option<Entity>, model: Option<Entity>,
      exchange: Option<Entity>)
  datatype ReferenceRecord = ReferenceRecord(kind: string, id: string, name: string, source: string, at: Option<int>)
  datatype Waiting = Waiting(question: string, intent: string, fields: seq<string>, target: string, at: Option<int>)

  datatype ExecutionState = ExecutionState(
    sessionId: string, userId: int, goal: string, status: RunStatus, planId: string, steps: seq<PlanStep>,
    currentStep: string,
    references: Option<References>, history: seq<ReferenceRecord>, snapshots: seq<Observation>, log: seq<Observation>,
    notes: seq<Observation>, waiting: Option<Waiting>, observations: seq<Observation>, answer: string,
    lastError: string,
    at: Option<int>)

  /** What a normalisation takes from outside: the clock's second, and strings.ToLower. */
  datatype Env = Env(now: int, lower: string -> string)

  const LOG_MAX := 8
  const NOTES_MAX := 4
  const HISTORY_MAX := 12
  const SUMMARY_MAX := 500

  function Stamped(at: Option<int>, now: int): Option<int> {
    if at == None then Some(now) else at
  }

  // ---- Observations ----

  function TrimObs(o: Observation): Observation {
    o.(stepId := Trim(o.stepId), kind := Trim(o.kind), summary := Trim(o.summary), raw := Trim(o.raw))
  }

  predicate EmptyObs(o: Observation) {
    o.kind == "" && o.summary == "" && o.raw == ""
  }

  function CleanObs(o: Observation, now: int): seq<Observation> {
    var t := TrimObs(o);
    if EmptyObs(t) then [] else [t.(at := Stamped(t.at, now))]
  }

  function CleanAll(values: seq<Observation>, now: int): seq<Observation> {
    if values == [] then [] else CleanObs(values[0], now) + CleanAll(values[1..], now)
  }

  predicate IsCleanObs(o: Observation) {
    Trimmed(o.stepId) && Trimmed(o.kind) && Trimmed(o.summary) && Trimmed(o.raw) && !EmptyObs(o) && o.at.Some?
  }

  /** An observation is kept, trimmed and stamped, if it has a kind, a summary or a raw text. */
  lemma {:induction false} ObservationKept(o: Observation, now: int)
    ensures CleanObs(o, now)
            == if Trim(o.kind) == "" && Trim(o.summary) == "" && Trim(o.raw) == "" then []
               else [Observation(Trim(o.stepId), Trim(o.kind), Trim(o.summary), Trim(o.raw), if o.at == None then
                   Some(now) else o.at)]
  {
    hide Trim;
  }

  predicate AllClean(values: seq<Observation>) {
    forall i :: 0 <= i < |values| ==> IsCleanObs(values[i])
  }

  method NormalizeObservationList(values: seq<Observation>, now: int) returns (out: seq<Observation>)
    ensures out == CleanAll(values, now)
  {
    hide TrimObs;
    out := [];
    ghost var rest := CleanAll(values, now);
    assert values[0..] == values;
    for i := 0 to |values|
      invariant CleanAll(values, now) == out + rest
      invariant rest == CleanAll(values[i..], now)
    {
      DropStep(values, i);
      rest := CleanAll(values[i + 1..], now);
      Assoc(out, CleanObs(values[i], now), rest);
      var value := TrimObs(values[i]);
      if value.kind == "" && value.summary == "" && value.raw == "" {
        continue;
      }
      if value.at == None {
        value := value.(at := Some(now));
      }
      out := out + [value];
    }
    assert values[|values|..] == [];
  }

  lemma {:induction false} CleanAllIsClean(values: seq<Observation>, now: int)
    ensures AllClean(CleanAll(values, now))
  {
    if values != [] {
      CleanAllIsClean(values[1..], now);
    }
  }

  lemma {:induction false} CleanAllFixed(values: seq<Observation>, now: int)
    requires AllClean(values)
    ensures CleanAll(values, now) == values
  {
    if values != [] {
      assert IsCleanObs(values[0]);
      CleanAllFixed(values[1..], now);
    }
  }

  lemma {:induction false} CleanAllConcat(a: seq<Observation>, b: seq<Observation>, now: int)
    ensures CleanAll(a + b, now) == CleanAll(a, now) + CleanAll(b, now)
  {
    hide CleanObs;
    if a == [] {
      assert a + b == b;
    } else {
      assert (a + b)[1..] == a[1..] + b;
      CleanAllConcat(a[1..], b, now);
      Assoc(CleanObs(a[0], now), CleanAll(a[1..], now), CleanAll(b, now));
    }
  }

  // ---- The compacted log ----

  function Line(o: Observation): seq<string> {
    var kind := if o.kind == "" then "observation" else o.kind;
    if o.summary != "" then [kind + ": " + o.summary]
    else if o.raw != "" then [kind + ": " + o.raw]
    else []
  }

  function Lines(values: seq<Observation>): seq<string> {
    if values == [] then [] else Line(values[0]) + Lines(values[1..])
  }

  function Join(parts: seq<string>): string {
    if parts == [] then "" else if |parts| == 1 then parts[0] else parts[0] + " | " + Join(parts[1..])
  }

  function Shorten(text: string): string {
    if |text| > SUMMARY_MAX then text[..SUMMARY_MAX] + "..." else text
  }

  /** summarizeExecutionOverflow: at most one note. */
  function NoteOf(values: seq<Observation>, now: int): seq<Observation> {
    if Lines(values) == [] then []
    else [Observation("", "execution_summary", Shorten(Join(Lines(values))), "", Some(now))]
  }

  predicate HasText(o: Observation) {
    o.summary != "" || o.raw != ""
  }

  datatype Compacted = Compacted(log: seq<Observation>, notes: seq<Observation>)

  /** compactExecutionLog: notes are cut in the overflow case only when a note was produced. */
  function Compact(log: seq<Observation>, notes: seq<Observation>, now: int): Compacted {
    if |log| <= LOG_MAX then Compacted(log, LastN(NOTES_MAX, notes))
    else
      var note := NoteOf(log[..|log| - LOG_MAX], now);
      Compacted(LastN(LOG_MAX, log), if note == [] then notes else LastN(NOTES_MAX, notes + note))
  }

  method CompactExecutionLog(log: seq<Observation>, notes: seq<Observation>, now: int)
    returns (newLog: seq<Observation>, newNotes: seq<Observation>)
    ensures Compacted(newLog, newNotes) == Compact(log, notes, now)
  {
    newLog, newNotes := log, notes;
    if |newLog| <= LOG_MAX {
      if |newNotes| > NOTES_MAX {
        newNotes := newNotes[|newNotes| - NOTES_MAX..];
      }
      return;
    }
    var overflow := newLog[..|newLog| - LOG_MAX];
    newLog := newLog[|newLog| - LOG_MAX..];
    var summary := SummarizeOverflow(overflow, now);
    if summary != None {
      newNotes := newNotes + [summary.value];
      if |newNotes| > NOTES_MAX {
        newNotes := newNotes[|newNotes| - NOTES_MAX..];
      }
    }
  }

  method SummarizeOverflow(values: seq<Observation>, now: int) returns (summary: Option<Observation>)
    ensures (if summary == None then [] else [summary.value]) == NoteOf(values, now)
  {
    hide Line, Join;
    var summaries: seq<string> := [];
    ghost var rest := Lines(values);
    assert values[0..] == values;
    for i := 0 to |values|
      invariant Lines(values) == summaries + rest
      invariant rest == Lines(values[i..])
    {
      DropStep(values, i);
      rest := Lines(values[i + 1..]);
      Assoc(summaries, Line(values[i]), rest);
      summaries := summaries + Line(values[i]);
    }
    assert values[|values|..] == [] && summaries + [] == summaries;
    if |summaries| == 0 {
      return None;
    }
    return Some(Observation("", "execution_summary", Shorten(Join(summaries)), "", Some(now)));
  }

  predicate NoText(values: seq<Observation>) {
    forall o :: o in values ==> !HasText(o)
  }

  lemma {:induction false} NoLines(values: seq<Observation>)
    ensures Lines(values) == [] <==> NoText(values)
  {
    if values != [] {
      NoLines(values[1..]);
      assert values == [values[0]] + values[1..];
      assert NoText(values) <==> !HasText(values[0]) && NoText(values[1..]);
    }
  }

  predicate Solid(s: string) {
    s != "" && Trimmed(s)
  }

  lemma {:induction false} LinesSolid(values: seq<Observation>)
    requires AllClean(values)
    ensures forall i :: 0 <= i < |Lines(values)| ==> Solid(Lines(values)[i])
  {
    if values != [] {
      assert IsCleanObs(values[0]);
      LinesSolid(values[1..]);
    }
  }

  lemma {:induction false} JoinSolid(parts: seq<string>)
    requires parts != [] && forall i :: 0 <= i < |parts| ==> Solid(parts[i])
    ensures Solid(Join(parts))
  {
    if |parts| > 1 {
      JoinSolid(parts[1..]);
      var j := Join(parts[1..]);
      assert Join(parts)[|Join(parts)| - 1] == j[|j| - 1];
    }
  }

  lemma {:induction false} NoteIsClean(values: seq<Observation>, now: int)
    requires AllClean(values)
    ensures AllClean(NoteOf(values, now))
  {
    if Lines(values) != [] {
      LinesSolid(values);
      JoinSolid(Lines(values));
      var text := Join(Lines(values));
      assert Trimmed("execution_summary");
      assert |text| > SUMMARY_MAX ==> Shorten(text)[0] == text[0] && Shorten(text)[|Shorten(text)| - 1] == '.';
    }
  }

  lemma {:induction false} CompactIsClean(log: seq<Observation>, notes: seq<Observation>, now: int)
    requires AllClean(log) && AllClean(notes)
    ensures AllClean(Compact(log, notes, now).log) && AllClean(Compact(log, notes, now).notes)
    ensures |Compact(log, notes, now).log| <= LOG_MAX
  {
    if |log| > LOG_MAX {
      NoteIsClean(log[..|log| - LOG_MAX], now);
    }
  }

  /** What a note says of one observation: its kind and its summary, or what there is without one. */
  function Told(o: Observation): string {
    (if o.kind == "" then "observation" else o.kind) + ": " + (if o.summary != "" then o.summary else o.raw)
  }

  lemma {:induction false} LinesTell(values: seq<Observation>, o: Observation)
    requires o in values && HasText(o)
    ensures Told(o) in Lines(values)
  {
    if o == values[0] {
      assert Line(o) == [Told(o)];
    } else {
      assert values == [values[0]] + values[1..];
      LinesTell(values[1..], o);
      hide Line;
    }
  }

  lemma {:induction false} JoinHas(parts: seq<string>, part: string)
    requires part in parts
    ensures exists a, b :: 0 <= a <= b <= |Join(parts)| && Join(parts)[a..b] == part
  {
    if |parts| == 1 {
      assert Join(parts)[0..|part|] == part;
    } else {
      var rest := Join(parts[1..]);
      var head := parts[0] + " | ";
      assert Join(parts) == head + rest;
      if part == parts[0] {
        assert Join(parts)[0..|part|] == part;
      } else {
        assert parts == [parts[0]] + parts[1..];
        JoinHas(parts[1..], part);
        var a, b :| 0 <= a <= b <= |rest| && rest[a..b] == part;
        assert (head + rest)[|head| + a..|head| + b] == rest[a..b];
      }
    }
  }

  /** What leaves the log leaves a note, unless it is all without text: a note of its own kind and time, that tells
      every observation with text, cut to its first 500 characters. */
  lemma {:induction false} NoteTells(values: seq<Observation>, now: int)
    ensures if NoText(values) then NoteOf(values, now) == []
            else exists text: string ::
              && NoteOf(values, now)
                 == [Observation("", "execution_summary", if |text| <= SUMMARY_MAX then text
                     else text[..SUMMARY_MAX] + "...", "", Some(now))]
              && forall o :: o in values && HasText(o) ==> exists a, b :: 0 <= a <= b <= |text| && text[a..b] == Told(o)
  {
    NoLines(values);
    if !NoText(values) {
      var text := Join(Lines(values));
      forall o | o in values && HasText(o) ensures exists a, b :: 0 <= a <= b <= |text| && text[a..b] == Told(o) {
        LinesTell(values, o);
        JoinHas(Lines(values), Told(o));
      }
      hide HasText, Told, Lines, Join;
    }
  }

  // ---- References, waiting state, steps ----

  function NormalEntity(e: Entity, now: int): Option<Entity> {
    var t := Entity(Trim(e.id), Trim(e.name), Trim(e.source), Stamped(e.at, now));
    if t.id == "" && t.name == "" then None else Some(t)
  }

  function NormalEntityRef(e: Option<Entity>, now: int): Option<Entity> {
    if e == None then None else NormalEntity(e.value, now)
  }

  function NormalReferences(refs: Option<References>, now: int): Option<References> {
    if refs == None then None
    else
      var r := References(NormalEntityRef(refs.value.strategy, now), NormalEntityRef(refs.value.trader, now),
                          NormalEntityRef(refs.value.model, now), NormalEntityRef(refs.value.exchange, now));
      if r == References(None, None, None, None) then None else Some(r)
  }

  /** Each of the four references is kept by itself, trimmed and stamped, if it has an id or a name. */
  lemma {:induction false} ReferencesKept(refs: References, now: int)
    ensures var r := NormalReferences(Some(refs), now);
            var (s, t, m, x) := (NormalEntityRef(refs.strategy, now), NormalEntityRef(refs.trader, now),
                                 NormalEntityRef(refs.model, now), NormalEntityRef(refs.exchange, now));
            && (r == None <==> s == None && t == None && m == None && x == None)
            && (r.Some? ==> r.value.strategy == s && r.value.trader == t && r.value.model == m && r.value.exchange == x)
  {
    hide NormalEntityRef;
  }

  lemma {:induction false} EntityKept(e: Entity, now: int)
    ensures NormalEntityRef(Some(e), now)
            == if Trim(e.id) == "" && Trim(e.name) == "" then None
               else Some(Entity(Trim(e.id), Trim(e.name), Trim(e.source), if e.at == None then Some(now) else e.at))
  {
    hide Trim;
  }

  function NormalRecord(r: ReferenceRecord, now: int): seq<ReferenceRecord> {
    var t := ReferenceRecord(Trim(r.kind), Trim(r.id), Trim(r.name), Trim(r.source), Stamped(r.at, now));
    if t.kind == "" || (t.id == "" && t.name == "") then [] else [t]
  }

  function NormalRecords(history: seq<ReferenceRecord>, now: int): seq<ReferenceRecord> {
    if history == [] then [] else NormalRecord(history[0], now) + NormalRecords(history[1..], now)
  }

  function NormalHistory(history: seq<ReferenceRecord>, now: int): (r: seq<ReferenceRecord>)
    ensures |r| <= HISTORY_MAX
  {
    LastN(HISTORY_MAX, NormalRecords(history, now))
  }

  method NormalizeReferenceHistory(history: seq<ReferenceRecord>, now: int) returns (out: seq<ReferenceRecord>)
    ensures out == NormalHistory(history, now)
  {
    hide Trim, Trimmed;
    out := [];
    ghost var rest := NormalRecords(history, now);
    assert history[0..] == history;
    for i := 0 to |history|
      invariant NormalRecords(history, now) == out + rest
      invariant rest == NormalRecords(history[i..], now)
    {
      DropStep(history, i);
      rest := NormalRecords(history[i + 1..], now);
      Assoc(out, NormalRecord(history[i], now), rest);
      var h := history[i];
      var item := ReferenceRecord(Trim(h.kind), Trim(h.id), Trim(h.name), Trim(h.source), h.at);
      if item.kind == "" || (item.id == "" && item.name == "") {
        continue;
      }
      if item.at == None {
        item := item.(at := Some(now));
      }
      out := out + [item];
    }
    assert history[|history|..] == [];
    if |out| > HISTORY_MAX {
      out := out[|out| - HISTORY_MAX..];
    }
  }

  predicate IsNormalRecord(r: ReferenceRecord) {
    && Trimmed(r.kind) && Trimmed(r.id) && Trimmed(r.name) && Trimmed(r.source) && r.at.Some?
    && r.kind != "" && !(r.id == "" && r.name == "")
  }

  lemma {:induction false} NormalRecordsNormal(history: seq<ReferenceRecord>, now: int)
    ensures forall i :: 0 <= i < |NormalRecords(history, now)| ==> IsNormalRecord(NormalRecords(history, now)[i])
  {
    if history != [] {
      NormalRecordsNormal(history[1..], now);
    }
  }

  lemma {:induction false} NormalRecordsFixed(history: seq<ReferenceRecord>, now: int)
    requires forall i :: 0 <= i < |history| ==> IsNormalRecord(history[i])
    ensures NormalRecords(history, now) == history
  {
    if history != [] {
      assert IsNormalRecord(history[0]);
      NormalRecordsFixed(history[1..], now);
    }
  }

  function NormalWaiting(w: Option<Waiting>, env: Env): Option<Waiting> {
    if w == None then None
    else
      var t := Waiting(Trim(w.value.question), Trim(w.value.intent), Clean(w.value.fields, env.lower),
          Trim(w.value.target),
                       Stamped(w.value.at, env.now));
      if t.question == "" && t.intent == "" && t.fields == [] && t.target == "" then None else Some(t)
  }

  /** The id a step gets from its position in the list. */
  function StepName(i: nat): string {
    "step_" + Digits(i + 1)
  }

  function NormalStep(s: PlanStep, i: nat): PlanStep {
    var id := Trim(s.id);
    s.(id := if id == "" then StepName(i) else id,
       title := Trim(s.title), tool := Trim(s.tool), instruction := Trim(s.instruction), output := Trim(s.output),
       error := Trim(s.error),
       status := if s.status == NoStatus then Pending else s.status)
  }

  function NormalSteps(steps: seq<PlanStep>): (out: seq<PlanStep>)
    ensures |out| == |steps|
    ensures forall i :: 0 <= i < |steps| ==> out[i] == NormalStep(steps[i], i)
  {
    seq(|steps|, i requires 0 <= i < |steps| => NormalStep(steps[i], i))
  }

  lemma {:induction false} StepNameTrimmed(i: nat)
    ensures Trimmed(StepName(i)) && StepName(i) != ""
  {
    var d := Digits(i + 1);
    assert IsDigit(d[|d| - 1]);
    assert StepName(i)[|StepName(i)| - 1] == d[|d| - 1];
  }

  lemma {:induction false} NormalStepsTwice(steps: seq<PlanStep>)
    ensures NormalSteps(NormalSteps(steps)) == NormalSteps(steps)
  {
    forall i | 0 <= i < |steps| ensures NormalStep(NormalStep(steps[i], i), i) == NormalStep(steps[i], i) {
      StepNameTrimmed(i);
    }
  }

  // ---- normalizeExecutionState ----

  function Normal(s: ExecutionState, env: Env): ExecutionState {
    var c := Compact(CleanAll(s.log + s.observations, env.now), CleanAll(s.notes, env.now), env.now);
    s.(goal := Trim(s.goal), currentStep := Trim(s.currentStep), answer := Trim(s.answer),
        lastError := Trim(s.lastError),
       references := NormalReferences(s.references, env.now),
       history := NormalHistory(s.history, env.now),
       waiting := NormalWaiting(s.waiting, env),
       status := if s.status == NoRun && s.sessionId != "" then Planning else s.status,
       steps := NormalSteps(s.steps),
       observations := [],
       snapshots := CleanAll(s.snapshots, env.now),
       log := c.log,
       notes := c.notes,
       at := if s.sessionId != "" then Stamped(s.at, env.now) else s.at)
  }

  /** Field by field: texts are trimmed, a state with a session has a status and a time, and everything else but
      the log and the notes is its own normal form. */
  lemma {:induction false} NormalFields(s: ExecutionState, env: Env)
    ensures var n := Normal(s, env);
            && n.sessionId == s.sessionId && n.userId == s.userId && n.planId == s.planId
            && n.goal == Trim(s.goal) && n.currentStep == Trim(s.currentStep) && n.answer == Trim(s.answer)
            && n.lastError == Trim(s.lastError) && n.observations == []
            && (n.status == if s.status == NoRun && s.sessionId != "" then Planning else s.status)
            && (n.at == if s.at == None && s.sessionId != "" then Some(env.now) else s.at)
            && n.waiting == NormalWaiting(s.waiting, env) && n.references == NormalReferences(s.references, env.now)
            && n.history == NormalHistory(s.history, env.now) && n.snapshots == CleanAll(s.snapshots, env.now)
            && n.steps == NormalSteps(s.steps)
  {
    hide CleanAll, Compact, NormalReferences, NormalHistory, NormalWaiting, NormalSteps, Trim;
  }

  method NormalizeExecutionState(s: ExecutionState, env: Env) returns (out: ExecutionState)
    ensures out == Normal(s, env)
  {
    var history := NormalizeReferenceHistory(s.history, env.now);
    var steps := s.steps;
    for i := 0 to |steps|
      invariant |steps| == |s.steps|
      invariant forall k :: 0 <= k < i ==> steps[k] == NormalStep(s.steps[k], k)
      invariant forall k :: i <= k < |steps| ==> steps[k] == s.steps[k]
    {
      steps := steps[i := NormalStep(steps[i], i)];
    }
    assert steps == NormalSteps(s.steps);
    var log := s.log;
    if |s.observations| > 0 {
      log := log + s.observations;
    }
    assert s.log + [] == s.log;
    var snapshots := NormalizeObservationList(s.snapshots, env.now);
    log := NormalizeObservationList(log, env.now);
    var notes := NormalizeObservationList(s.notes, env.now);
    log, notes := CompactExecutionLog(log, notes, env.now);
    out := s.(goal := Trim(s.goal), currentStep := Trim(s.currentStep), answer := Trim(s.answer),
    lastError := Trim(s.lastError),
              references := NormalReferences(s.references, env.now), history := history,
              waiting := NormalWaiting(s.waiting, env), steps := steps, observations := [], snapshots := snapshots,
              log := log, notes := notes);
    if out.status == NoRun && out.sessionId != "" {
      out := out.(status := Planning);
    }
    if out.at == None && out.sessionId != "" {
      out := out.(at := Some(env.now));
    }
  }

  /** More than eight observations, more than four notes, and nothing to say about what overflows. */
  predicate Stubborn(s: ExecutionState, now: int) {
    var log := CleanAll(s.log + s.observations, now);
    && |log| > LOG_MAX && |CleanAll(s.notes, now)| > NOTES_MAX
    && NoText(log[..|log| - LOG_MAX])
  }

  lemma {:induction false} CompactTwice(log: seq<Observation>, notes: seq<Observation>, now: int, later: int)
    requires AllClean(log) && AllClean(notes)
    ensures var c := Compact(log, notes, now);
            Compact(c.log, c.notes, later) == c
            <==> !(|log| > LOG_MAX && |notes| > NOTES_MAX && NoText(log[..|log| - LOG_MAX]))
  {
    if |log| > LOG_MAX {
      var overflow := log[..|log| - LOG_MAX];
      NoLines(overflow);
      var c := Compact(log, notes, now);
      if NoteOf(overflow, now) == [] && |notes| > NOTES_MAX {
        assert |Compact(c.log, c.notes, later).notes| == NOTES_MAX;
      }
    }
  }

  lemma {:induction false} ReferencesTwice(refs: Option<References>, now: int, later: int)
    ensures NormalReferences(NormalReferences(refs, now), later) == NormalReferences(refs, now)
  {
    if refs.Some? {
      EntityTwice(refs.value.strategy, now, later);
      EntityTwice(refs.value.trader, now, later);
      EntityTwice(refs.value.model, now, later);
      EntityTwice(refs.value.exchange, now, later);
      hide NormalEntityRef;
    }
  }

  lemma {:induction false} EntityTwice(e: Option<Entity>, now: int, later: int)
    ensures NormalEntityRef(NormalEntityRef(e, now), later) == NormalEntityRef(e, now)
  {
    hide Trim;
  }

  lemma {:induction false} HistoryTwice(history: seq<ReferenceRecord>, now: int, later: int)
    ensures NormalHistory(NormalHistory(history, now), later) == NormalHistory(history, now)
  {
    hide NormalRecords, IsNormalRecord;
    NormalRecordsNormal(history, now);
    NormalRecordsFixed(NormalHistory(history, now), later);
  }

  lemma {:induction false} WaitingTwice(w: Option<Waiting>, env: Env, later: int)
    ensures NormalWaiting(NormalWaiting(w, env), env.(now := later)) == NormalWaiting(w, env)
  {
    hide Trim, Clean;
    if w.Some? {
      CleanIdempotent(w.value.fields, env.lower);
    }
  }

  lemma {:induction false} SnapshotsTwice(snapshots: seq<Observation>, now: int, later: int)
    ensures CleanAll(CleanAll(snapshots, now), later) == CleanAll(snapshots, now)
  {
    CleanAllIsClean(snapshots, now);
    CleanAllFixed(CleanAll(snapshots, now), later);
  }

  /** Normalising twice changes nothing more, in every case but one: the stubborn states, whose surplus
      notes survive the first pass and are cut by the second. */
  lemma {:induction false} NormalTwice(s: ExecutionState, env: Env, later: int)
    ensures Normal(Normal(s, env), env.(now := later)) == Normal(s, env) <==> !Stubborn(s, env.now)
  {
    hide Compact, CleanAll, NormalReferences, NormalHistory, NormalWaiting, NormalSteps, Trim, Trimmed,
        AllClean, HasText;
    var log, notes := CleanAll(s.log + s.observations, env.now), CleanAll(s.notes, env.now);
    var c := Compact(log, notes, env.now);
    CleanAllIsClean(s.log + s.observations, env.now);
    CleanAllIsClean(s.notes, env.now);
    CompactIsClean(log, notes, env.now);
    CleanAllFixed(c.log, later);
    CleanAllFixed(c.notes, later);
    assert c.log + [] == c.log;
    CompactTwice(log, notes, env.now, later);
    ReferencesTwice(s.references, env.now, later);
    HistoryTwice(s.history, env.now, later);
    WaitingTwice(s.waiting, env, later);
    NormalStepsTwice(s.steps);
    SnapshotsTwice(s.snapshots, env.now, later);
    assert Normal(Normal(s, env), env.(now := later)).log == Compact(c.log, c.notes, later).log;
  }

  // ---- Runs of appends ----

  /** appendExecutionLog */
  function AppendLog(s: ExecutionState, obs: Observation, env: Env): ExecutionState {
    Normal(s.(log := s.log + [obs]), env)
  }

  /** A state as normalisation leaves it, with its notes within bounds. */
  predicate Settled(s: ExecutionState) {
    AllClean(s.log) && AllClean(s.notes) && s.observations == [] && |s.log| <= LOG_MAX && |s.notes| <= NOTES_MAX
  }

  datatype Entry = Entry(obs: Observation, now: int)

  function Appended(s: ExecutionState, events: seq<Entry>, lower: string -> string): ExecutionState {
    if events == [] then s
    else
      var e := events[|events| - 1];
      AppendLog(Appended(s, events[..|events| - 1], lower), e.obs, Env(e.now, lower))
  }

  /** Everything ever recorded: the observations the state began with, then each non-blank one appended. */
  function Record(s: ExecutionState, events: seq<Entry>): seq<Observation> {
    if events == [] then s.log
    else Record(s, events[..|events| - 1]) + CleanObs(events[|events| - 1].obs, events[|events| - 1].now)
  }

  /** The note written for each recorded observation that has left the log and had text, oldest first.
      One leaves whenever a non-blank observation is appended to a full log. */
  function NotesWritten(s: ExecutionState, events: seq<Entry>): seq<Observation> {
    if events == [] then []
    else
      var before, e := events[..|events| - 1], events[|events| - 1];
      var record := Record(s, before);
      NotesWritten(s, before)
      + if CleanObs(e.obs, e.now) == [] || |record| < LOG_MAX then [] else NoteOf([record[|record| - LOG_MAX]], e.now)
  }

  lemma {:induction false} AppendOne(s: ExecutionState, obs: Observation, env: Env)
    requires Settled(s)
    ensures var n := AppendLog(s, obs, env);
            && Settled(n) && |n.history| <= HISTORY_MAX
            && n.log == LastN(LOG_MAX, s.log + CleanObs(obs, env.now))
            && n.notes == LastN(NOTES_MAX, s.notes + if CleanObs(obs, env.now) == [] || |s.log| < LOG_MAX then []
               else NoteOf([s.log[0]], env.now))
  {
    hide CleanObs, Trim, Trimmed, IsCleanObs, NoteOf, NormalReferences, NormalHistory, NormalWaiting, NormalSteps;
    var added := CleanObs(obs, env.now);
    CleanAllConcat(s.log, [obs], env.now);
    CleanAllFixed(s.log, env.now);
    CleanAllFixed(s.notes, env.now);
    assert CleanAll([obs], env.now) == added by {
      assert [obs][1..] == [];
    }
    var log := s.log + added;
    assert s.log + [obs] + [] == s.log + [obs];
    CleanAllIsClean(s.log + [obs], env.now);
    CompactIsClean(log, s.notes, env.now);
    assert |added| <= 1 by { CleanObsAtMostOne(obs, env.now); }
    if |log| > LOG_MAX {
      assert log[..|log| - LOG_MAX] == [s.log[0]];
    }
    assert s.notes + [] == s.notes;
  }

  lemma {:induction false} CleanObsAtMostOne(obs: Observation, now: int)
    ensures |CleanObs(obs, now)| <= 1
  {
  }

  /** Over every run of appends the log is exactly the last eight non-blank observations ever recorded,
      the notes are exactly the last four written for those that left it, and at most twelve references stay. */
  lemma {:induction false} AppendsKeepLast(s: ExecutionState, events: seq<Entry>, lower: string -> string)
    requires Settled(s)
    ensures var n := Appended(s, events, lower);
            && Settled(n) && (events != [] ==> |n.history| <= HISTORY_MAX)
            && n.log == LastN(LOG_MAX, Record(s, events))
            && n.notes == LastN(NOTES_MAX, s.notes + NotesWritten(s, events))
    decreases |events|
  {
    hide CleanObs, IsCleanObs, NoteOf, AppendLog, Settled;
    if events == [] {
      SettledSizes(s);
      assert s.notes + [] == s.notes;
    } else {
      var before, e := events[..|events| - 1], events[|events| - 1];
      AppendsKeepLast(s, before, lower);
      var n := Appended(s, before, lower);
      AppendOne(n, e.obs, Env(e.now, lower));
      CleanObsAtMostOne(e.obs, e.now);
      var record := Record(s, before);
      LastNAppend(LOG_MAX, record, CleanObs(e.obs, e.now));
      var note := if CleanObs(e.obs, e.now) == [] || |record| < LOG_MAX then []
          else NoteOf([record[|record| - LOG_MAX]], e.now);
      assert |record| >= LOG_MAX ==> n.log[0] == record[|record| - LOG_MAX];
      LastNAppend(NOTES_MAX, s.notes + NotesWritten(s, before), note);
      Assoc(s.notes, NotesWritten(s, before), note);
    }
  }

  lemma {:induction false} SettledSizes(s: ExecutionState)
    requires Settled(s)
    ensures LastN(LOG_MAX, s.log) == s.log && LastN(NOTES_MAX, s.notes) == s.notes
  {
  }

  /** A settled state is never stubborn, so along a run normalising again never changes anything. */
  lemma {:induction false} SettledNormalTwice(s: ExecutionState, env: Env, later: int)
    requires Settled(s)
    ensures Normal(Normal(s, env), env.(now := later)) == Normal(s, env)
    ensures Settled(Normal(s, env))
  {
    hide Normal, Settled;
    SettledCompacts(s, env);
    NormalTwice(s, env, later);
  }

  lemma {:induction false} SettledCompacts(s: ExecutionState, env: Env)
    requires Settled(s)
    ensures Settled(Normal(s, env)) && !Stubborn(s, env.now)
  {
    hide NormalReferences, NormalHistory, NormalWaiting, NormalSteps, Trim, IsCleanObs;
    CleanAllFixed(s.log, env.now);
    CleanAllFixed(s.notes, env.now);
    assert s.log + [] == s.log;
  }

  /** The exception exists: five notes and nine observations without text. */
  lemma {:induction false} StubbornExists(env: Env)
    ensures var blank := Observation("", "k", "", "", Some(0));
            var s := ExecutionState("s", 1, "", Planning, "p", [], "", None, [], [], seq(9, _ => blank),
                seq(5, _ => blank), None, [], "", "", Some(0));
            Stubborn(s, env.now) && |Normal(s, env).notes| == 5
  {
    var blank := Observation("", "k", "", "", Some(0));
    var log, notes := seq(9, _ => blank), seq(5, _ => blank);
    assert IsCleanObs(blank);
    CleanAllFixed(log, env.now);
    CleanAllFixed(notes, env.now);
    assert log + [] == log;
    NoLines(log[..1]);
  }
}
