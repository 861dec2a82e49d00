/** agent/central_brain.go: an active session is turned into a skill session for one turn and back. */
module SessionBridge {
  import opened ExecutionStates
  import opened Options
  import opened SkillSessions
  import opened Text

  /** A collected JSON value: a string, or the text it is marshalled or printed to ("" for nil). */
  datatype Val = Words(text: string) | Printed(text: string)

  datatype Message = Message(role: string, content: string)

  datatype ActiveSession = ActiveSession(skill: string, action: string, phase: string, collected: map<string, Val>,
      history: seq<Message>)

  /** activeHistoryMessageAsksStrategyName, and the replies inferStandaloneStrategyName refuses. */
  datatype Names = Names(asks: string -> bool, refuses: string -> bool) {
    /** inferStandaloneStrategyName */
    function Infer(text: string): string {
      if refuses(Trim(text)) then "" else Trim(text)
    }
  }

  const REF := "target_ref"
  const REF_ID := "target_ref_id"
  const REF_NAME := "target_ref_name"
  const PHASE := "phase"
  const RESERVED := {REF, REF_ID, REF_NAME, PHASE}
  const NIL_TEXT := "<nil>"

  lemma {:induction false} ReservedDistinct()
    ensures REF != REF_ID && REF != REF_NAME && REF != PHASE && REF_ID != REF_NAME && REF_ID != PHASE
            && REF_NAME != PHASE
    ensures "name" !in RESERVED && Trimmed(NIL_TEXT) && NIL_TEXT != ""
  {
    assert |REF| == 10 && |REF_ID| == 13 && |REF_NAME| == 15 && |PHASE| == 5;
  }

  /** activeFieldString with the printed nil dropped. */
  function TextOf(v: Val): string {
    if Trim(v.text) == NIL_TEXT then "" else Trim(v.text)
  }

  function TextAt(m: map<string, Val>, k: string): string {
    if k in m then TextOf(m[k]) else ""
  }

  function FirstText(a: string, b: string): string {
    if a != "" then a else b
  }

  /** defaultIfEmpty(phase, "executing") */
  function PhaseOr(phase: string): string {
    FirstText(Trim(phase), "executing")
  }

  function TargetOf(m: map<string, Val>): Option<Entity> {
    var id := FirstText(TextAt(m, REF_ID), TextAt(m, REF));
    var name := FirstText(TextAt(m, REF_NAME), TextAt(m, REF));
    if id == "" && name == "" then None else Some(Entity(id, name, "", None))
  }

  function FieldsOf(m: map<string, Val>): map<string, string> {
    map k | k in m && k !in RESERVED && TextOf(m[k]) != "" :: TextOf(m[k])
  }

  /** What the collected values say, whatever order they are read in. */
  function Convert(s: ActiveSession, m: map<string, Val>): SkillSession {
    SkillSession(s.skill, s.action, FirstText(TextAt(m, PHASE), PhaseOr(s.phase)), TargetOf(m), FieldsOf(m), None, None)
  }

  /** The latest user answer, after the first message, to a question for the strategy's name that gives one. */
  function NameFrom(history: seq<Message>, n: nat, names: Names): string
    requires n <= |history|
  {
    if n <= 1 then ""
    else if history[n - 1].role == "user" && names.asks(history[n - 2].content)
        && names.Infer(history[n - 1].content) != "" then
      names.Infer(history[n - 1].content)
    else NameFrom(history, n - 1, names)
  }

  predicate CreatesStrategy(s: ActiveSession) {
    s.skill == "strategy_management" && s.action == "create"
  }

  function Named(s: ActiveSession, r: SkillSession, names: Names): SkillSession {
    var name := NameFrom(s.history, |s.history|, names);
    if CreatesStrategy(s) && Get(r.fields, "name") == "" && name != "" then
        r.(fields := r.fields["name" := name]) else r
  }

  /** activeToLegacySkillSession, as a function of the collected map alone. */
  function Legacy(s: ActiveSession, names: Names): SkillSession {
    Named(s, Convert(s, s.collected), names)
  }

  /** One turn of the loop over the collected map. */
  function Visit(r: SkillSession, k: string, text: string): SkillSession {
    var target := if r.target.Some? then r.target.value else Entity("", "", "", None);
    if text == "" then r
    else if k == PHASE then r.(phase := text)
    else if k == REF_ID then r.(target := Some(target.(id := text)))
    else if k == REF_NAME then r.(target := Some(target.(name := text)))
    else if k == REF then r.(target := Some(target.(id := FirstText(target.id, text),
        name := FirstText(target.name, text))))
    else r.(fields := r.fields[k := text])
  }

  lemma {:induction false} VisitConverts(s: ActiveSession, m: map<string, Val>, k: string, v: Val)
    requires k !in m
    ensures Convert(s, m[k := v]) == Visit(Convert(s, m), k, TextOf(v))
  {
    ReservedDistinct();
    forall j ensures TextAt(m[k := v], j) == if j == k then TextOf(v) else TextAt(m, j) {}
    FieldsUpdate(m, k, v);
    hide REF, REF_ID, REF_NAME, PHASE, TextOf, FieldsOf;
    assert TextAt(m, k) == "";
    hide TextAt, PhaseOr;
    TargetUpdate(m, k, v);
    hide TargetOf;
    assert k !in RESERVED <==> k != REF && k != REF_ID && k != REF_NAME && k != PHASE;
    hide RESERVED;
  }

  lemma {:induction false} FieldsUpdate(m: map<string, Val>, k: string, v: Val)
    requires k !in m
    ensures FieldsOf(m[k := v]) == if k !in RESERVED && TextOf(v) != "" then FieldsOf(m)[k := TextOf(v)]
            else FieldsOf(m)
  {
    hide REF, REF_ID, REF_NAME, PHASE, TextOf, RESERVED;
  }

  lemma {:induction false} TargetUpdate(m: map<string, Val>, k: string, v: Val)
    requires TextAt(m, k) == ""
    requires REF != REF_ID && REF != REF_NAME && REF != PHASE && REF_ID != REF_NAME && REF_ID != PHASE
             && REF_NAME != PHASE
    requires forall j :: TextAt(m[k := v], j) == if j == k then TextOf(v) else TextAt(m, j)
    ensures var text := TextOf(v);
            var old' := if TargetOf(m).Some? then TargetOf(m).value else Entity("", "", "", None);
            TargetOf(m[k := v]) == if text == "" then TargetOf(m)
              else if k == REF_ID then Some(old'.(id := text))
              else if k == REF_NAME then Some(old'.(name := text))
              else if k == REF then Some(old'.(id := FirstText(old'.id, text), name := FirstText(old'.name, text)))
              else TargetOf(m)
  {
    hide REF, REF_ID, REF_NAME, PHASE, TextOf, TextAt;
  }

  /** activeToLegacySkillSession: Go may visit the map in any order, the result is the same. */
  method ActiveToLegacy(s: ActiveSession, names: Names) returns (r: SkillSession)
    ensures r == Legacy(s, names)
  {
    hide TextOf, Convert, Visit, PhaseOr, REF, REF_ID, REF_NAME, PHASE, NIL_TEXT;
    r := SkillSession(s.skill, s.action, PhaseOr(s.phase), None, map[], None, None);
    var todo := s.collected.Keys;
    ghost var seen: map<string, Val> := map[];
    ConvertNothing(s);
    while todo != {}
      invariant todo <= s.collected.Keys && seen.Keys == s.collected.Keys - todo
      invariant forall k :: k in seen ==> seen[k] == s.collected[k]
      invariant r == Convert(s, seen)
      decreases todo
    {
      var k :| k in todo;
      todo := todo - {k};
      VisitConverts(s, seen, k, s.collected[k]);
      r := Visit(r, k, TextOf(s.collected[k]));
      seen := seen[k := s.collected[k]];
    }
    assert seen == s.collected;
    if CreatesStrategy(s) && Get(r.fields, "name") == "" {
      var i := |s.history|;
      while i > 1
        invariant 0 <= i <= |s.history|
        invariant NameFrom(s.history, |s.history|, names) == NameFrom(s.history, i, names)
      {
        i := i - 1;
        var msg := s.history[i];
        if msg.role == "user" && names.asks(s.history[i - 1].content) {
          var inferred := names.Infer(msg.content);
          if inferred != "" {
            r := r.(fields := r.fields["name" := inferred]);
            break;
          }
        }
      }
    }
  }

  lemma {:induction false} ConvertNothing(s: ActiveSession)
    ensures Convert(s, map[]) == SkillSession(s.skill, s.action, PhaseOr(s.phase), None, map[], None, None)
  {
  }

  // ---- And back ----

  function Written(fields: map<string, string>): map<string, Val> {
    map k | k in fields && Trim(fields[k]) != "" :: Words(Trim(fields[k]))
  }

  function WrittenTarget(target: Option<Entity>): map<string, Val> {
    if target == None then map[]
    else
      (if Trim(target.value.id) != "" then map[REF_ID := Words(Trim(target.value.id))] else map[])
      + (if Trim(target.value.name) != "" then map[REF_NAME := Words(Trim(target.value.name))] else map[])
  }

  /** activeSessionFromLegacy */
  function FromLegacy(base: ActiveSession, l: SkillSession): ActiveSession {
    base.(phase := Trim(l.phase), collected := base.collected + Written(l.fields) + WrittenTarget(l.target))
  }

  lemma {:induction false} WrittenAt(fields: map<string, string>)
    ensures Written(fields).Keys <= fields.Keys
    ensures forall k :: k in fields ==> (k in Written(fields) <==> Trim(fields[k]) != "")
    ensures forall k :: k in Written(fields) ==> Written(fields)[k] == Words(Trim(fields[k]))
  {
    hide Trim;
  }

  lemma {:induction false} TargetWritten(m: map<string, Val>, e: Entity)
    ensures var id, name := Trim(e.id), Trim(e.name);
            var m1 := if id != "" then m[REF_ID := Words(id)] else m;
            m + WrittenTarget(Some(e)) == if name != "" then m1[REF_NAME := Words(name)] else m1
  {
    hide Trim, REF_ID, REF_NAME;
  }

  method ActiveFromLegacy(base: ActiveSession, l: SkillSession) returns (next: ActiveSession)
    ensures next == FromLegacy(base, l)
  {
    hide Trim, REF, REF_ID, REF_NAME, Written, WrittenTarget;
    var collected := base.collected;
    var todo := l.fields.Keys;
    ghost var written := Written(l.fields);
    WrittenAt(l.fields);
    ghost var put: map<string, Val> := map[];
    while todo != {}
      invariant todo <= l.fields.Keys
      invariant forall k :: k in put <==> k in written && k !in todo
      invariant forall k :: k in put ==> put[k] == written[k]
      invariant collected == base.collected + put
      decreases todo
    {
      var k :| k in todo;
      todo := todo - {k};
      var value := Trim(l.fields[k]);
      if value != "" {
        PutOne(base.collected, put, k, Words(value));
        collected := collected[k := Words(value)];
        put := put[k := Words(value)];
      }
    }
    assert put == written;
    TargetNone();
    if l.target.Some? {
      TargetWritten(collected, l.target.value);
      var id := Trim(l.target.value.id);
      if id != "" {
        collected := collected[REF_ID := Words(id)];
      }
      var name := Trim(l.target.value.name);
      if name != "" {
        collected := collected[REF_NAME := Words(name)];
      }
    }
    next := base.(phase := Trim(l.phase), collected := collected);
  }

  lemma {:induction false} TargetNone()
    ensures forall m: map<string, Val> :: m + WrittenTarget(None) == m
  {
  }

  lemma {:induction false} PutOne(m: map<string, Val>, put: map<string, Val>, k: string, v: Val)
    ensures (m + put)[k := v] == m + put[k := v]
  {
  }

  // ---- The round trip ----

  /** A skill session without the parts the active session has no room for. */
  function Core(l: SkillSession): SkillSession {
    l.(target := if l.target == None then None
        else Some(Entity(l.target.value.id, l.target.value.name, "", None)), slots := None, at := None)
  }

  predicate PlainText(text: string) {
    Trimmed(text) && text != "" && text != NIL_TEXT
  }

  predicate PlainFields(fields: map<string, string>) {
    forall k :: k in fields ==> k !in RESERVED && PlainText(fields[k])
  }

  /** The base holds no text under a key the skill session has dropped. */
  predicate NothingStale(base: ActiveSession, fields: map<string, string>) {
    forall k :: k in base.collected && k !in RESERVED && k !in fields ==> TextOf(base.collected[k]) == ""
  }

  /** No name would be inferred for a strategy that has none. */
  predicate NoNameGuessed(base: ActiveSession, fields: map<string, string>, names: Names) {
    CreatesStrategy(base) && Get(fields, "name") == "" ==> NameFrom(base.history, |base.history|, names) == ""
  }

  /** One part of the target: it is plain, or empty with nothing in the base to take its place. */
  predicate PartKept(base: ActiveSession, part: string, key: string) {
    if part == "" then TextAt(base.collected, key) == "" && TextAt(base.collected, REF) == "" else PlainText(part)
  }

  predicate TargetKept(base: ActiveSession, target: Option<Entity>) {
    if target == None then PartKept(base, "", REF_ID) && PartKept(base, "", REF_NAME)
    else
      && (target.value.id != "" || target.value.name != "")
      && PartKept(base, target.value.id, REF_ID) && PartKept(base, target.value.name, REF_NAME)
  }

  predicate PhaseKept(base: ActiveSession, phase: string) {
    if TextAt(base.collected, PHASE) != "" then TextAt(base.collected, PHASE) == phase
        else Trimmed(phase) && phase != ""
  }

  lemma {:induction false} TextFacts(x: string)
    ensures Trimmed(Trim(x)) && (Trimmed(x) <==> Trim(x) == x)
    ensures TextOf(Words(x)) == x && x != "" <==> PlainText(x)
    ensures TextOf(Words(Trim(x))) == TextOf(Words(x)) && Trim("") == ""
    ensures TextOf(Words(x)) != NIL_TEXT && Trimmed(TextOf(Words(x)))
  {
    ReservedDistinct();
    hide NIL_TEXT;
  }

  /** The text under any key but the target's two after the session has been written back. */
  lemma {:induction false} WrittenText(base: ActiveSession, l: SkillSession, k: string)
    requires k != REF_ID && k != REF_NAME
    ensures TextAt(FromLegacy(base, l).collected, k)
            == if k in l.fields && Trim(l.fields[k]) != "" then TextOf(Words(l.fields[k]))
                else TextAt(base.collected, k)
  {
    if k in l.fields {
      TextFacts(l.fields[k]);
    }
    hide Trim, REF_ID, REF_NAME, TextOf;
  }

  lemma {:induction false} WrittenPart(base: ActiveSession, l: SkillSession, k: string, part: string)
    requires k !in l.fields && REF_ID != REF_NAME
    requires l.target.Some? ==>
             (k == REF_ID && part == l.target.value.id) || (k == REF_NAME && part == l.target.value.name)
    requires l.target == None ==> part == ""
    ensures TextAt(FromLegacy(base, l).collected, k) == if Trim(part) != "" then TextOf(Words(part))
            else TextAt(base.collected, k)
  {
    TextFacts(part);
    hide Trim, REF_ID, REF_NAME, TextOf;
  }

  /** Fields survive the round trip exactly when each is plain, none is reserved, nothing stale is in the
      base and no name is guessed. */
  lemma {:induction false} FieldsRoundTrip(base: ActiveSession, l: SkillSession, names: Names)
    requires forall k :: k in l.fields ==> k !in RESERVED
    requires NameFrom(base.history, |base.history|, names) != NIL_TEXT
    ensures Legacy(FromLegacy(base, l), names).fields == l.fields
            <==> PlainFields(l.fields) && NothingStale(base, l.fields) && NoNameGuessed(base, l.fields, names)
  {
    var next := FromLegacy(base, l);
    var read := FieldsOf(next.collected);
    ReservedDistinct();
    forall k | k !in RESERVED
      ensures TextAt(next.collected, k) == if k in l.fields && Trim(l.fields[k]) != "" then TextOf(Words(l.fields[k]))
              else TextAt(base.collected, k)
      ensures k in l.fields ==> (PlainText(l.fields[k])
              <==> TextOf(Words(l.fields[k])) == l.fields[k] && l.fields[k] != "")
      ensures k in l.fields ==>
              Trimmed(Trim(l.fields[k])) && (Trim(l.fields[k]) == "" ==> TextOf(Words(l.fields[k])) == "")
    {
      WrittenText(base, l, k);
      if k in l.fields {
        TextFacts(l.fields[k]);
        TextFacts("");
      }
    }
    ReadFields(next.collected);
    forall k ensures Trim(TextAt(base.collected, k)) == TextAt(base.collected, k) {
      TextNotNil(base.collected, k);
    }
    hide Trim, TextOf, REF, REF_ID, REF_NAME, PHASE, FieldsOf, FromLegacy, PlainText, NIL_TEXT;
    KeptFields(base, l, read);
    FromLegacyKeeps(base, l);
    NamedFields(next, l.fields, names);
  }

  lemma {:induction false} FromLegacyKeeps(base: ActiveSession, l: SkillSession)
    ensures var next := FromLegacy(base, l);
            next.history == base.history && next.skill == base.skill && next.action == base.action
                && next.phase == Trim(l.phase)
  {
  }

  lemma {:induction false} ReadFields(m: map<string, Val>)
    ensures forall k :: k in FieldsOf(m) <==> k !in RESERVED && TextAt(m, k) != ""
    ensures forall k :: k in FieldsOf(m) ==> FieldsOf(m)[k] == TextAt(m, k)
  {
    hide TextOf, REF, REF_ID, REF_NAME, PHASE;
  }

  lemma {:induction false} KeptFields(base: ActiveSession, l: SkillSession, read: map<string, string>)
    requires forall k :: k in l.fields ==> k !in RESERVED
    requires forall k :: k in read ==> k !in RESERVED
    requires forall k :: k !in RESERVED ==> Get(read, k) == if k in l.fields && Trim(l.fields[k]) != "" then
             TextOf(Words(l.fields[k])) else TextAt(base.collected, k)
    requires forall k :: k in read ==> read[k] != ""
    requires forall k :: Trim(TextAt(base.collected, k)) == TextAt(base.collected, k)
    requires forall k ::
             k in l.fields
             ==> (PlainText(l.fields[k]) <==> TextOf(Words(l.fields[k])) == l.fields[k] && l.fields[k] != "")
    requires forall k :: k in l.fields ==> (Trim(l.fields[k]) == "" ==> TextOf(Words(l.fields[k])) == "")
    ensures read == l.fields <==> PlainFields(l.fields) && NothingStale(base, l.fields)
  {
    hide Trim, TextOf, PlainText, REF, REF_ID, REF_NAME, PHASE;
    if PlainFields(l.fields) && NothingStale(base, l.fields) {
      forall k | k in l.fields ensures k in read && read[k] == l.fields[k] {
        assert Get(read, k) == TextOf(Words(l.fields[k])) == l.fields[k];
      }
      forall k | k !in l.fields ensures k !in read {
        assert k !in RESERVED ==> Get(read, k) == TextAt(base.collected, k) == "";
      }
      assert read == l.fields;
    }
    if read == l.fields {
      forall k | k in l.fields ensures PlainText(l.fields[k]) {
        assert Get(read, k) == l.fields[k];
      }
      forall k | k in base.collected && k !in RESERVED && k !in l.fields ensures TextOf(base.collected[k]) == "" {
        assert Get(read, k) == "";
      }
    }
  }

  /** Guessing a name spoils the fields unless they were right before and stay as they are. */
  lemma {:induction false} NamedFields(s: ActiveSession, fields: map<string, string>, names: Names)
    requires var read := FieldsOf(s.collected);
             "name" in fields && PlainText(fields["name"]) ==> Get(read, "name") == fields["name"]
    requires NameFrom(s.history, |s.history|, names) != NIL_TEXT
    ensures Legacy(s, names).fields == fields <==> FieldsOf(s.collected) == fields && NoNameGuessed(s, fields, names)
  {
    NameTrimmed(s.history, |s.history|, names);
    hide TextOf, REF, REF_ID, REF_NAME, PHASE, FieldsOf, Trimmed, NameFrom, NIL_TEXT;
  }

  lemma {:induction false} NameTrimmed(history: seq<Message>, n: nat, names: Names)
    requires n <= |history|
    ensures Trimmed(NameFrom(history, n, names))
  {
    if n > 1 {
      NameTrimmed(history, n - 1, names);
    }
  }

  lemma {:induction false} PartRoundTrip(base: ActiveSession, l: SkillSession, k: string, part: string)
    requires k == REF_ID || k == REF_NAME
    requires forall j :: j in l.fields ==> j !in RESERVED
    requires part == if l.target == None then "" else if k == REF_ID then l.target.value.id else l.target.value.name
    ensures FirstText(TextAt(FromLegacy(base, l).collected, k), TextAt(FromLegacy(base, l).collected, REF)) == part
            <==> PartKept(base, part, k)
  {
    ReservedDistinct();
    WrittenPart(base, l, k, part);
    WrittenText(base, l, REF);
    TextFacts(part);
    TextFacts("");
    TextNotNil(base.collected, k);
    TextNotNil(base.collected, REF);
    hide Trim, REF_ID, REF_NAME, REF, TextOf, TextAt, FromLegacy, NIL_TEXT, Trimmed;
  }

  lemma {:induction false} TextNotNil(m: map<string, Val>, k: string)
    ensures TextAt(m, k) != NIL_TEXT && Trimmed(TextAt(m, k))
  {
    ReservedDistinct();
    hide NIL_TEXT;
  }

  /** The target survives exactly when each part does; a reference with neither id nor name is lost. */
  lemma {:induction false} TargetRoundTrip(base: ActiveSession, l: SkillSession)
    requires forall j :: j in l.fields ==> j !in RESERVED
    ensures TargetOf(FromLegacy(base, l).collected) == Core(l).target <==> TargetKept(base, l.target)
  {
    var id := if l.target == None then "" else l.target.value.id;
    var name := if l.target == None then "" else l.target.value.name;
    PartRoundTrip(base, l, REF_ID, id);
    PartRoundTrip(base, l, REF_NAME, name);
    hide REF_ID, REF_NAME, REF, TextAt, FromLegacy, PartKept, FirstText;
  }

  lemma {:induction false} PhaseRoundTrip(base: ActiveSession, l: SkillSession)
    requires forall j :: j in l.fields ==> j !in RESERVED
    ensures FirstText(TextAt(FromLegacy(base, l).collected, PHASE), PhaseOr(FromLegacy(base, l).phase)) == l.phase
            <==> PhaseKept(base, l.phase)
  {
    ReservedDistinct();
    WrittenText(base, l, PHASE);
    FromLegacyKeeps(base, l);
    TextFacts(l.phase);
    TextFacts(Trim(l.phase));
    assert Trimmed("executing");
    hide Trim, REF_ID, REF_NAME, REF, PHASE, TextOf, TextAt, FromLegacy, NIL_TEXT;
  }

  lemma {:induction false} LegacyShape(base: ActiveSession, names: Names)
    ensures var l := Legacy(base, names);
            Core(l) == l && l.name == base.skill && l.action == base.action && l.target == TargetOf(base.collected)
    ensures Legacy(base, names).phase == FirstText(TextAt(base.collected, PHASE), PhaseOr(base.phase))
  {
    hide TextAt, FieldsOf, NameFrom, PHASE, REF, REF_ID, REF_NAME, PhaseOr;
  }

  /** A skill session comes back from the active session as it went in, apart from the slots, the time and
      the target's source, exactly when its fields, target and phase are plain and the base holds nothing
      that would take the place of something absent. */
  lemma {:induction false} RoundTrip(base: ActiveSession, l: SkillSession, names: Names)
    requires forall k :: k in l.fields ==> k !in RESERVED
    requires NameFrom(base.history, |base.history|, names) != NIL_TEXT
    ensures Legacy(FromLegacy(base, l), names) == Core(l)
            <==> && base.skill == l.name && base.action == l.action
                 && PlainFields(l.fields) && NothingStale(base, l.fields) && NoNameGuessed(base, l.fields, names)
                 && TargetKept(base, l.target) && PhaseKept(base, l.phase)
  {
    FieldsRoundTrip(base, l, names);
    TargetRoundTrip(base, l);
    PhaseRoundTrip(base, l);
    FromLegacyKeeps(base, l);
    LegacyShape(FromLegacy(base, l), names);
    hide *;
    SameCore(Legacy(FromLegacy(base, l), names), l);
  }

  lemma {:induction false} SameCore(r: SkillSession, l: SkillSession)
    requires Core(r) == r
    ensures r == Core(l) <==>
            r.name == l.name && r.action == l.action && r.phase == l.phase
            && r.target == Core(l).target && r.fields == l.fields
  {
  }

  lemma {:induction false} LegacyPlain(base: ActiveSession, names: Names)
    requires NameFrom(base.history, |base.history|, names) != NIL_TEXT
    ensures var l := Legacy(base, names);
            PlainFields(l.fields) && NothingStale(base, l.fields) && NoNameGuessed(base, l.fields, names)
  {
    ReservedDistinct();
    NameTrimmed(base.history, |base.history|, names);
    ReadFields(base.collected);
    forall k ensures TextAt(base.collected, k) != NIL_TEXT && Trimmed(TextAt(base.collected, k)) {
      TextNotNil(base.collected, k);
    }
    hide FieldsOf, NameFrom, PHASE, REF, REF_ID, REF_NAME, TextOf, Trimmed, NIL_TEXT;
  }

  lemma {:induction false} LegacyKeys(base: ActiveSession, names: Names)
    ensures forall k :: k in Legacy(base, names).fields ==> k !in RESERVED
  {
    ReservedDistinct();
    ReadFields(base.collected);
    hide FieldsOf, NameFrom, PHASE, REF, REF_ID, REF_NAME, TextOf;
  }

  lemma {:induction false} LegacyTarget(base: ActiveSession)
    ensures TargetKept(base, TargetOf(base.collected))
  {
    TextNotNil(base.collected, REF);
    TextNotNil(base.collected, REF_ID);
    TextNotNil(base.collected, REF_NAME);
    hide TextAt, PHASE, REF, REF_ID, REF_NAME, Trimmed, NIL_TEXT;
  }

  lemma {:induction false} LegacyPhase(base: ActiveSession)
    ensures PhaseKept(base, FirstText(TextAt(base.collected, PHASE), PhaseOr(base.phase)))
  {
    TextFacts(base.phase);
    assert Trimmed("executing");
    hide TextAt, PHASE, Trimmed, Trim;
  }

  /** A turn that changes nothing leaves the session reading the same, whatever it holds. */
  lemma {:induction false} IdleTurn(base: ActiveSession, names: Names)
    requires NameFrom(base.history, |base.history|, names) != NIL_TEXT
    ensures Legacy(FromLegacy(base, Legacy(base, names)), names) == Legacy(base, names)
  {
    var l := Legacy(base, names);
    LegacyShape(base, names);
    LegacyPlain(base, names);
    LegacyTarget(base);
    LegacyPhase(base);
    LegacyKeys(base, names);
    RoundTrip(base, l, names);
    hide *;
  }

  /** A field the turn's handler deletes is back after the turn if the active session still holds it. */
  lemma {:induction false} DeletedFieldReturns(base: ActiveSession, k: string, names: Names)
    requires k in base.collected && k !in RESERVED && TextOf(base.collected[k]) != ""
    ensures var l := Legacy(base, names);
            k in l.fields && k in Legacy(FromLegacy(base, l.(fields := l.fields - {k})), names).fields
  {
    var l := Legacy(base, names);
    WrittenText(base, l.(fields := l.fields - {k}), k) by { ReservedDistinct(); }
    ReadFields(base.collected);
    ReadFields(FromLegacy(base, l.(fields := l.fields - {k})).collected);
    hide TextOf, REF, REF_ID, REF_NAME, PHASE, FieldsOf, NameFrom;
  }

  /** A target the handler gives up, because the object is gone say, is back the next turn as it was: nothing
      takes it out of the active session. */
  lemma {:induction false} GoneTargetReturns(base: ActiveSession, l: SkillSession, names: Names)
    requires l.target == None && forall k :: k in l.fields ==> k !in RESERVED
    ensures Legacy(FromLegacy(base, l), names).target == Legacy(base, names).target
  {
    var next := FromLegacy(base, l);
    assert TextAt(next.collected, REF) == TextAt(base.collected, REF)
        && TextAt(next.collected, REF_ID) == TextAt(base.collected, REF_ID)
           && TextAt(next.collected, REF_NAME) == TextAt(base.collected, REF_NAME) by {
      ReservedDistinct();
      WrittenText(base, l, REF);
      WrittenPart(base, l, REF_ID, "");
      WrittenPart(base, l, REF_NAME, "");
      hide Trim, TextOf, REF, REF_ID, REF_NAME, TextAt, FromLegacy;
    }
    LegacyShape(base, names);
    LegacyShape(next, names);
    hide TextAt, FromLegacy, Legacy, REF, REF_ID, REF_NAME;
  }

  // ---- The name that is inferred ----

  /** Message `i` answers, in words that can be a name, the one before it, which asks for the name. */
  predicate NamesAt(history: seq<Message>, i: nat, names: Names)
    requires i < |history|
  {
    && i > 0 && history[i].role == "user" && names.asks(history[i - 1].content)
    && Trim(history[i].content) != "" && !names.refuses(Trim(history[i].content))
  }

  /** Message `i` is the last of the first `n` that gives a name. */
  predicate LatestAt(history: seq<Message>, n: nat, i: nat, names: Names)
    requires i < n <= |history|
  {
    NamesAt(history, i, names) && forall j :: i < j < n ==> !NamesAt(history, j, names)
  }

  predicate NoneNames(history: seq<Message>, n: nat, names: Names)
    requires n <= |history|
  {
    forall i :: 0 <= i < n ==> !NamesAt(history, i, names)
  }

  lemma {:induction false} NameIsLatest(history: seq<Message>, n: nat, names: Names)
    requires n <= |history|
    ensures var name := NameFrom(history, n, names);
            if NoneNames(history, n, names) then name == ""
            else exists i :: 0 <= i < n && LatestAt(history, n, i, names) && name == Trim(history[i].content) != ""
  {
    hide NamesAt, NameFrom, Trim;
    if n <= 1 {
      NobodyNames(history, n, names);
    } else {
      NameStep(history, n, names);
      NameIsLatest(history, n - 1, names);
      if NamesAt(history, n - 1, names) {
        assert LatestAt(history, n, n - 1, names);
      } else if !NoneNames(history, n - 1, names) {
        var i :| 0 <= i < n - 1 && LatestAt(history, n - 1, i, names)
                 && NameFrom(history, n - 1, names) == Trim(history[i].content) != "";
        assert LatestAt(history, n, i, names);
      }
    }
  }

  lemma {:induction false} NobodyNames(history: seq<Message>, n: nat, names: Names)
    requires n <= 1 && n <= |history|
    ensures NoneNames(history, n, names) && NameFrom(history, n, names) == ""
  {
  }

  lemma {:induction false} NameStep(history: seq<Message>, n: nat, names: Names)
    requires 1 < n <= |history|
    ensures NameFrom(history, n, names)
            == if NamesAt(history, n - 1, names) then Trim(history[n - 1].content) else NameFrom(history, n - 1, names)
    ensures NamesAt(history, n - 1, names) ==> Trim(history[n - 1].content) != ""
  {
    hide Trim;
  }

  /** A strategy being created that has no name yet is given the latest user answer to a question for it, if there
      is one that can be a name, and no other session is given anything. */
  lemma {:induction false} NameInferred(s: ActiveSession, names: Names)
    ensures var (l, h) := (Legacy(s, names), s.history);
            if s.skill == "strategy_management" && s.action == "create" && TextAt(s.collected, "name") == ""
               && !NoneNames(h, |h|, names) then
              exists i :: 0 <= i < |h| && LatestAt(h, |h|, i, names)
                && l.fields == FieldsOf(s.collected)["name" := Trim(h[i].content)]
            else l.fields == FieldsOf(s.collected)
  {
    ReservedDistinct();
    NameIsLatest(s.history, |s.history|, names);
    ReadFields(s.collected);
    hide NamesAt, LatestAt, NoneNames, NameFrom, FieldsOf, TextOf, Trim, REF, REF_ID, REF_NAME, PHASE,
        PhaseOr, TargetOf;
    assert Get(FieldsOf(s.collected), "name") == TextAt(s.collected, "name");
  }
}
