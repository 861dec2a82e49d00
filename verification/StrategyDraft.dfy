/** agent/central_brain.go: the fields collected while a strategy is being drafted, turn by turn. */
module StrategyDrafts {
  import opened Options
  import opened Text

  datatype Json = Null | Bool(b: bool) | Num(r: real) | Str(s: string) | Arr(items: seq<Json>)
      | Obj(members: map<string, Json>)

  type Object = map<string, Json>

  /** strings.ToLower, fmt.Sprint, json.Unmarshal into an object and json.Marshal of one. */
  datatype Lib = Lib(lower: string -> string, print_: Json -> string, parse: string -> Option<Object>,
      marshal: Object -> string) {
    ghost predicate Valid() {
      && (forall s :: print_(Str(s)) == s)
      && lower(GRID) == GRID && lower(AI) == AI && print_(Null) == NIL_TEXT && lower(NIL_TEXT) == NIL_TEXT
      && (forall m :: parse(marshal(m)) == Some(m) && Trimmed(marshal(m)) && marshal(m) != "")
    }
  }

  const NIL_TEXT := "<nil>"
  const GRID := "grid_trading"
  const AI := "ai_trading"
  const TYPE := "strategy_type"
  const PATCH := "config_patch"
  const CONFIRM := "awaiting_final_confirmation"
  const NAME := "name"
  const PUBLISH := "publish_config"
  const GRID_CONFIG := "grid_config"
  const AI_CONFIG := "ai_config"
  const SECTIONS: set<string> := {"coin_source", "indicators", "risk_control", "prompt_sections", "custom_prompt"}

  /** The keys a strategy draft takes from the model: allowedFieldSpecsForSkillSession for create. */
  const ADMITTED: set<string> := {TYPE, PATCH, CONFIRM, NAME}

  /** The keys a change of type keeps. */
  const LASTING: set<string> := {NAME, "description", "is_public", "config_visible", "lang"}

  lemma {:induction false} KeyFacts()
    ensures GRID != AI && GRID != "" && AI != "" && Trimmed(GRID) && Trimmed(AI)
    ensures PATCH !in LASTING && CONFIRM !in LASTING && TYPE !in LASTING && NAME in LASTING
    ensures TYPE != PATCH && TYPE != CONFIRM && TYPE != NAME && PATCH != CONFIRM && PATCH != NAME && CONFIRM != NAME
    ensures TYPE !in SECTIONS && PUBLISH !in SECTIONS && GRID_CONFIG !in SECTIONS && AI_CONFIG !in SECTIONS
    ensures TYPE != PUBLISH && TYPE != GRID_CONFIG && TYPE != AI_CONFIG && PUBLISH != GRID_CONFIG
            && PUBLISH != AI_CONFIG && GRID_CONFIG != AI_CONFIG
    ensures ADMITTED == {TYPE, PATCH, CONFIRM, NAME} && Trimmed(TYPE) && Trimmed(PATCH)
            && Trimmed(CONFIRM) && Trimmed(NAME)
  {
    assert |GRID| == 12 && |AI| == 10 && |TYPE| == 13 && |PATCH| == 12 && |CONFIRM| == 27 && |NAME| == 4;
    assert |PUBLISH| == 14 && |GRID_CONFIG| == 11 && |AI_CONFIG| == 9;
    assert PATCH[0] == 'c' && "risk_control"[0] == 'r' && "description"[0] == 'd' && GRID_CONFIG[0] == 'g'
        && "coin_source"[0] == 'c';
    assert CONFIRM[0] == 'a' && TYPE[0] == 's' && "custom_prompt"[0] == 'c';
  }

  // ---- Reading the strategy type ----

  predicate ContainsAny(s: string, words: seq<string>) {
    exists i :: 0 <= i < |words| && Contains(s, words[i])
  }

  const GRID_WORDS := ["grid", "\U{7F51}\U{683C}"]
  const COIN_WORDS := ["\U{9759}\U{6001}\U{5E01}", "\U{56FA}\U{5B9A}\U{5E01}", "\U{9009}\U{5E01}\U{6765}\U{6E90}"]
  const AI_WORDS :=
    ["ai trading", "ai\U{7B56}\U{7565}", "ai \U{7B56}\U{7565}", "ai\U{4EA4}\U{6613}", "ai \U{4EA4}\U{6613}",
     "ai\U{667A}\U{80FD}", "\U{667A}\U{80FD}\U{7B56}\U{7565}", "\U{666E}\U{901A}\U{7B56}\U{7565}"]

  /** parseStrategyTypeValue */
  function ParseType(text: string, lib: Lib): (t: string)
    ensures t == GRID || t == AI || t == ""
  {
    var s := lib.lower(Trim(text));
    if s == GRID then GRID
    else if s == AI then AI
    else if ContainsAny(s, GRID_WORDS) then GRID
    else if ContainsAny(s, COIN_WORDS) then AI
    else if ContainsAny(s, AI_WORDS) then AI
    else ""
  }

  lemma {:induction false} CanonicalTypesParse(lib: Lib)
    requires lib.Valid()
    ensures ParseType(GRID, lib) == GRID && ParseType(AI, lib) == AI
  {
    KeyFacts();
    hide ContainsAny;
  }

  function At(m: Object, key: string): Json {
    if key in m then m[key] else Null
  }

  /** mapFromAny, with the empty object for nil. */
  function MapOf(v: Json, lib: Lib): Object {
    match v
    case Obj(members) => members
    case Str(s) => (match lib.parse(s) case Some(m) => m case None => map[])
    case _ => map[]
  }

  /** strategyTypeFromConfigPatchAny */
  function TypeOfPatch(v: Json, lib: Lib): string {
    var p := MapOf(v, lib);
    if p == map[] then ""
    else
      var t := ParseType(lib.print_(At(p, TYPE)), lib);
      if t != "" then t else if GRID_CONFIG in p then GRID else if AI_CONFIG in p then AI else ""
  }

  function TypeText(data: Object, lib: Lib): string {
    if TYPE in data then ParseType(lib.print_(data[TYPE]), lib) else ""
  }

  function PatchType(data: Object, lib: Lib): string {
    if PATCH in data then TypeOfPatch(data[PATCH], lib) else ""
  }

  /** strategyTypeFromExtractedData and strategyTypeFromCollectedFields */
  function TypeIn(data: Object, lib: Lib): string {
    if TypeText(data, lib) != "" then TypeText(data, lib) else PatchType(data, lib)
  }

  // ---- Sanitising a patch for a type ----

  function TopSections(p: Object): Object {
    map k | k in p && k in SECTIONS :: p[k]
  }

  /** The members of the type's own branch; AI sections at top level replace those inside. */
  function Branch(p: Object, t: string, lib: Lib): Object {
    if t == GRID then MapOf(At(p, GRID_CONFIG), lib)
    else if t == AI then MapOf(At(p, AI_CONFIG), lib) + TopSections(p)
    else map[]
  }

  function BranchKey(t: string): string {
    if t == GRID then GRID_CONFIG else AI_CONFIG
  }

  function Optional(key: string, m: Object): Object {
    if m == map[] then map[] else map[key := Obj(m)]
  }

  /** sanitizeStrategyCreateConfigPatchForType of an object; the empty object stands for nil. */
  function SanitizeObject(p: Object, t: string, lib: Lib): Object {
    var publish := MapOf(At(p, PUBLISH), lib);
    var branch := Branch(p, t, lib);
    if publish == map[] && branch == map[] then map[]
    else map[TYPE := Str(t)] + Optional(PUBLISH, publish) + Optional(BranchKey(t), branch)
  }

  function Sanitize(v: Json, t: string, lib: Lib): Object {
    SanitizeObject(MapOf(v, lib), t, lib)
  }

  method SanitizePatch(v: Json, t: string, lib: Lib) returns (out: Object)
    ensures out == Sanitize(v, t, lib)
  {
    KeyFacts();
    hide ADMITTED, LASTING, SECTIONS, MapOf, TYPE, PUBLISH, GRID_CONFIG, AI_CONFIG, GRID, AI;
    var p := MapOf(v, lib);
    out := map[TYPE := Str(t)];
    var publish := MapOf(At(p, PUBLISH), lib);
    if publish != map[] {
      out := out[PUBLISH := Obj(publish)];
    }
    assert out == map[TYPE := Str(t)] + Optional(PUBLISH, publish);
    if t == GRID {
      var grid := MapOf(At(p, GRID_CONFIG), lib);
      if grid != map[] {
        out := out[GRID_CONFIG := Obj(grid)];
      }
    } else if t == AI {
      var ai := TakeSections(p, MapOf(At(p, AI_CONFIG), lib));
      if ai != map[] {
        out := out[AI_CONFIG := Obj(ai)];
      }
    }
    assert out == map[TYPE := Str(t)] + Optional(PUBLISH, publish) + Optional(BranchKey(t), Branch(p, t, lib));
    if PUBLISH !in out && GRID_CONFIG !in out && AI_CONFIG !in out {
      out := map[];
    }
  }

  method TakeSections(p: Object, nested: Object) returns (ai: Object)
    ensures ai == nested + TopSections(p)
  {
    hide SECTIONS;
    ai := nested;
    var todo := SECTIONS;
    while todo != {}
      invariant todo <= SECTIONS
      invariant ai.Keys == nested.Keys + (TopSections(p).Keys - todo)
      invariant forall k :: k in ai ==> ai[k] == if k in TopSections(p) && k !in todo then p[k] else nested[k]
      decreases todo
    {
      var k :| k in todo;
      todo := todo - {k};
      if k in p {
        ai := ai[k := p[k]];
      }
    }
  }

  /** What a sanitised patch holds under each key. */
  lemma {:induction false} SanitizedAt(p: Object, t: string, lib: Lib)
    ensures var s := SanitizeObject(p, t, lib);
            && (s == map[] <==> MapOf(At(p, PUBLISH), lib) == map[] && Branch(p, t, lib) == map[])
            && (s != map[] ==> At(s, TYPE) == Str(t) && TYPE in s)
            && s.Keys <= {TYPE, PUBLISH, BranchKey(t)}
            && MapOf(At(s, PUBLISH), lib) == MapOf(At(p, PUBLISH), lib)
            && MapOf(At(s, BranchKey(t)), lib) == Branch(p, t, lib)
            && (BranchKey(t) in s ==> s[BranchKey(t)] == Obj(Branch(p, t, lib)) && Branch(p, t, lib) != map[])
  {
    KeyFacts();
    hide ADMITTED, LASTING, SECTIONS, Branch, TYPE, PUBLISH, GRID_CONFIG, AI_CONFIG, GRID, AI;
  }

  /** Sanitising is idempotent, for every type text. */
  lemma {:induction false} SanitizeTwice(p: Object, t: string, lib: Lib)
    ensures SanitizeObject(SanitizeObject(p, t, lib), t, lib) == SanitizeObject(p, t, lib)
  {
    var s := SanitizeObject(p, t, lib);
    KeyFacts();
    SanitizedAt(p, t, lib);
    NoSections(s, t);
    hide ADMITTED, LASTING, SECTIONS, MapOf, TYPE, PUBLISH, GRID_CONFIG, AI_CONFIG, GRID, AI;
    assert Branch(s, t, lib) == Branch(p, t, lib);
  }

  lemma {:induction false} NoSections(s: Object, t: string)
    requires s.Keys <= {TYPE, PUBLISH, BranchKey(t)}
    ensures TopSections(s) == map[]
  {
    KeyFacts();
    hide SECTIONS, TYPE, PUBLISH, GRID_CONFIG, AI_CONFIG;
  }

  // ---- One turn ----

  /** Keys are trimmed and blank ones dropped; of several keys that become one, any may win. */
  ghost predicate Rekeyed(raw: Object, out: Object) {
    && (forall k :: k in raw && Trim(k) != "" ==> Trim(k) in out)
    && (forall n :: n in out ==> n != "" && exists k :: k in raw && Trim(k) == n && out[n] == raw[k])
  }

  function Restrict(m: Object, keys: set<string>): Object {
    map k | k in m && k in keys :: m[k]
  }

  const COMMON: set<string> := {"name", "description", "is_public", "config_visible", "strategy_type"}
  const GRID_FIELDS: set<string> :=
    {"symbol", "grid_count", "total_investment", "leverage", "upper_price", "lower_price",
     "use_atr_bounds", "atr_multiplier",
     "distribution", "enable_direction_adjust", "direction_bias_ratio", "max_drawdown_pct", "stop_loss_pct",
     "daily_loss_limit_pct", "use_maker_only"}
  const AI_FIELDS: set<string> :=
    {"source_type", "static_coins", "excluded_coins", "primary_timeframe", "primary_count",
     "selected_timeframes", "enable_ema",
     "enable_macd", "enable_rsi", "enable_atr", "enable_boll", "enable_volume", "enable_oi",
     "enable_funding_rate", "ema_periods",
     "rsi_periods", "atr_periods", "boll_periods", "btceth_max_leverage", "altcoin_max_leverage",
     "min_risk_reward_ratio",
     "min_confidence", "role_definition", "trading_frequency", "entry_standards", "decision_process", "custom_prompt"}

  /** manualStrategyEditableFieldKeysForType, for the two types. */
  function Editable(t: string): set<string> {
    COMMON + if t == GRID then GRID_FIELDS else AI_FIELDS
  }

  /** What the template of type `t` lets through of one value. */
  predicate Passes(data: Object, k: string, t: string, lib: Lib)
    requires k in data
  {
    if k == PATCH then Sanitize(data[k], t, lib) != map[] else k == CONFIRM || k in Editable(t)
  }

  function Passed(data: Object, k: string, t: string, lib: Lib): Json
    requires k in data
  {
    if k == PATCH then Obj(Sanitize(data[k], t, lib)) else data[k]
  }

  /** filterStrategyCreateExtractedDataByTemplate, with the empty object for nil. */
  function ByTemplate(collected: Object, data: Object, lib: Lib): Object {
    var own := TypeIn(data, lib);
    var t := if own != "" then own else TypeIn(collected, lib);
    if t == "" then data else map k | k in data && Passes(data, k, t, lib) :: Passed(data, k, t, lib)
  }

  /** A setting that only grids have passes the template of a grid and not that of AI trading, one that only AI
      trading has the other way round, and what both share passes both. */
  lemma {:induction false} TemplateSplits(collected: Object, data: Object, k: string, lib: Lib)
    requires k in data && k != PATCH && k != CONFIRM
    ensures var own := TypeIn(data, lib);
            var t := if own != "" then own else TypeIn(collected, lib);
            var passes := k in ByTemplate(collected, data, lib);
            && (k in COMMON || t == "" ==> passes)
            && (k in GRID_FIELDS && k !in AI_FIELDS && k !in COMMON && t != "" ==> (passes <==> t == "grid_trading"))
            && (k in AI_FIELDS && k !in GRID_FIELDS && k !in COMMON && t != "" ==> (passes <==> t != "grid_trading"))
            && (k !in COMMON && k !in GRID_FIELDS && k !in AI_FIELDS && t != "" ==> !passes)
  {
    hide COMMON, GRID_FIELDS, AI_FIELDS, TypeIn, Sanitize;
  }

  /** resetActiveStrategyCreateFieldsForType */
  function Reset(collected: Object, t: string): Object {
    Restrict(collected, LASTING)[TYPE := Str(t)]
  }

  predicate Switches(collected: Object, data: Object, lib: Lib) {
    TypeIn(data, lib) != "" && TypeIn(collected, lib) != "" && TypeIn(data, lib) != TypeIn(collected, lib)
  }

  /** mergeExtractedData, once the keys are trimmed. */
  function Merge(collected: Object, data: Object, lib: Lib): Object {
    (if Switches(collected, data, lib) then Reset(collected, TypeIn(data, lib)) else collected) + data
  }

  /** One turn: what the model extracted, re-keyed, is filtered and merged. */
  function Turn(collected: Object, extracted: Object, lib: Lib): Object {
    Merge(collected, ByTemplate(collected, Restrict(extracted, ADMITTED), lib), lib)
  }

  class Draft {
    var collected: Object

    constructor ()
      ensures collected == map[]
    {
      collected := map[];
    }

    /** filterExtractedDataForActiveSession */
    method Filter(data: Object, lib: Lib) returns (out: Object)
      ensures exists put :: Rekeyed(data, put) && out == ByTemplate(collected, Restrict(put, ADMITTED), lib)
    {
      hide ADMITTED, Trim, MapOf, Passes, Passed, TypeIn;
      ghost var put: Object := map[];
      var kept: Object := map[];
      var todo := data.Keys;
      while todo != {}
        invariant todo <= data.Keys
        invariant forall k :: k in data.Keys - todo && Trim(k) != "" ==> Trim(k) in put
        invariant forall n :: n in put ==> n != "" && exists k :: k in data && Trim(k) == n && put[n] == data[k]
        invariant kept == Restrict(put, ADMITTED)
        decreases todo
      {
        var key :| key in todo;
        todo := todo - {key};
        var k := Trim(key);
        if k == "" {
          continue;
        }
        put := put[k := data[key]];
        if k in ADMITTED {
          kept := kept[k := data[key]];
        }
      }
      assert Rekeyed(data, put);
      out := ApplyTemplate(kept, lib);
    }

    /** filterStrategyCreateExtractedDataByTemplate */
    method ApplyTemplate(data: Object, lib: Lib) returns (out: Object)
      ensures out == ByTemplate(collected, data, lib)
    {
      hide TypeIn, Sanitize, COMMON, GRID_FIELDS, AI_FIELDS, PATCH, CONFIRM;
      var t := TypeIn(data, lib);
      if t == "" {
        t := TypeIn(collected, lib);
      }
      if t == "" {
        return data;
      }
      out := map[];
      var todo := data.Keys;
      while todo != {}
        invariant todo <= data.Keys
        invariant forall k :: k in out <==> k in data && k !in todo && Passes(data, k, t, lib)
        invariant forall k :: k in out ==> out[k] == Passed(data, k, t, lib)
        decreases todo
      {
        var key :| key in todo;
        todo := todo - {key};
        if key == PATCH {
          var patch := SanitizePatch(data[key], t, lib);
          if patch != map[] {
            out := out[key := Obj(patch)];
          }
        } else if key == CONFIRM || key in Editable(t) {
          out := out[key := data[key]];
        }
      }
    }

    /** mergeExtractedData */
    method MergeExtracted(data: Object, lib: Lib)
      modifies this
      ensures exists put :: Rekeyed(data, put) && collected ==
                (if Switches(old(collected), data, lib) then Reset(old(collected), TypeIn(data, lib))
                    else old(collected)) + put
    {
      hide Trim, TypeIn, Reset, Switches;
      if Switches(collected, data, lib) {
        collected := Reset(collected, TypeIn(data, lib));
      }
      ghost var base := collected;
      ghost var put: Object := map[];
      var todo := data.Keys;
      while todo != {}
        invariant todo <= data.Keys
        invariant forall k :: k in data.Keys - todo && Trim(k) != "" ==> Trim(k) in put
        invariant forall n :: n in put ==> n != "" && exists k :: k in data && Trim(k) == n && put[n] == data[k]
        invariant collected == base + put
        decreases todo
      {
        var key :| key in todo;
        todo := todo - {key};
        var k := Trim(key);
        if k != "" {
          PutOne(base, put, k, data[key]);
          collected := collected[k := data[key]];
          put := put[k := data[key]];
        }
      }
      assert Rekeyed(data, put);
    }

    /** The two calls every turn makes. */
    method TakeTurn(data: Object, lib: Lib)
      modifies this
      ensures exists put :: Rekeyed(data, put) && collected == Turn(old(collected), put, lib)
    {
      hide Rekeyed, Turn, Trim;
      var out := Filter(data, lib);
      ghost var put :| Rekeyed(data, put) && out == ByTemplate(collected, Restrict(put, ADMITTED), lib);
      ghost var before := collected;
      MergeExtracted(out, lib);
      ghost var put' :| Rekeyed(out, put')
          && collected == (if Switches(before, out, lib) then Reset(before, TypeIn(out, lib)) else before) + put';
      AdmittedKeys(before, put, lib);
      TrimmedRekeyed(out, put');
      assert collected == Turn(before, put, lib) by { TurnIs(before, put, lib); }
    }
  }

  lemma {:induction false} PutOne(m: Object, put: Object, k: string, v: Json)
    ensures (m + put)[k := v] == m + put[k := v]
  {
  }

  lemma {:induction false} TurnIs(collected: Object, put: Object, lib: Lib)
    ensures var out := ByTemplate(collected, Restrict(put, ADMITTED), lib);
            Turn(collected, put, lib) == (if Switches(collected, out, lib) then Reset(collected, TypeIn(out, lib))
                else collected) + out
  {
  }

  lemma {:induction false} AdmittedKeys(collected: Object, put: Object, lib: Lib)
    ensures ByTemplate(collected, Restrict(put, ADMITTED), lib).Keys <= ADMITTED
    ensures forall k :: k in ADMITTED ==> Trimmed(k) && k != ""
  {
    KeyFacts();
    hide TypeIn, Passes, Passed;
  }

  lemma {:induction false} TrimmedRekeyed(raw: Object, out: Object)
    requires Rekeyed(raw, out) && forall k :: k in raw ==> Trimmed(k) && k != ""
    ensures out == raw
  {
    forall k | k in raw ensures Trim(k) == k {}
    hide Trim, Trimmed;
    assert out.Keys == raw.Keys;
  }

  // ---- Whole drafts ----

  /** A patch that names or implies a type holds that type's branch alone, and the draft is of that type. */
  predicate Sound(collected: Object, lib: Lib) {
    var t := PatchType(collected, lib);
    t != "" ==> TypeIn(collected, lib) == t && MapOf(collected[PATCH], lib) == Sanitize(collected[PATCH], t, lib)
  }

  /** The collected fields after a run of turns, given what each extracted after re-keying. */
  function Drafted(turns: seq<Object>, lib: Lib): Object {
    if turns == [] then map[] else Turn(Drafted(turns[..|turns| - 1], lib), turns[|turns| - 1], lib)
  }

  lemma {:induction false} SanitizedType(v: Json, t: string, lib: Lib)
    requires lib.Valid() && (t == GRID || t == AI) && Sanitize(v, t, lib) != map[]
    ensures TypeOfPatch(Obj(Sanitize(v, t, lib)), lib) == t
    ensures MapOf(Obj(Sanitize(v, t, lib)), lib) == Sanitize(Obj(Sanitize(v, t, lib)), t, lib)
  {
    KeyFacts();
    SanitizedAt(MapOf(v, lib), t, lib);
    SanitizeTwice(MapOf(v, lib), t, lib);
    CanonicalTypesParse(lib);
    hide SanitizeObject, ParseType, TYPE, PUBLISH, GRID_CONFIG, AI_CONFIG, ADMITTED, LASTING, SECTIONS, GRID, AI;
  }

  /** What the template leaves of admitted data: a sanitised patch, every other admitted value untouched. */
  lemma {:induction false} Templated(collected: Object, data: Object, lib: Lib)
    requires data.Keys <= ADMITTED
    ensures var out := ByTemplate(collected, data, lib);
            var t := if TypeIn(data, lib) != "" then TypeIn(data, lib) else TypeIn(collected, lib);
            && (forall k :: k in data && k != PATCH ==> k in out && out[k] == data[k])
            && out.Keys <= data.Keys
            && (t == "" ==> out == data)
            && (t != "" && PATCH in out ==>
               Sanitize(data[PATCH], t, lib) != map[] && out[PATCH] == Obj(Sanitize(data[PATCH], t, lib)))
            && (t != "" ==> (t == GRID || t == AI))
  {
    KeyFacts();
    AdmittedCommon();
    hide Sanitize, ParseType, GRID_FIELDS, AI_FIELDS, COMMON, ADMITTED, GRID, AI, PATCH, TYPE, CONFIRM,
        NAME, TypeOfPatch;
    TypesOnly(data, lib);
    TypesOnly(collected, lib);
    hide TypeIn;
  }

  lemma {:induction false} AdmittedCommon()
    ensures TYPE in COMMON && NAME in COMMON
  {
  }

  lemma {:induction false} TypesOnly(data: Object, lib: Lib)
    ensures TypeIn(data, lib) == "" || TypeIn(data, lib) == GRID || TypeIn(data, lib) == AI
  {
    hide ParseType, GRID, AI, MapOf;
  }

  lemma {:induction false} TurnIsSound(collected: Object, extracted: Object, lib: Lib)
    requires lib.Valid() && Sound(collected, lib)
    ensures Sound(Turn(collected, extracted, lib), lib)
    ensures var out := ByTemplate(collected, Restrict(extracted, ADMITTED), lib);
            TypeIn(out, lib) != "" ==> TypeIn(Turn(collected, extracted, lib), lib) == TypeIn(out, lib)
  {
    var data := Restrict(extracted, ADMITTED);
    var out := ByTemplate(collected, data, lib);
    var t := if TypeIn(data, lib) != "" then TypeIn(data, lib) else TypeIn(collected, lib);
    KeyFacts();
    Templated(collected, data, lib);
    if t != "" && PATCH in out {
      SanitizedType(data[PATCH], t, lib);
    }
    hide ByTemplate, Sanitize, ADMITTED, COMMON;
    MergeIsSound(collected, data, out, lib, t);
  }

  lemma {:induction false} MergeIsSound(collected: Object, data: Object, out: Object, lib: Lib, t: string)
    requires lib.Valid() && Sound(collected, lib) && TYPE != PATCH && PATCH !in LASTING
    requires t == (if TypeIn(data, lib) != "" then TypeIn(data, lib) else TypeIn(collected, lib))
    requires (TYPE in out <==> TYPE in data) && (TYPE in out ==> out[TYPE] == data[TYPE]) && out.Keys <= data.Keys
    requires t == "" ==> out == data
    requires t != "" ==> t == GRID || t == AI
    requires t != "" && PATCH in out ==>
             PatchType(out, lib) == t && MapOf(out[PATCH], lib) == Sanitize(out[PATCH], t, lib)
    ensures Sound(Merge(collected, out, lib), lib)
    ensures TypeIn(out, lib) != "" ==> TypeIn(Merge(collected, out, lib), lib) == TypeIn(out, lib)
  {
    CanonicalTypesParse(lib);
    MergedTypes(collected, out, lib);
    hide Sanitize, MapOf, LASTING, ParseType, TypeOfPatch, TYPE, PATCH, GRID, AI, Merge;
  }

  /** The type text and the patch after a merge: this turn's, or the old ones unless the type changed. */
  lemma {:induction false} MergedTypes(collected: Object, out: Object, lib: Lib)
    requires TYPE != PATCH && PATCH !in LASTING && ParseType(GRID, lib) == GRID
             && ParseType(AI, lib) == AI && lib.Valid()
    ensures var after, switched := Merge(collected, out, lib), Switches(collected, out, lib);
            && TypeText(after, lib) == (if TYPE in out then TypeText(out, lib) else if switched then TypeIn(out, lib)
               else TypeText(collected, lib))
            && (PATCH in after <==> PATCH in out || (PATCH in collected && !switched))
            && (PATCH in after ==> after[PATCH] == if PATCH in out then out[PATCH] else collected[PATCH])
            && PatchType(after, lib) == (if PATCH in out then PatchType(out, lib) else if switched then ""
               else PatchType(collected, lib))
  {
    TypesOnly(out, lib);
    hide MapOf, LASTING, ParseType, TypeOfPatch, TYPE, PATCH, GRID, AI, TypeIn;
  }

  /** In every run of turns, whatever the model extracts, a grid branch is held only by a grid draft and an
      AI branch only by an AI draft; and a patch with a type holds nothing but the type, the publishing
      settings and the one branch. */
  lemma {:induction false} NeverMixed(turns: seq<Object>, lib: Lib)
    requires lib.Valid()
    ensures var c := Drafted(turns, lib);
            PATCH in c ==>
              var p, t := MapOf(c[PATCH], lib), TypeIn(c, lib);
              && (GRID_CONFIG in p ==> t == GRID && AI_CONFIG !in p)
              && (AI_CONFIG in p ==> t == AI && GRID_CONFIG !in p)
              && (TypeOfPatch(c[PATCH], lib) != ""
                 ==> TypeOfPatch(c[PATCH], lib) == t && p.Keys <= {TYPE, PUBLISH, BranchKey(t)})
  {
    var c := Drafted(turns, lib);
    DraftIsSound(turns, lib);
    KeyFacts();
    hide *;
    if PATCH in c {
      SoundPatch(c, lib);
    }
  }

  lemma {:induction false} SoundPatch(c: Object, lib: Lib)
    requires Sound(c, lib) && PATCH in c
    ensures var p, t := MapOf(c[PATCH], lib), TypeIn(c, lib);
            && (GRID_CONFIG in p ==> t == GRID && AI_CONFIG !in p)
            && (AI_CONFIG in p ==> t == AI && GRID_CONFIG !in p)
            && (TypeOfPatch(c[PATCH], lib) != ""
               ==> TypeOfPatch(c[PATCH], lib) == t && p.Keys <= {TYPE, PUBLISH, BranchKey(t)})
  {
    var p, t := MapOf(c[PATCH], lib), TypeIn(c, lib);
    assert PatchType(c, lib) == TypeOfPatch(c[PATCH], lib) by { hide TypeOfPatch; }
    TypesOnly(c, lib);
    BranchImpliesType(c[PATCH], lib);
    SanitizedAt(p, t, lib);
    KeyFacts();
    hide MapOf, SanitizeObject, TypeOfPatch, PatchType, TypeIn, SECTIONS, TYPE, PATCH, PUBLISH, GRID_CONFIG,
        AI_CONFIG, GRID, AI, Branch;
  }

  lemma {:induction false} BranchImpliesType(v: Json, lib: Lib)
    ensures GRID_CONFIG in MapOf(v, lib) || AI_CONFIG in MapOf(v, lib) ==> TypeOfPatch(v, lib) != ""
  {
    KeyFacts();
    hide ParseType, MapOf, GRID_CONFIG, AI_CONFIG, TYPE, GRID, AI;
  }

  lemma {:induction false} DraftIsSound(turns: seq<Object>, lib: Lib)
    requires lib.Valid()
    ensures Sound(Drafted(turns, lib), lib)
  {
    hide Turn, Sound, PATCH, TYPE;
    if turns == [] {
      NothingIsSound(lib);
    } else {
      DraftIsSound(turns[..|turns| - 1], lib);
      TurnIsSound(Drafted(turns[..|turns| - 1], lib), turns[|turns| - 1], lib);
    }
  }

  lemma {:induction false} NothingIsSound(lib: Lib)
    ensures Sound(map[], lib)
  {
  }

  /** A turn that changes the type carries nothing over but the lasting keys: the patch and the flag asking
      for confirmation are this turn's or absent. Any other turn keeps all it does not overwrite. */
  lemma {:induction false} WhatATurnKeeps(collected: Object, extracted: Object, lib: Lib, k: string)
    requires lib.Valid() && Sound(collected, lib)
    ensures var out, after := ByTemplate(collected, Restrict(extracted, ADMITTED), lib),
            Turn(collected, extracted, lib);
            && (k in out ==> k in after && after[k] == out[k] && k in ADMITTED && k in extracted)
            && (k in out && k != PATCH ==> out[k] == extracted[k])
            && (k !in out ==>
                 if Switches(collected, out, lib) then
                   && (k in after <==> k == TYPE || (k in collected && k in LASTING))
                   && (k in after ==> after[k] == if k == TYPE then Str(TypeIn(out, lib)) else collected[k])
                 else (k in after <==> k in collected) && (k in after ==> after[k] == collected[k]))
            && (Switches(collected, out, lib) ==> TypeIn(after, lib) == TypeIn(out, lib) != TypeIn(collected, lib))
  {
    var data := Restrict(extracted, ADMITTED);
    KeyFacts();
    Templated(collected, data, lib);
    TurnIsSound(collected, extracted, lib);
    hide TypeIn, ByTemplate, Sanitize, LASTING, ADMITTED, TYPE, PATCH, Sound;
  }

  /** A type that arrives after a patch without one leaves that patch as it is: settings of the other type
      at its top level stay in the draft. */
  lemma {:induction false} UntypedPatchOutlivesType(collected: Object, t: string, lib: Lib)
    requires lib.Valid() && (t == GRID || t == AI)
    requires PATCH in collected && TypeIn(collected, lib) == ""
    ensures var after := Turn(collected, map[TYPE := Str(t)], lib);
            TypeIn(after, lib) == t && PATCH in after && after[PATCH] == collected[PATCH]
  {
    KeyFacts();
    CanonicalTypesParse(lib);
    var extracted: Object := map[TYPE := Str(t)];
    assert Restrict(extracted, ADMITTED) == extracted;
    Templated(collected, extracted, lib);
    hide ParseType, TypeOfPatch, Sanitize, LASTING, ADMITTED, TYPE, PATCH, GRID, AI, ByTemplate, COMMON;
    var out := ByTemplate(collected, extracted, lib);
    assert out == extracted;
  }

  // ---- When a draft's patch is the one its type asks for ----

  /** Words that begin with none of the characters of "<nil>" are not in it. */
  lemma {:induction false} NoneInNil(words: seq<string>)
    requires forall i :: 0 <= i < |words| ==> words[i] != "" && words[i][0] !in {'<', 'n', 'i', 'l', '>'}
    ensures !ContainsAny(NIL_TEXT, words)
  {
    forall i, k | 0 <= i < |words| && 0 <= k <= |NIL_TEXT| ensures !(words[i] <= NIL_TEXT[k..]) {
      if k < |NIL_TEXT| {
        assert NIL_TEXT[k..][0] == NIL_TEXT[k];
      }
    }
  }

  lemma {:induction false} WordStarts()
    ensures forall words :: words in {GRID_WORDS, COIN_WORDS, AI_WORDS}
              ==> forall i :: 0 <= i < |words| ==> words[i] != "" && words[i][0] !in {'<', 'n', 'i', 'l', '>'}
  {
  }

  /** A missing type names no type. */
  lemma {:induction false} NilHasNoType(lib: Lib)
    requires lib.Valid()
    ensures ParseType(lib.print_(Null), lib) == ""
  {
    WordStarts();
    assert Trimmed(NIL_TEXT);
    assert NIL_TEXT != GRID && NIL_TEXT != AI by { assert |NIL_TEXT| == 5 && |GRID| == 12 && |AI| == 10; }
    hide ContainsAny, NIL_TEXT, Trimmed, GRID, AI, GRID_WORDS, COIN_WORDS, AI_WORDS;
    NoneInNil(GRID_WORDS);
    NoneInNil(COIN_WORDS);
    NoneInNil(AI_WORDS);
  }

  function WithoutType(p: Object): Object {
    p - {TYPE}
  }

  /** A patch with nothing in it that sanitising would drop, move or rewrite, but for the type it adds. */
  predicate Bare(p: Object) {
    p.Keys <= {TYPE, PUBLISH} && (PUBLISH in p ==> p[PUBLISH].Obj? && p[PUBLISH].members != map[])
  }

  lemma {:induction false} BareExactly(p: Object, t: string, lib: Lib)
    requires (t == GRID || t == AI) && GRID_CONFIG !in p && AI_CONFIG !in p
    ensures WithoutType(SanitizeObject(p, t, lib)) == WithoutType(p) <==> Bare(p)
  {
    KeyFacts();
    var s := SanitizeObject(p, t, lib);
    SanitizedAt(p, t, lib);
    assert MapOf(Null, lib) == map[];
    PublishKept(p, t, lib);
    hide SanitizeObject, GRID, AI, TYPE, PUBLISH, GRID_CONFIG, AI_CONFIG, SECTIONS, ADMITTED, LASTING, MapOf;
    if Bare(p) {
      forall k | k in p ensures k !in SECTIONS {}
      assert TopSections(p) == map[];
      assert Branch(p, t, lib) == map[];
      assert WithoutType(s).Keys == WithoutType(p).Keys;
      assert WithoutType(s) == WithoutType(p);
    }
    if WithoutType(s) == WithoutType(p) {
      forall k | k in p ensures k in {TYPE, PUBLISH} {
        assert k != TYPE ==> k in WithoutType(p) && k in WithoutType(s);
      }
      assert PUBLISH in p ==> PUBLISH in WithoutType(p) && PUBLISH in s && s[PUBLISH] == p[PUBLISH];
    }
  }

  /** The publishing settings go through exactly when they are a non-empty object once read. */
  lemma {:induction false} PublishKept(p: Object, t: string, lib: Lib)
    requires t == GRID || t == AI
    ensures var s := SanitizeObject(p, t, lib);
            && (PUBLISH in s <==> MapOf(At(p, PUBLISH), lib) != map[])
            && (PUBLISH in s ==> s[PUBLISH] == Obj(MapOf(At(p, PUBLISH), lib)))
            && (PUBLISH in p && p[PUBLISH].Obj? ==> MapOf(At(p, PUBLISH), lib) == p[PUBLISH].members)
  {
    KeyFacts();
    hide Branch, GRID, AI, TYPE, PUBLISH, GRID_CONFIG, AI_CONFIG, SECTIONS, ADMITTED, LASTING;
  }

  /** Over every run of turns: the patch of a draft with a type is, but for the type itself, what
      sanitising makes of it, if and only if the patch named or implied its type or is bare. */
  lemma {:induction false} SanitisedExactly(turns: seq<Object>, lib: Lib)
    requires lib.Valid()
    ensures var c := Drafted(turns, lib);
            var t := TypeIn(c, lib);
            PATCH in c && t != "" ==>
              (WithoutType(Sanitize(c[PATCH], t, lib)) == WithoutType(MapOf(c[PATCH], lib))
               <==> PatchType(c, lib) != "" || Bare(MapOf(c[PATCH], lib)))
  {
    var c := Drafted(turns, lib);
    var t := TypeIn(c, lib);
    DraftIsSound(turns, lib);
    TypesOnly(c, lib);
    hide Drafted, SanitizeObject, MapOf, TypeIn, TypeOfPatch, GRID, AI, TYPE, PATCH, GRID_CONFIG, AI_CONFIG;
    if PATCH in c && t != "" && PatchType(c, lib) == "" {
      BranchImpliesType(c[PATCH], lib);
      BareExactly(MapOf(c[PATCH], lib), t, lib);
    }
  }

  /** No setting of the other type is in the patch. */
  predicate Pure(p: Object, t: string) {
    if t == GRID then AI_CONFIG !in p && TopSections(p) == map[] else GRID_CONFIG !in p
  }

  /** Over every run of turns: the patch of a draft with a type holds no setting of the other type, if and
      only if it named or implied its type, the draft is an AI draft, or no AI section lies at its top. */
  lemma {:induction false} OtherTypeKeptOut(turns: seq<Object>, lib: Lib)
    requires lib.Valid()
    ensures var c := Drafted(turns, lib);
            var t := TypeIn(c, lib);
            PATCH in c && t != "" ==>
              (Pure(MapOf(c[PATCH], lib), t) <==>
                  PatchType(c, lib) != "" || t == AI || TopSections(MapOf(c[PATCH], lib)) == map[])
  {
    DraftIsSound(turns, lib);
    hide *;
    if PATCH in Drafted(turns, lib) && TypeIn(Drafted(turns, lib), lib) != "" {
      PureExactly(Drafted(turns, lib), lib);
    }
  }

  lemma {:induction false} PureExactly(c: Object, lib: Lib)
    requires Sound(c, lib) && PATCH in c && TypeIn(c, lib) != ""
    ensures var p, t := MapOf(c[PATCH], lib), TypeIn(c, lib);
            Pure(p, t) <==> PatchType(c, lib) != "" || t == AI || TopSections(p) == map[]
  {
    hide SanitizeObject, MapOf, TypeIn, TypeOfPatch, GRID, AI, TYPE, PATCH, GRID_CONFIG, AI_CONFIG, PUBLISH, SECTIONS,
        TopSections, Branch;
    var p, t := MapOf(c[PATCH], lib), TypeIn(c, lib);
    TypesOnly(c, lib);
    KeyFacts();
    BranchImpliesType(c[PATCH], lib);
    SanitizedAt(p, t, lib);
    if PatchType(c, lib) != "" {
      NoSections(p, t);
    }
  }

  /** The same as a check before the turn that brings the type: a patch that came without one holds nothing
      of the other type afterwards exactly when the type is AI or it has no AI section at its top. */
  lemma {:induction false} TypingTurn(collected: Object, extracted: Object, lib: Lib)
    requires lib.Valid() && Sound(collected, lib) && PATCH in collected && TypeIn(collected, lib) == ""
    requires var out := ByTemplate(collected, Restrict(extracted, ADMITTED), lib);
             TypeIn(out, lib) != "" && PATCH !in out
    ensures var after := Turn(collected, extracted, lib);
            var t := TypeIn(after, lib);
            && t != "" && PATCH in after && after[PATCH] == collected[PATCH]
            && (Pure(MapOf(after[PATCH], lib), t) <==> t == AI || TopSections(MapOf(collected[PATCH], lib)) == map[])
            && (WithoutType(Sanitize(after[PATCH], t, lib)) == WithoutType(MapOf(after[PATCH], lib))
               <==> Bare(MapOf(collected[PATCH], lib)))
  {
    var out := ByTemplate(collected, Restrict(extracted, ADMITTED), lib);
    var after := Turn(collected, extracted, lib);
    TurnIsSound(collected, extracted, lib);
    WhatATurnKeeps(collected, extracted, lib, PATCH);
    TypesOnly(after, lib);
    KeyFacts();
    BranchImpliesType(collected[PATCH], lib);
    UntypedPatch(collected, lib);
    hide Turn, ByTemplate, SanitizeObject, MapOf, TypeIn, TypeOfPatch, GRID, AI, TYPE, PATCH, GRID_CONFIG, AI_CONFIG,
        Sound, TopSections, ADMITTED, LASTING;
    BareExactly(MapOf(collected[PATCH], lib), TypeIn(after, lib), lib);
  }

  lemma {:induction false} UntypedPatch(collected: Object, lib: Lib)
    requires PATCH in collected && TypeIn(collected, lib) == ""
    ensures TypeOfPatch(collected[PATCH], lib) == ""
  {
    hide TypeOfPatch, PATCH, TYPE;
  }

  /** Such a draft: a coin source given before any type, then the grid type. The grid draft holds it. */
  lemma {:induction false} GridDraftHoldsCoinSource(source: Json, lib: Lib)
    requires lib.Valid()
    ensures var turns: seq<Object> := [map[PATCH := Obj(map["coin_source" := source])], map[TYPE := Str(GRID)]];
            var c := Drafted(turns, lib);
            && TypeIn(c, lib) == GRID && PATCH in c && c[PATCH] == Obj(map["coin_source" := source])
            && !Pure(MapOf(c[PATCH], lib), GRID)
  {
    var p: Object := map["coin_source" := source];
    var first, second: Object := map[PATCH := Obj(p)], map[TYPE := Str(GRID)];
    var turns := [first, second];
    KeyFacts();
    NilHasNoType(lib);
    assert "coin_source" in SECTIONS;
    CoinSourceUntyped(p, source, lib);
    assert turns[..1] == [first] && [first][..0] == [];
    FirstTurnStays(first, lib);
    assert Drafted([first], lib) == first;
    UntypedPatchOutlivesType(first, GRID, lib);
    hide Turn, ParseType, TypeOfPatch, TypeIn, GRID, AI, TYPE, PATCH, GRID_CONFIG, AI_CONFIG, SECTIONS,
        ADMITTED, LASTING;
    assert "coin_source" in TopSections(p);
  }

  lemma {:induction false} CoinSourceUntyped(p: Object, source: Json, lib: Lib)
    requires lib.Valid() && p == map["coin_source" := source]
    ensures TypeOfPatch(Obj(p), lib) == ""
  {
    NilHasNoType(lib);
    assert |"coin_source"| == 11 && |TYPE| == 13 && |AI_CONFIG| == 9 && "coin_source"[0] == 'c'
        && GRID_CONFIG[0] == 'g';
    hide ParseType, TYPE, GRID_CONFIG, AI_CONFIG;
  }

  lemma {:induction false} FirstTurnStays(first: Object, lib: Lib)
    requires first.Keys == {PATCH} && TypeOfPatch(first[PATCH], lib) == ""
    ensures Turn(map[], first, lib) == first && TypeIn(first, lib) == ""
  {
    KeyFacts();
    hide TypeOfPatch, ParseType, TYPE, PATCH, CONFIRM, NAME, SECTIONS, LASTING;
    assert Restrict(first, ADMITTED) == first;
    assert TypeIn(first, lib) == "" && TypeIn(map[], lib) == "";
    assert map[] + first == first;
  }

  // ---- Which type a text stands for ----

  /** The word is a stretch of the text. */
  predicate Has(s: string, word: string) {
    exists a, b :: 0 <= a <= b <= |s| && s[a..b] == word
  }

  lemma {:induction false} HasContains(s: string, word: string)
    ensures Has(s, word) <==> Contains(s, word)
  {
    if Has(s, word) {
      var a, b :| 0 <= a <= b <= |s| && s[a..b] == word;
      assert s[a..][..b - a] == word;
      assert word <= s[a..];
    }
    if Contains(s, word) {
      var i :| 0 <= i <= |s| && word <= s[i..];
      assert s[i..i + |word|] == s[i..][..|word|] == word;
    }
  }

  lemma {:induction false} AnyContained(s: string)
    ensures ContainsAny(s, GRID_WORDS) <==> Has(s, "grid") || Has(s, "\U{7F51}\U{683C}")
    ensures ContainsAny(s, COIN_WORDS)
            <==> Has(s, "\U{9759}\U{6001}\U{5E01}") || Has(s, "\U{56FA}\U{5B9A}\U{5E01}")
                 || Has(s, "\U{9009}\U{5E01}\U{6765}\U{6E90}")
    ensures ContainsAny(s, AI_WORDS)
            <==> Has(s, "ai trading") || Has(s, "ai\U{7B56}\U{7565}") || Has(s, "ai \U{7B56}\U{7565}")
                 || Has(s, "ai\U{4EA4}\U{6613}")
                  || Has(s, "ai \U{4EA4}\U{6613}") || Has(s, "ai\U{667A}\U{80FD}")
                     || Has(s, "\U{667A}\U{80FD}\U{7B56}\U{7565}")
                  || Has(s, "\U{666E}\U{901A}\U{7B56}\U{7565}")
  {
    hide Has, Contains, ContainsAny;
    forall word ensures Has(s, word) <==> Contains(s, word) {
      HasContains(s, word);
    }
    AnyOfTwo(s, "grid", "\U{7F51}\U{683C}");
    AnyOfThree(s, "\U{9759}\U{6001}\U{5E01}", "\U{56FA}\U{5B9A}\U{5E01}", "\U{9009}\U{5E01}\U{6765}\U{6E90}");
    AnyOfEight(s, "ai trading", "ai\U{7B56}\U{7565}", "ai \U{7B56}\U{7565}", "ai\U{4EA4}\U{6613}",
        "ai \U{4EA4}\U{6613}",
               "ai\U{667A}\U{80FD}", "\U{667A}\U{80FD}\U{7B56}\U{7565}", "\U{666E}\U{901A}\U{7B56}\U{7565}");
  }

  lemma {:induction false} AnyOfTwo(s: string, a: string, b: string)
    ensures ContainsAny(s, [a, b]) <==> Contains(s, a) || Contains(s, b)
  {
    hide Contains;
    assert [a, b][0] == a && [a, b][1] == b;
  }

  lemma {:induction false} AnyOfThree(s: string, a: string, b: string, c: string)
    ensures ContainsAny(s, [a, b, c]) <==> Contains(s, a) || Contains(s, b) || Contains(s, c)
  {
    hide Contains;
    var w := [a, b, c];
    assert w[0] == a && w[1] == b && w[2] == c;
  }

  lemma {:induction false} AnyOfEight(s: string, a: string, b: string, c: string, d: string, e: string, f: string,
      g: string, h: string)
    ensures ContainsAny(s, [a, b, c, d, e, f, g, h])
            <==> Contains(s, a) || Contains(s, b) || Contains(s, c) || Contains(s, d)
                 || Contains(s, e) || Contains(s, f) || Contains(s, g) || Contains(s, h)
  {
    hide Contains;
    var w := [a, b, c, d, e, f, g, h];
    assert w[0] == a && w[1] == b && w[2] == c && w[3] == d && w[4] == e && w[5] == f && w[6] == g && w[7] == h;
  }

  /** The text speaks of a grid. */
  predicate SaysGrid(s: string) {
    Has(s, "grid") || Has(s, "\U{7F51}\U{683C}")
  }

  /** The text speaks of coins or of AI trading. */
  predicate SaysAi(s: string) {
    || Has(s, "\U{9759}\U{6001}\U{5E01}") || Has(s, "\U{56FA}\U{5B9A}\U{5E01}")
       || Has(s, "\U{9009}\U{5E01}\U{6765}\U{6E90}")
    || Has(s, "ai trading") || Has(s, "ai\U{7B56}\U{7565}") || Has(s, "ai \U{7B56}\U{7565}")
       || Has(s, "ai\U{4EA4}\U{6613}")
    || Has(s, "ai \U{4EA4}\U{6613}") || Has(s, "ai\U{667A}\U{80FD}") || Has(s, "\U{667A}\U{80FD}\U{7B56}\U{7565}")
    || Has(s, "\U{666E}\U{901A}\U{7B56}\U{7565}")
  }

  /** The type a draft has after a first turn that gives a text for it: the two exact names are themselves, a
      word for a grid makes a grid draft, a word for coins or AI without one an AI draft, anything else none. */
  lemma {:induction false} FirstTypeGiven(text: string, lib: Lib)
    requires lib.Valid()
    ensures var s := lib.lower(Trim(text));
            var t := TypeIn(Turn(map[], map["strategy_type" := Str(text)], lib), lib);
            && (t == "grid_trading" <==> s == "grid_trading" || (s != "ai_trading" && SaysGrid(s)))
            && (t == "ai_trading" <==> s == "ai_trading" || (s != "grid_trading" && !SaysGrid(s) && SaysAi(s)))
            && (t == "" <==> s != "grid_trading" && s != "ai_trading" && !SaysGrid(s) && !SaysAi(s))
  {
    ParsedType(text, lib);
    FirstTurnKeeps(text, lib);
    hide ParseType, Turn, TypeIn, SaysGrid, SaysAi;
  }

  lemma {:induction false} ParsedType(text: string, lib: Lib)
    ensures var (s, t) := (lib.lower(Trim(text)), ParseType(text, lib));
            && (t == "grid_trading" <==> s == "grid_trading" || (s != "ai_trading" && SaysGrid(s)))
            && (t == "ai_trading" <==> s == "ai_trading" || (s != "grid_trading" && !SaysGrid(s) && SaysAi(s)))
            && (t == "" <==> s != "grid_trading" && s != "ai_trading" && !SaysGrid(s) && !SaysAi(s))
  {
    KeyFacts();
    AnyContained(lib.lower(Trim(text)));
    hide Has, ContainsAny, ADMITTED, LASTING, SECTIONS, Trim;
  }

  lemma {:induction false} FirstTurnKeeps(text: string, lib: Lib)
    requires lib.Valid()
    ensures TypeIn(Turn(map[], map["strategy_type" := Str(text)], lib), lib) == ParseType(text, lib)
  {
    KeyFacts();
    var data: Object := map[TYPE := Str(text)];
    assert Restrict(data, ADMITTED) == data;
    assert TYPE in COMMON && map[] + data == data;
    assert lib.print_(Str(text)) == text;
    hide ParseType, ADMITTED, LASTING, SECTIONS, GRID_FIELDS, AI_FIELDS, Sanitize;
  }

  /** A word for a grid and a grid configuration in one first turn: the configuration is kept as it is, under
      the exact name of the type. */
  lemma {:induction false} GridWordKeepsGrid(text: string, grid: Object, lib: Lib)
    requires lib.Valid() && grid != map[]
    requires var s := lib.lower(Trim(text)); s == "grid_trading" || (s != "ai_trading" && SaysGrid(s))
    ensures var turn: Object := map["strategy_type" := Str(text),
            "config_patch" := Obj(map["grid_config" := Obj(grid)])];
            var after := Turn(map[], turn, lib);
            && TypeIn(after, lib) == "grid_trading" && "config_patch" in after
            && after["config_patch"] == Obj(map["strategy_type" := Str("grid_trading"), "grid_config" := Obj(grid)])
  {
    ParsedType(text, lib);
    var p: Object := map[GRID_CONFIG := Obj(grid)];
    GridSanitized(grid, lib);
    assert Sanitize(Obj(p), GRID, lib) == map[TYPE := Str(GRID), GRID_CONFIG := Obj(grid)] by { hide SanitizeObject; }
    hide ParseType, SaysGrid, SaysAi, Turn, Sanitize, TypeIn;
    GridTurn(text, p, lib);
    TextIsType(text, map[TYPE := Str(GRID), GRID_CONFIG := Obj(grid)], lib);
  }

  lemma {:induction false} TextIsType(text: string, p: Object, lib: Lib)
    requires lib.Valid() && ParseType(text, lib) != ""
    ensures TypeIn(map[TYPE := Str(text), PATCH := Obj(p)], lib) == ParseType(text, lib)
  {
    KeyFacts();
    hide ParseType, ADMITTED, LASTING, SECTIONS, TYPE, PATCH, TypeOfPatch;
    assert lib.print_(Str(text)) == text;
  }

  /** A first turn with a grid type text and a patch. */
  lemma {:induction false} GridTurn(text: string, p: Object, lib: Lib)
    requires lib.Valid() && ParseType(text, lib) == GRID && Sanitize(Obj(p), GRID, lib) != map[]
    ensures Turn(map[], map[TYPE := Str(text), PATCH := Obj(p)], lib)
            == map[TYPE := Str(text), PATCH := Obj(Sanitize(Obj(p), GRID, lib))]
  {
    hide ParseType, ADMITTED, LASTING, SECTIONS, GRID_FIELDS, AI_FIELDS, SanitizeObject;
    KeyFacts();
    var data: Object := map[TYPE := Str(text), PATCH := Obj(p)];
    assert lib.print_(Str(text)) == text;
    assert TYPE in COMMON;
    hide TYPE, PATCH, GRID_CONFIG, GRID, AI, COMMON;
    assert TypeIn(data, lib) == GRID;
    assert Restrict(data, ADMITTED) == data;
    var out := ByTemplate(map[], data, lib);
    assert Passes(data, PATCH, GRID, lib) && Passes(data, TYPE, GRID, lib);
    assert out == map[TYPE := Str(text), PATCH := Obj(Sanitize(Obj(p), GRID, lib))];
    NothingCollected(lib);
    assert map[] + out == out;
  }

  lemma {:induction false} NothingCollected(lib: Lib)
    ensures TypeIn(map[], lib) == ""
  {
  }

  lemma {:induction false} GridSanitized(grid: Object, lib: Lib)
    requires grid != map[]
    ensures SanitizeObject(map[GRID_CONFIG := Obj(grid)], GRID, lib) == map[TYPE := Str(GRID), GRID_CONFIG := Obj(grid)]
  {
    KeyFacts();
    hide ADMITTED, LASTING, SECTIONS;
  }
}
