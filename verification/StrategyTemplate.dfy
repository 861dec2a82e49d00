/** agent/skill_management_handlers.go: which settings of a strategy draft are explicit, and what
    sanitising and normalising the draft do to them. */
module StrategyTemplates {
  import opened Options
  import opened Sequences
  import opened StrategyDrafts
  import opened Text

  // ---- Paths into a patch ----

  /** strategyCreatePatchHasPath */
  predicate HasPath(v: Json, path: seq<string>)
    decreases |path|
  {
    path == [] || (v.Obj? && path[0] in v.members && HasPath(v.members[path[0]], path[1..]))
  }

  method PatchHasPath(value: Json, path: seq<string>) returns (found: bool)
    ensures found <==> HasPath(value, path)
  {
    var current := value;
    assert path[0..] == path;
    for i := 0 to |path|
      invariant HasPath(value, path) == HasPath(current, path[i..])
    {
      DropStep(path, i);
      if !current.Obj? || path[i] !in current.members {
        return false;
      }
      current := current.members[path[i]];
    }
    assert path[|path|..] == [];
    return true;
  }

  const GRID_PATHS: set<string> :=
    {"symbol", "grid_count", "total_investment", "leverage", "distribution", "max_drawdown_pct", "stop_loss_pct",
     "daily_loss_limit_pct", "use_maker_only", "use_atr_bounds", "upper_price", "lower_price"}

  /** Where an AI setting lives: a section, and the ways it may be written below it. */
  datatype Place = Place(section: string, ways: seq<seq<string>>)

  function AiPlace(field: string): (r: Option<Place>)
  {
    match field
    case "source_type" => Some(Place("coin_source", [["source_type"], ["static_coins"]]))
    case "static_coins" => Some(Place("coin_source", [["static_coins"]]))
    case "primary_timeframe" => Some(Place("indicators", [["klines", "primary_timeframe"]]))
    case "selected_timeframes" => Some(Place("indicators", [["klines", "selected_timeframes"]]))
    case "btceth_max_leverage" => Some(Place("risk_control", [["btc_eth_max_leverage"], ["btceth_max_leverage"]]))
    case "altcoin_max_leverage" => Some(Place("risk_control", [["altcoin_max_leverage"]]))
    case "min_confidence" => Some(Place("risk_control", [["min_confidence"]]))
    case "min_risk_reward_ratio" => Some(Place("risk_control", [["min_risk_reward_ratio"]]))
    case "trading_frequency" => Some(Place("prompt_sections", [["trading_frequency"]]))
    case "entry_standards" => Some(Place("prompt_sections", [["entry_standards"]]))
    case _ => None
  }

  lemma {:induction false} PlacesAreSections(field: string)
    ensures AiPlace(field).Some? ==> AiPlace(field).value.section in SECTIONS
  {
  }

  /** Each way, first below the AI branch and then at top level. */
  function Spread(section: string, ways: seq<seq<string>>): seq<seq<string>> {
    if ways == [] then []
    else [[AI_CONFIG, section] + ways[0], [section] + ways[0]] + Spread(section, ways[1..])
  }

  /** strategyCreatePatchPaths */
  function Paths(field: string): seq<seq<string>> {
    if AiPlace(field).Some? then Spread(AiPlace(field).value.section, AiPlace(field).value.ways)
    else if field in GRID_PATHS then [[GRID_CONFIG, field]]
    else [[field]]
  }

  predicate AnyPath(v: Json, paths: seq<seq<string>>) {
    exists i :: 0 <= i < |paths| && HasPath(v, paths[i])
  }

  predicate HasField(p: Object, field: string) {
    AnyPath(Obj(p), Paths(field))
  }

  /** `m` holds the setting in its section. */
  predicate Under(m: Object, place: Place) {
    place.section in m && AnyPath(m[place.section], place.ways)
  }

  /** The AI branch of a patch as an object, empty when it is written any other way. */
  function Nested(p: Object): Object {
    if AI_CONFIG in p && p[AI_CONFIG].Obj? then p[AI_CONFIG].members else map[]
  }

  lemma {:induction false} AnyPathOne(v: Json, a: seq<string>, rest: seq<seq<string>>)
    ensures AnyPath(v, [a] + rest) <==> HasPath(v, a) || AnyPath(v, rest)
  {
    hide HasPath;
    var all := [a] + rest;
    assert all[0] == a;
    forall i | 0 <= i < |rest| ensures all[i + 1] == rest[i] {}
    if HasPath(v, a) || AnyPath(v, rest) {
      var i :| 0 <= i < |all| && HasPath(v, all[i]);
    } else {
      forall i | 0 <= i < |all| ensures !HasPath(v, all[i]) {
        assert i == 0 || all[i] == rest[i - 1];
      }
    }
  }

  lemma {:induction false} AnyPathCons(v: Json, a: seq<string>, b: seq<string>, rest: seq<seq<string>>)
    ensures AnyPath(v, [a, b] + rest) <==> HasPath(v, a) || HasPath(v, b) || AnyPath(v, rest)
    ensures AnyPath(v, [a] + rest) <==> HasPath(v, a) || AnyPath(v, rest)
  {
    AnyPathOne(v, a, [b] + rest);
    AnyPathOne(v, b, rest);
    AnyPathOne(v, a, rest);
    assert [a, b] + rest == [a] + ([b] + rest);
    hide AnyPath, HasPath;
  }

  lemma {:induction false} PathStep(v: Json, k: string, rest: seq<string>)
    ensures HasPath(v, [k] + rest) <==> v.Obj? && k in v.members && HasPath(v.members[k], rest)
  {
    assert ([k] + rest)[1..] == rest;
  }

  lemma {:induction false} SpreadHas(p: Object, section: string, ways: seq<seq<string>>)
    ensures AnyPath(Obj(p), Spread(section, ways))
            <==> Under(p, Place(section, ways)) || Under(Nested(p), Place(section, ways))
  {
    hide AI_CONFIG, HasPath;
    if ways != [] {
      var way := ways[0];
      SpreadHas(p, section, ways[1..]);
      AnyPathCons(Obj(p), [AI_CONFIG, section] + way, [section] + way, Spread(section, ways[1..]));
      PathStep(Obj(p), section, way);
      assert [AI_CONFIG, section] + way == [AI_CONFIG] + ([section] + way);
      PathStep(Obj(p), AI_CONFIG, [section] + way);
      if AI_CONFIG in p {
        PathStep(p[AI_CONFIG], section, way);
      }
      assert ways == [way] + ways[1..];
      if section in p {
        AnyPathCons(p[section], way, way, ways[1..]);
      }
      if section in Nested(p) {
        AnyPathCons(Nested(p)[section], way, way, ways[1..]);
      }
      hide AnyPath;
    }
  }

  /** An AI setting is explicit when its section holds it, at top level or in the AI branch. */
  lemma {:induction false} AiFieldAt(p: Object, field: string)
    requires AiPlace(field).Some?
    ensures HasField(p, field) <==> Under(p, AiPlace(field).value) || Under(Nested(p), AiPlace(field).value)
  {
    SpreadHas(p, AiPlace(field).value.section, AiPlace(field).value.ways);
    hide AiPlace, AI_CONFIG, AnyPath;
  }

  lemma {:induction false} GridFieldAt(p: Object, field: string)
    requires field in GRID_PATHS && AiPlace(field) == None
    ensures HasField(p, field) <==> GRID_CONFIG in p && p[GRID_CONFIG].Obj? && field in p[GRID_CONFIG].members
  {
    hide GRID_PATHS, AiPlace, GRID_CONFIG;
    PathStep(Obj(p), GRID_CONFIG, [field]);
    if GRID_CONFIG in p {
      PathStep(p[GRID_CONFIG], field, []);
    }
    assert [GRID_CONFIG, field] == [GRID_CONFIG] + [field] && [field] == [field] + [];
    AnyPathCons(Obj(p), [GRID_CONFIG, field], [], []);
    assert [[GRID_CONFIG, field]] == [[GRID_CONFIG, field]] + [];
  }

  // ---- What sanitising does to a setting ----

  /** The section at top level replaces the one in the AI branch that held the setting. */
  predicate Lost(p: Object, place: Place) {
    place.section in p && !Under(p, place) && Under(Nested(p), place)
  }

  /** The AI branch is written as JSON text, which only sanitising reads. */
  predicate Gained(p: Object, place: Place, lib: Lib) {
    place.section !in p && AI_CONFIG in p && p[AI_CONFIG].Str? && Under(MapOf(p[AI_CONFIG], lib), place)
  }

  lemma {:induction false} SanitizedSection(p: Object, place: Place, lib: Lib)
    requires place.section in SECTIONS
    ensures var s := SanitizeObject(p, AI, lib);
            && !Under(s, place)
            && (Under(Nested(s), place) <==> if place.section in p then Under(p, place)
               else Under(MapOf(At(p, AI_CONFIG), lib), place))
  {
    var s := SanitizeObject(p, AI, lib);
    KeyFacts();
    SanitizedAt(p, AI, lib);
    assert MapOf(Null, lib) == map[];
    NoSections(s, AI);
    assert place.section in s ==> place.section in TopSections(s);
    hide SanitizeObject, AnyPath, SECTIONS, MapOf, TYPE, PUBLISH, AI_CONFIG, GRID_CONFIG, AI, GRID, ADMITTED, LASTING;
    assert Nested(s) == Branch(p, AI, lib);
  }

  /** Sanitising leaves an AI setting as explicit as it was, unless its section at top level replaces the
      one that held it or the AI branch was written as text. */
  lemma {:induction false} SanitizeKeepsAiField(p: Object, field: string, lib: Lib)
    requires AiPlace(field).Some?
    ensures var place, s := AiPlace(field).value, SanitizeObject(p, AI, lib);
            && (HasField(p, field) && !HasField(s, field) <==> Lost(p, place))
            && (!HasField(p, field) && HasField(s, field) <==> Gained(p, place, lib))
  {
    PlacesAreSections(field);
    AiFieldAt(p, field);
    AiFieldAt(SanitizeObject(p, AI, lib), field);
    SanitizedSection(p, AiPlace(field).value, lib);
    assert Under(map[], AiPlace(field).value) == false;
    hide AiPlace, SanitizeObject, AnyPath, HasField, AI_CONFIG, SECTIONS;
  }

  /** Sanitising never takes a grid setting away, and adds one only from a grid branch written as text. */
  lemma {:induction false} SanitizeKeepsGridField(p: Object, field: string, lib: Lib)
    requires field in GRID_PATHS && AiPlace(field) == None
    ensures var s := SanitizeObject(p, GRID, lib);
            && (HasField(p, field) ==> HasField(s, field))
            && (!HasField(p, field) && HasField(s, field)
               <==> At(p, GRID_CONFIG).Str? && field in MapOf(At(p, GRID_CONFIG), lib))
  {
    var s := SanitizeObject(p, GRID, lib);
    KeyFacts();
    SanitizedAt(p, GRID, lib);
    GridFieldAt(p, field);
    GridFieldAt(s, field);
    hide SanitizeObject, HasField, GRID_PATHS, AiPlace, GRID_CONFIG, AI_CONFIG, TYPE, PUBLISH, GRID, AI, SECTIONS,
        ADMITTED, LASTING;
  }

  /** No section is written twice, and both branches are objects when they are there. */
  predicate WrittenOnce(p: Object) {
    && (forall k :: k in SECTIONS && k in p ==> k !in Nested(p))
    && (AI_CONFIG in p ==> !p[AI_CONFIG].Str?)
    && (GRID_CONFIG in p ==> !p[GRID_CONFIG].Str?)
  }

  const AI_REQUIRED := ["source_type", "primary_timeframe", "selected_timeframes", "btceth_max_leverage",
      "altcoin_max_leverage",
                        "min_confidence", "min_risk_reward_ratio", "trading_frequency", "entry_standards"]
  const GRID_REQUIRED := ["symbol", "grid_count", "total_investment", "leverage", "distribution", "max_drawdown_pct",
                          "stop_loss_pct", "daily_loss_limit_pct", "use_maker_only"]
  const BOUNDS := "use_atr_bounds \U{6216} upper_price/lower_price"

  /** strategyCreateFieldExplicit */
  predicate Explicit(fields: map<string, string>, field: string, lib: Lib) {
    || TextOf(fields, field) != ""
    || (TextOf(fields, PATCH) != ""
       && match lib.parse(TextOf(fields, PATCH)) case None => false case Some(p) => HasField(p, field))
  }

  /** fieldValue of a strategy session. */
  function TextOf(fields: map<string, string>, key: string): string {
    if key in fields then Trim(fields[key]) else ""
  }

  function NotExplicit(fields: map<string, string>, wanted: seq<string>, lib: Lib): seq<string> {
    if wanted == [] then []
    else (if Explicit(fields, wanted[0], lib) then [] else [wanted[0]]) + NotExplicit(fields, wanted[1..], lib)
  }

  /** strategyCreateMissingAIFields and strategyCreateMissingGridFields; `fixedCoins` is whether the built
      configuration takes its coins from a fixed list. */
  function MissingAi(fields: map<string, string>, fixedCoins: bool, lib: Lib): seq<string> {
    NotExplicit(fields, AI_REQUIRED, lib) + if fixedCoins then NotExplicit(fields, ["static_coins"], lib) else []
  }

  function MissingGrid(fields: map<string, string>, lib: Lib): seq<string> {
    NotExplicit(fields, GRID_REQUIRED, lib)
    + if Explicit(fields, "use_atr_bounds", lib)
        || (Explicit(fields, "upper_price", lib) && Explicit(fields, "lower_price", lib)) then [] else [BOUNDS]
  }

  method MissingFields(fields: map<string, string>, wanted: seq<string>, lib: Lib) returns (missing: seq<string>)
    ensures missing == NotExplicit(fields, wanted, lib)
  {
    missing := [];
    ghost var rest := NotExplicit(fields, wanted, lib);
    assert wanted[0..] == wanted;
    for i := 0 to |wanted|
      invariant NotExplicit(fields, wanted, lib) == missing + rest
      invariant rest == NotExplicit(fields, wanted[i..], lib)
    {
      DropStep(wanted, i);
      rest := NotExplicit(fields, wanted[i + 1..], lib);
      if !Explicit(fields, wanted[i], lib) {
        Assoc(missing, [wanted[i]], rest);
        missing := missing + [wanted[i]];
      } else {
        assert [] + rest == rest;
      }
    }
    assert wanted[|wanted|..] == [];
  }

  /** Listed are exactly the wanted settings that are not explicit. */
  lemma {:induction false} MissingListed(fields: map<string, string>, wanted: seq<string>, f: string, lib: Lib)
    ensures f in NotExplicit(fields, wanted, lib) <==> f in wanted && !Explicit(fields, f, lib)
  {
    hide Explicit;
    if wanted != [] {
      MissingListed(fields, wanted[1..], f, lib);
      assert wanted == [wanted[0]] + wanted[1..];
    }
  }

  /** An AI setting counts as given when its own field has text, or the patch is an object in whose AI section, at
      top level or in the AI branch, it is; a grid setting likewise in the grid branch. */
  lemma {:induction false} GivenWhere(fields: map<string, string>, f: string, lib: Lib)
    ensures var raw := TextOf(fields, "config_patch");
            var given := (f in fields && Trim(fields[f]) != "");
            && (AiPlace(f).Some? ==>
                  (Explicit(fields, f, lib)
                   <==> given || (raw != "" && lib.parse(raw).Some?
                                  && var p := lib.parse(raw).value;
                                     Under(p, AiPlace(f).value) || Under(Nested(p), AiPlace(f).value))))
            && (f in GRID_PATHS && AiPlace(f) == None ==>
                  (Explicit(fields, f, lib)
                   <==> given || (raw != "" && lib.parse(raw).Some?
                                  && var p := lib.parse(raw).value;
                                  "grid_config" in p && p["grid_config"].Obj? && f in p["grid_config"].members)))
  {
    var raw := TextOf(fields, PATCH);
    if raw != "" && lib.parse(raw).Some? {
      if AiPlace(f).Some? {
        AiFieldAt(lib.parse(raw).value, f);
      } else if f in GRID_PATHS {
        GridFieldAt(lib.parse(raw).value, f);
      }
    }
    hide HasField, AiPlace, GRID_PATHS, Under, Trim;
  }

  /** The type of a legacy draft: the text of its own field, as it stands; else what the patch says, or which of
      the two branches it has. */
  lemma {:induction false} TypeGiven(fields: map<string, string>, lib: Lib)
    ensures var (own, raw) := (TextOf(fields, "strategy_type"), TextOf(fields, "config_patch"));
            var t := ExplicitType(fields, lib);
            if own != "" then t == own
            else if raw == "" || lib.parse(raw) == None then t == ""
            else
              var p := lib.parse(raw).value;
              if "strategy_type" in p && p["strategy_type"].Str? then t == Trim(p["strategy_type"].s)
              else if "grid_config" in p && p["grid_config"] != Null then t == "grid_trading"
              else if "ai_config" in p && p["ai_config"] != Null then t == "ai_trading"
              else t == ""
  {
    hide Trim;
  }

  lemma {:induction false} SameMissing(a: map<string, string>, b: map<string, string>, wanted: seq<string>, lib: Lib)
    requires forall f :: f in wanted ==> Explicit(a, f, lib) == Explicit(b, f, lib)
    ensures NotExplicit(a, wanted, lib) == NotExplicit(b, wanted, lib)
  {
    hide Explicit;
    if wanted != [] {
      assert wanted[0] in wanted;
      assert forall f :: f in wanted[1..] ==> f in wanted;
      SameMissing(a, b, wanted[1..], lib);
    }
  }

  // ---- normalizeLegacyStrategyCreateSession ----

  const KEPT: set<string> :=
    {"name", "description", "is_public", "config_visible", "lang", TYPE, "strategy_create_draft_config", PATCH,
     "_dag_step", CONFIRM}

  /** explicitStrategyCreateType: the text under the type key as it stands, else what the patch says. */
  function ExplicitType(fields: map<string, string>, lib: Lib): string {
    if TextOf(fields, TYPE) != "" then TextOf(fields, TYPE)
    else if TextOf(fields, PATCH) == "" then ""
    else match lib.parse(TextOf(fields, PATCH))
      case None => ""
      case Some(p) =>
        if At(p, TYPE).Str? then Trim(p[TYPE].s)
        else if At(p, GRID_CONFIG) != Null then GRID
        else if At(p, AI_CONFIG) != Null then AI
        else ""
  }

  function Keep(fields: map<string, string>): map<string, string> {
    map k | k in fields && k in KEPT :: fields[k]
  }

  function SanitizedText(fields: map<string, string>, t: string, lib: Lib): Object {
    Sanitize(Str(TextOf(fields, PATCH)), t, lib)
  }

  function WithPatch(fields: map<string, string>, raw: string, patch: Object, lib: Lib): map<string, string> {
    if raw == "" then fields
    else if patch != map[] then fields[PATCH := lib.marshal(patch)]
    else fields - {PATCH}
  }

  function NormalLegacy(fields: map<string, string>, lib: Lib): map<string, string> {
    var t := ExplicitType(fields, lib);
    if t == "" then fields else WithPatch(Keep(fields), TextOf(fields, PATCH), SanitizedText(fields, t, lib), lib)
  }

  class StrategySession {
    var fields: map<string, string>

    constructor (initial: map<string, string>)
      ensures fields == initial
    {
      fields := initial;
    }

    /** filterLegacyStrategyCreateFieldsForType */
    method FilterFields()
      modifies this
      ensures fields == Keep(old(fields))
    {
      hide KEPT;
      var todo := fields.Keys;
      while todo != {}
        invariant todo <= fields.Keys <= old(fields).Keys
        invariant forall k :: k in old(fields) ==> (k in fields <==> k in todo || k in KEPT)
        invariant forall k :: k in fields ==> fields[k] == old(fields)[k]
        decreases todo
      {
        var key :| key in todo;
        todo := todo - {key};
        if key !in KEPT {
          fields := fields - {key};
        }
      }
    }

    /** normalizeLegacyStrategyCreateSession */
    method Normalize(lib: Lib)
      requires lib.Valid()
      modifies this
      ensures fields == NormalLegacy(old(fields), lib)
    {
      hide KEPT, SanitizeObject, ExplicitType, Trim;
      var t := ExplicitType(fields, lib);
      if t == "" {
        return;
      }
      FilterFields();
      KeepsText(old(fields), PATCH);
      var raw := TextOf(fields, PATCH);
      if raw != "" {
        var patch := SanitizePatch(Str(raw), t, lib);
        if patch != map[] {
          fields := fields[PATCH := lib.marshal(patch)];
        } else {
          fields := fields - {PATCH};
        }
      }
    }
  }

  lemma {:induction false} KeepsText(fields: map<string, string>, k: string)
    ensures TextOf(Keep(fields), k) == if k in KEPT then TextOf(fields, k) else ""
    ensures TYPE in KEPT && PATCH in KEPT
    ensures Keep(Keep(fields)) == Keep(fields)
  {
    hide TYPE, PATCH, CONFIRM, Trim;
  }

  lemma {:induction false} SanitizedReads(v: Json, t: string, lib: Lib)
    requires lib.Valid() && Sanitize(v, t, lib) != map[]
    ensures var text := lib.marshal(Sanitize(v, t, lib));
            && Trim(text) == text != ""
            && lib.parse(text) == Some(Sanitize(v, t, lib))
            && At(Sanitize(v, t, lib), TYPE) == Str(t) && TYPE in Sanitize(v, t, lib)
            && Sanitize(Str(text), t, lib) == Sanitize(v, t, lib)
  {
    SanitizedAt(MapOf(v, lib), t, lib);
    SanitizeTwice(MapOf(v, lib), t, lib);
    hide SanitizeObject, TYPE, PUBLISH;
  }

  lemma {:induction false} TypeTrimmed(fields: map<string, string>, lib: Lib)
    ensures Trim(ExplicitType(fields, lib)) == ExplicitType(fields, lib)
  {
    KeyFacts();
    hide Trimmed, TYPE, PATCH, GRID_CONFIG, AI_CONFIG, GRID, AI;
  }

  /** The type a normalised session shows is the one it showed before, or none when its patch was dropped
      and nothing else told the type. */
  lemma {:induction false} NormalType(fields: map<string, string>, lib: Lib)
    requires lib.Valid() && ExplicitType(fields, lib) != ""
    ensures var t, n := ExplicitType(fields, lib), NormalLegacy(fields, lib);
            && (TextOf(fields, TYPE) != "" || TextOf(n, PATCH) != "" ==> ExplicitType(n, lib) == t)
            && (TextOf(n, PATCH) == "" && TextOf(fields, TYPE) == "" ==> ExplicitType(n, lib) == "")
            && TextOf(n, PATCH) == (if TextOf(fields, PATCH) != "" && SanitizedText(fields, t, lib) != map[] then
               lib.marshal(SanitizedText(fields, t, lib)) else "")
            && TextOf(n, TYPE) == TextOf(fields, TYPE)
  {
    var t := ExplicitType(fields, lib);
    KeyFacts();
    KeepsText(fields, TYPE);
    KeepsText(fields, PATCH);
    if SanitizedText(fields, t, lib) != map[] {
      SanitizedReads(Str(TextOf(fields, PATCH)), t, lib);
    }
    TypeTrimmed(fields, lib);
    hide Keep, Sanitize, KEPT, Trim, TYPE, PATCH, GRID_CONFIG, AI_CONFIG, GRID, AI;
  }

  /** Normalising a strategy draft twice is normalising it once. */
  lemma {:induction false} NormalTwice(fields: map<string, string>, lib: Lib)
    requires lib.Valid()
    ensures NormalLegacy(NormalLegacy(fields, lib), lib) == NormalLegacy(fields, lib)
  {
    var t, n := ExplicitType(fields, lib), NormalLegacy(fields, lib);
    if t != "" && ExplicitType(n, lib) != "" {
      NormalType(fields, lib);
      if SanitizedText(fields, t, lib) != map[] {
        SanitizedReads(Str(TextOf(fields, PATCH)), t, lib);
      }
      KeepsKept(fields, lib);
      hide Keep, Sanitize, KEPT, Trim, TYPE, PATCH, ExplicitType, TextOf;
    }
  }

  lemma {:induction false} KeepsKept(fields: map<string, string>, lib: Lib)
    requires ExplicitType(fields, lib) != ""
    ensures Keep(NormalLegacy(fields, lib)) == NormalLegacy(fields, lib)
  {
    KeepsText(fields, PATCH);
    hide Sanitize, KEPT, Trim, TYPE, PATCH, ExplicitType, TextOf;
  }

  /** After normalisation a template setting is explicit only through the sanitised patch: one that was
      given as a field of its own is no longer. */
  lemma {:induction false} NormalExplicit(fields: map<string, string>, field: string, lib: Lib)
    requires lib.Valid() && ExplicitType(fields, lib) != "" && field !in KEPT
    ensures Explicit(NormalLegacy(fields, lib), field, lib)
            <==> TextOf(fields, PATCH) != "" && HasField(SanitizedText(fields, ExplicitType(fields, lib), lib), field)
  {
    var t, n := ExplicitType(fields, lib), NormalLegacy(fields, lib);
    NormalType(fields, lib);
    KeepsText(fields, field);
    NormalField(fields, field, lib);
    if SanitizedText(fields, t, lib) != map[] {
      SanitizedReads(Str(TextOf(fields, PATCH)), t, lib);
    }
    NoPath(field);
    hide Keep, Sanitize, KEPT, Trim, TYPE, PATCH, ExplicitType, TextOf, HasField, NormalLegacy;
  }

  lemma {:induction false} NormalField(fields: map<string, string>, field: string, lib: Lib)
    requires ExplicitType(fields, lib) != "" && field !in KEPT
    ensures TextOf(NormalLegacy(fields, lib), field) == ""
  {
    KeepsText(fields, field);
    hide Sanitize, KEPT, Trim, TYPE, PATCH, ExplicitType;
  }

  lemma {:induction false} NoPath(field: string)
    ensures !HasField(map[], field)
  {
    hide AI_CONFIG, GRID_CONFIG, GRID_PATHS;
    if AiPlace(field).Some? {
      AiFieldAt(map[], field);
      hide AiPlace, HasField;
    } else {
      hide AiPlace;
      assert forall i :: 0 <= i < |Paths(field)| ==> !HasPath(Obj(map[]), Paths(field)[i]);
    }
  }

  /** Every template setting is lost when the type is written in any way but the two exact ones, even one
      that the collected fields were understood by. */
  lemma {:induction false} LooseTypeLosesAll(fields: map<string, string>, field: string, lib: Lib)
    requires lib.Valid() && ExplicitType(fields, lib) !in {"", GRID, AI}
    requires AiPlace(field).Some? || (field in GRID_PATHS && AiPlace(field) == None)
    ensures !Explicit(NormalLegacy(fields, lib), field, lib)
  {
    var t := ExplicitType(fields, lib);
    var p := MapOf(Str(TextOf(fields, PATCH)), lib);
    var s := SanitizeObject(p, t, lib);
    TemplateNotKept(field);
    NormalExplicit(fields, field, lib);
    SanitizedAt(p, t, lib);
    assert Branch(p, t, lib) == map[] by { hide GRID, AI; }
    KeyFacts();
    if AiPlace(field).Some? {
      AiFieldAt(s, field);
      PlacesAreSections(field);
    } else {
      GridFieldAt(s, field);
    }
    hide SanitizeObject, HasField, AiPlace, GRID_PATHS, AnyPath, KEPT, ExplicitType, Trim, GRID, AI, TYPE, PUBLISH,
        GRID_CONFIG, AI_CONFIG, SECTIONS, Explicit, NormalLegacy, Branch;
    assert AI_CONFIG !in s && GRID_CONFIG !in s;
  }

  lemma {:induction false} TemplateNotKept(field: string)
    requires AiPlace(field).Some? || field in GRID_PATHS
    ensures field !in KEPT
  {
  }

  /** For a draft of one of the two types whose settings are all in the patch, each section once and no
      branch as text, normalisation changes no missing-field list. */
  lemma {:induction false} NormalKeepsMissing(fields: map<string, string>, p: Object, fixedCoins: bool, lib: Lib)
    requires lib.Valid() && TextOf(fields, PATCH) != "" && lib.parse(TextOf(fields, PATCH)) == Some(p) && WrittenOnce(p)
    requires forall f :: f in fields && (AiPlace(f).Some? || f in GRID_PATHS) ==> TextOf(fields, f) == ""
    ensures ExplicitType(fields, lib) == AI
            ==> MissingAi(NormalLegacy(fields, lib), fixedCoins, lib) == MissingAi(fields, fixedCoins, lib)
    ensures ExplicitType(fields, lib) == GRID
            ==> MissingGrid(NormalLegacy(fields, lib), lib) == MissingGrid(fields, lib)
  {
    var n := NormalLegacy(fields, lib);
    KeyFacts();
    hide NormalLegacy, ExplicitType, Explicit, AiPlace, GRID_PATHS, TextOf, PATCH, GRID, AI, HasField, KEPT;
    RequiredPlaces();
    if ExplicitType(fields, lib) == AI {
      forall f | AiPlace(f).Some? ensures Explicit(n, f, lib) == Explicit(fields, f, lib) {
        AiSame(fields, p, f, lib);
      }
      SameMissing(n, fields, AI_REQUIRED, lib);
      SameMissing(n, fields, ["static_coins"], lib);
    } else if ExplicitType(fields, lib) == GRID {
      forall f | f in GRID_PATHS ensures Explicit(n, f, lib) == Explicit(fields, f, lib) {
        GridSame(fields, p, f, lib);
      }
      SameMissing(n, fields, GRID_REQUIRED, lib);
    }
  }

  lemma {:induction false} RequiredPlaces()
    ensures forall f :: f in AI_REQUIRED || f == "static_coins" ==> AiPlace(f).Some?
    ensures forall f :: f in GRID_REQUIRED ==> f in GRID_PATHS
    ensures "use_atr_bounds" in GRID_PATHS && "upper_price" in GRID_PATHS && "lower_price" in GRID_PATHS
  {
  }

  lemma {:induction false} GridNotAi(field: string)
    requires field in GRID_PATHS
    ensures AiPlace(field) == None
  {
  }

  lemma {:induction false} AiSame(fields: map<string, string>, p: Object, field: string, lib: Lib)
    requires lib.Valid() && TextOf(fields, PATCH) != "" && lib.parse(TextOf(fields, PATCH)) == Some(p) && WrittenOnce(p)
    requires ExplicitType(fields, lib) == AI && AiPlace(field).Some?
             && (field in fields ==> TextOf(fields, field) == "")
    ensures Explicit(NormalLegacy(fields, lib), field, lib) == Explicit(fields, field, lib)
  {
    TemplateNotKept(field);
    KeyFacts();
    NormalExplicit(fields, field, lib);
    SanitizeKeepsAiField(p, field, lib);
    PlacesAreSections(field);
    assert MapOf(Str(TextOf(fields, PATCH)), lib) == p;
    hide NormalLegacy, ExplicitType, AiPlace, GRID_PATHS, PATCH, GRID, AI, HasField, KEPT, SanitizeObject, SECTIONS,
        Trim, AI_CONFIG, GRID_CONFIG;
    assert !Lost(p, AiPlace(field).value) && !Gained(p, AiPlace(field).value, lib);
  }

  lemma {:induction false} GridSame(fields: map<string, string>, p: Object, field: string, lib: Lib)
    requires lib.Valid() && TextOf(fields, PATCH) != "" && lib.parse(TextOf(fields, PATCH)) == Some(p) && WrittenOnce(p)
    requires ExplicitType(fields, lib) == GRID && field in GRID_PATHS
             && (field in fields ==> TextOf(fields, field) == "")
    ensures Explicit(NormalLegacy(fields, lib), field, lib) == Explicit(fields, field, lib)
  {
    TemplateNotKept(field);
    GridNotAi(field);
    KeyFacts();
    NormalExplicit(fields, field, lib);
    SanitizeKeepsGridField(p, field, lib);
    assert MapOf(Str(TextOf(fields, PATCH)), lib) == p;
    hide NormalLegacy, ExplicitType, AiPlace, GRID_PATHS, PATCH, GRID, AI, HasField, KEPT, SanitizeObject, SECTIONS,
        Trim, AI_CONFIG, GRID_CONFIG;
  }

  /** A patch that writes a section twice can lose a setting that was explicit. */
  lemma {:induction false} TwiceWrittenLoses(nested: Object, lib: Lib)
    requires "min_confidence" in nested
    ensures var p: Object := map["risk_control" := Obj(map[]), AI_CONFIG := Obj(map["risk_control" := Obj(nested)])];
            HasField(p, "min_confidence") && !HasField(SanitizeObject(p, AI, lib), "min_confidence")
  {
    var p: Object := map["risk_control" := Obj(map[]), AI_CONFIG := Obj(map["risk_control" := Obj(nested)])];
    var place := AiPlace("min_confidence").value;
    assert |AI_CONFIG| == 9 && |"risk_control"| == 12;
    assert place == Place("risk_control", [["min_confidence"]]);
    SanitizeKeepsAiField(p, "min_confidence", lib);
    hide AiPlace, SanitizeObject, HasField;
    PathStep(Obj(map[]), "min_confidence", []);
    PathStep(Obj(nested), "min_confidence", []);
    assert ["min_confidence"] + [] == ["min_confidence"];
    assert place.ways[0] == ["min_confidence"];
    assert HasPath(Obj(nested), place.ways[0]);
  }
}
