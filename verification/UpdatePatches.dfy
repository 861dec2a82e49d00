/** agent/skill_execution_handlers.go: typed update patches, stored as texts in a session's fields. */
module UpdatePatches {
  import opened Decimals
  import opened Options
  import opened Sequences
  import opened SkillSessions
  import opened Text

  datatype Kind = TextKind | FlagKind | NumberKind
  datatype Field = Field(key: string, kind: Kind)
  datatype Value = Words(text: string) | Flag(on: bool) | Number(n: int64)

  /** A patch holds the fields that carry a value: a non-empty text or a non-nil pointer. */
  type Patch = map<Field, Value>

  /** traderUpdateArgs, modelUpdatePatch and exchangeUpdatePatch, in the order in which they are written. */
  const TRADER_FIELDS := [
    Field("ai_model_id", TextKind), Field("exchange_id", TextKind), Field("strategy_id", TextKind),
    Field("scan_interval_minutes", NumberKind), Field("is_cross_margin", FlagKind),
        Field("show_in_competition", FlagKind)]
  const MODEL_FIELDS := [
    Field("custom_api_url", TextKind), Field("enabled", FlagKind), Field("api_key", TextKind),
        Field("custom_model_name", TextKind)]
  const EXCHANGE_FIELDS := [
    Field("account_name", TextKind), Field("enabled", FlagKind), Field("api_key", TextKind),
        Field("secret_key", TextKind),
    Field("passphrase", TextKind), Field("testnet", FlagKind), Field("aster_user", TextKind),
        Field("aster_signer", TextKind),
    Field("aster_private_key", TextKind), Field("lighter_api_key_private_key", TextKind),
        Field("lighter_api_key_index", NumberKind)]

  predicate Fits(f: Field, v: Value) {
    match f.kind
    case TextKind => v.Words? && v.text != ""
    case FlagKind => v.Flag?
    case NumberKind => v.Number?
  }

  predicate WellTyped(p: Patch, fields: seq<Field>) {
    forall f :: f in p ==> f in fields && Fits(f, p[f])
  }

  function Render(v: Value): string {
    match v
    case Words(text) => text
    case Flag(on) => FormatBool(on)
    case Number(n) => Itoa(n)
  }

  /** What a field's text stands for, if anything. */
  function Parse(kind: Kind, text: string): Option<Value> {
    if text == "" then None
    else match kind
      case TextKind => Some(Words(text))
      case FlagKind => Some(Flag(text == "true"))
      case NumberKind => if Atoi(text).Some? then Some(Number(Atoi(text).value)) else None
  }

  function Reading(s: SkillSession, f: Field): Option<Value>
    requires Wf(s)
  {
    Parse(f.kind, FieldValue(s, f.key))
  }

  /** build…FromSession */
  function Build(s: SkillSession, fields: seq<Field>): Patch
    requires Wf(s)
  {
    map f | f in fields && Reading(s, f).Some? :: Reading(s, f).value
  }

  function ApplyOne(s: SkillSession, f: Field, p: Patch, env: Env): (r: SkillSession)
    requires Wf(s)
    ensures Wf(r)
  {
    if f in p then SetField(s, f.key, Render(p[f]), env) else s
  }

  /** apply…ToSession */
  function Apply(s: SkillSession, fields: seq<Field>, p: Patch, env: Env): (r: SkillSession)
    requires Wf(s)
    ensures Wf(r)
    decreases |fields|
  {
    if fields == [] then s else Apply(ApplyOne(s, fields[0], p, env), fields[1..], p, env)
  }

  method ApplyPatch(cell: SessionCell, fields: seq<Field>, p: Patch, env: Env)
    requires Wf(cell.session)
    modifies cell
    ensures Wf(cell.session) && cell.session == Apply(old(cell.session), fields, p, env)
  {
    hide Wf, SetField;
    assert fields[0..] == fields;
    for i := 0 to |fields|
      invariant Wf(cell.session)
      invariant Apply(cell.session, fields[i..], p, env) == Apply(old(cell.session), fields, p, env)
    {
      DropStep(fields, i);
      if fields[i] in p {
        cell.Set(fields[i].key, Render(p[fields[i]]), env);
      }
    }
    assert fields[|fields|..] == [];
  }

  /** merge…: the later patch wins field by field. */
  method MergePatch(base: Patch, patch: Patch, fields: seq<Field>) returns (r: Patch)
    requires WellTyped(patch, fields)
    ensures r == base + patch
  {
    r := base;
    for i := 0 to |fields|
      invariant r.Keys <= base.Keys + patch.Keys && base.Keys <= r.Keys
      invariant forall f :: f in r ==> r[f] == if f in patch && f in fields[..i] then patch[f]
                else if f in base then base[f] else r[f]
      invariant forall f :: f in fields[..i] && f in patch ==> f in r
      invariant forall f :: f in r && f !in base ==> f in fields[..i] && f in patch
    {
      DropStep(fields, i);
      if fields[i] in patch {
        r := r[fields[i] := patch[fields[i]]];
      }
    }
    assert fields[..|fields|] == fields;
  }

  // ---- Reading back what was applied ----

  /** Distinct fields of the family have distinct normal keys, none of them the draft name. */
  predicate Separate(name: string, fields: seq<Field>) {
    && (forall i, j :: 0 <= i < j < |fields| ==> NormalKey(name, fields[i].key) != NormalKey(name, fields[j].key))
    && (forall i :: 0 <= i < |fields| ==> NormalKey(name, fields[i].key) != "name")
  }

  predicate Family(fields: seq<Field>) {
    fields == TRADER_FIELDS || fields == MODEL_FIELDS || fields == EXCHANGE_FIELDS
  }

  predicate TrimmedTexts(p: Patch) {
    forall f :: f in p && p[f].Words? ==> Trimmed(p[f].text)
  }

  /** The reading of `f` in a session where it read as `before`, once `p` has been applied. */
  function After(before: Option<Value>, f: Field, p: Patch): Option<Value> {
    if f !in p then before
    else if p[f].Words? then if Trim(p[f].text) == "" then before else Some(Words(Trim(p[f].text)))
    else Some(p[f])
  }

  lemma {:induction false} RenderParses(f: Field, v: Value)
    requires Fits(f, v)
    ensures v.Words? || (Trimmed(Render(v)) && Render(v) != "" && Parse(f.kind, Render(v)) == Some(v))
  {
    match v
    case Words(text) =>
    case Flag(on) =>
      assert "true" != "false" by { assert |"true"| == 4 && |"false"| == 5; }
      assert Trimmed("true") && Trimmed("false");
    case Number(n) =>
      ItoaRoundTrip(n);
      ItoaTrimmed(n);
      hide Atoi, Itoa;
  }

  lemma {:induction false} ItoaTrimmed(n: int64)
    ensures Trimmed(Itoa(n)) && Itoa(n) != ""
  {
    var s := Itoa(n);
    var m: int := n;
    var d := Digits(if m < 0 then 0 - m else m);
    assert s == d || s == "-" + d;
    assert IsDigit(d[|d| - 1]) && IsDigit(d[0]);
    assert forall c :: IsDigit(c) || c == '-' ==> !IsSpace(c);
    assert s[|s| - 1] == d[|d| - 1];
  }

  lemma {:induction false} ReadingAfterOne(s: SkillSession, f: Field, p: Patch, env: Env, g: Field)
    requires Wf(s) && (f in p ==> Fits(f, p[f])) && NormalKey(s.name, f.key) != "name"
    requires f == g || NormalKey(s.name, f.key) != NormalKey(s.name, g.key)
    ensures ApplyOne(s, f, p, env).name == s.name
    ensures Reading(ApplyOne(s, f, p, env), g) == if f == g then After(Reading(s, g), g, p) else Reading(s, g)
  {
    if f in p {
      RenderParses(f, p[f]);
      ReadAfterSet(s, f.key, Render(p[f]), env, g.key);
      StoredPlain(s, f.key, Render(p[f]), env);
      hide SetField, Wf, FieldValue, NormalKey, Trim, Atoi, Itoa, FormatBool, StoredText, InMirror;
    }
  }

  lemma {:induction false} StoredPlain(s: SkillSession, key: string, value: string, env: Env)
    requires NormalKey(s.name, key) != "name"
    ensures StoredText(s, key, value, env) == Trim(value)
    ensures Trimmed(value) ==> Trim(value) == value
    ensures Trim(Trim(value)) == Trim(value)
  {
    hide NormalKey;
  }

  lemma {:induction false} ReadingAfter(s: SkillSession, fields: seq<Field>, p: Patch, env: Env, g: Field)
    requires Wf(s) && Separate(s.name, fields) && (forall f :: f in fields && f in p ==> Fits(f, p[f]))
    requires forall f :: f in fields && f != g ==> NormalKey(s.name, f.key) != NormalKey(s.name, g.key)
    ensures Apply(s, fields, p, env).name == s.name
    ensures Reading(Apply(s, fields, p, env), g) == if g in fields then After(Reading(s, g), g, p) else Reading(s, g)
    decreases |fields|
  {
    hide Wf, ApplyOne, Reading, NormalKey, After, Fits;
    if fields != [] {
      var s1 := ApplyOne(s, fields[0], p, env);
      assert fields[0] in fields;
      ReadingAfterOne(s, fields[0], p, env, g);
      assert fields == [fields[0]] + fields[1..];
      assert forall i :: 0 <= i < |fields[1..]| ==> fields[1..][i] == fields[i + 1];
      ReadingAfter(s1, fields[1..], p, env, g);
      SeparateHead(s.name, fields);
    }
  }

  lemma {:induction false} SeparateHead(name: string, fields: seq<Field>)
    requires fields != [] && Separate(name, fields)
    ensures fields[0] !in fields[1..]
  {
    hide NormalKey;
    forall j | 0 <= j < |fields[1..]| ensures fields[1..][j] != fields[0] {
      assert fields[1..][j] == fields[j + 1];
    }
  }

  lemma {:induction false} FamilyKeys(fields: seq<Field>, i: nat)
    requires Family(fields) && i < |fields|
    ensures Trimmed(fields[i].key) && fields[i].key != "name" && fields[i].key != "model_id"
  {
    assert forall c :: 'a' <= c <= 'z' ==> !IsSpace(c);
    hide IsSpace;
    var k := fields[i].key;
    assert |k| > 6 && 'a' <= k[0] <= 'z' && 'a' <= k[|k| - 1] <= 'z';
    assert |k| != 8;
    hide TRADER_FIELDS, MODEL_FIELDS, EXCHANGE_FIELDS;
  }

  lemma {:induction false} FamilyDistinct(fields: seq<Field>, i: nat, j: nat)
    requires Family(fields) && i < j < |fields|
    ensures fields[i].key != fields[j].key
  {
    var a, b := fields[i].key, fields[j].key;
    assert |a| != |b| || a[0] != b[0] || a[6] != b[6];
  }

  lemma {:induction false} FamilySeparate(name: string, fields: seq<Field>)
    requires Family(fields)
    ensures Separate(name, fields)
  {
    KeyFacts();
    hide TRADER_FIELDS, MODEL_FIELDS, EXCHANGE_FIELDS, Family;
    forall i | 0 <= i < |fields| ensures NormalKey(name, fields[i].key) != "name" {
      FamilyKeys(fields, i);
    }
    forall i, j | 0 <= i < j < |fields| ensures NormalKey(name, fields[i].key) != NormalKey(name, fields[j].key) {
      FamilyKeys(fields, i);
      FamilyKeys(fields, j);
      FamilyDistinct(fields, i, j);
    }
  }

  /** Building after applying gives the old patch merged with the new one, for every session and every
      patch of the three families, exactly when the patch's texts are trimmed. */
  lemma {:induction false} BuildAfterApply(s: SkillSession, fields: seq<Field>, p: Patch, env: Env)
    requires Wf(s) && Family(fields) && WellTyped(p, fields)
    ensures Build(Apply(s, fields, p, env), fields) == Build(s, fields) + p <==> TrimmedTexts(p)
  {
    hide TRADER_FIELDS, MODEL_FIELDS, EXCHANGE_FIELDS, Family, Separate, Wf, Apply, Reading, NormalKey, After,
        Build, TrimmedTexts;
    FamilySeparate(s.name, fields);
    forall g | g in fields ensures Reading(Apply(s, fields, p, env), g) == After(Reading(s, g), g, p) {
      OthersApart(s.name, fields, g);
      ReadingAfter(s, fields, p, env, g);
    }
    BuildMerges(s, Apply(s, fields, p, env), fields, p);
  }

  lemma {:induction false} BuildMerges(s: SkillSession, s': SkillSession, fields: seq<Field>, p: Patch)
    requires Wf(s) && Wf(s') && WellTyped(p, fields)
    requires forall g :: g in fields ==> Reading(s', g) == After(Reading(s, g), g, p)
    ensures Build(s', fields) == Build(s, fields) + p <==> TrimmedTexts(p)
  {
    hide Wf, Reading, Trim, Trimmed, After;
    forall g | g in fields
      ensures (g in Build(s', fields) <==> Reading(s', g).Some?)
              && (g in Build(s', fields) ==> Build(s', fields)[g] == Reading(s', g).value)
      ensures (g in Build(s, fields) <==> Reading(s, g).Some?)
              && (g in Build(s, fields) ==> Build(s, fields)[g] == Reading(s, g).value)
    {}
    assert Build(s, fields).Keys <= (set g | g in fields) && Build(s', fields).Keys <= (set g | g in fields);
    forall g | g in fields
      ensures !(g in p && p[g].Words? && !Trimmed(p[g].text))
              <==> After(Reading(s, g), g, p) == (if g in p then Some(p[g]) else Reading(s, g))
    {
      AfterTrimmed(s, g, p);
    }
    hide Build;
    if TrimmedTexts(p) {
      SameBuild(Build(s', fields), Build(s, fields), fields, p);
    } else {
      var f :| f in p && p[f].Words? && !Trimmed(p[f].text);
      assert (Build(s, fields) + p)[f] == p[f];
    }
  }

  lemma {:induction false} AfterTrimmed(s: SkillSession, g: Field, p: Patch)
    requires Wf(s) && (g in p ==> Fits(g, p[g]))
    ensures !(g in p && p[g].Words? && !Trimmed(p[g].text))
            <==> After(Reading(s, g), g, p) == (if g in p then Some(p[g]) else Reading(s, g))
  {
    ReadingTrimmed();
    hide Wf, Reading, Trim, Trimmed;
  }

  lemma {:induction false} SameBuild(after: Patch, before: Patch, fields: seq<Field>, p: Patch)
    requires after.Keys <= (set g | g in fields) && before.Keys <= (set g | g in fields)
             && p.Keys <= (set g | g in fields)
    requires forall g :: g in fields ==> (g in after <==> g in p || g in before)
    requires forall g :: g in fields && g in after ==> after[g] == if g in p then p[g] else before[g]
    ensures after == before + p
  {
    assert after.Keys == (before + p).Keys;
  }

  lemma {:induction false} ReadingTrimmed()
    ensures forall s: SkillSession, f: Field {:trigger Reading(s, f)} ::
              Wf(s) && Reading(s, f).Some? && Reading(s, f).value.Words?
              ==> Trimmed(Reading(s, f).value.text) && Reading(s, f).value.text != ""
    ensures forall x: string {:trigger Trim(x)} :: Trimmed(Trim(x)) && (Trimmed(x) ==> Trim(x) == x)
    ensures Trimmed("")
  {
    hide NormalKey, SLOT_KEYS, TRADER, Wf, Trim;
  }

  lemma {:induction false} OthersApart(name: string, fields: seq<Field>, g: Field)
    requires Separate(name, fields) && g in fields
    ensures forall f :: f in fields && f != g ==> NormalKey(name, f.key) != NormalKey(name, g.key)
  {
    hide NormalKey;
    var j :| 0 <= j < |fields| && fields[j] == g;
    forall f | f in fields && f != g ensures NormalKey(name, f.key) != NormalKey(name, g.key) {
      var i :| 0 <= i < |fields| && fields[i] == f;
    }
  }

  lemma {:induction false} BuildTyped(s: SkillSession, fields: seq<Field>)
    requires Wf(s)
    ensures WellTyped(Build(s, fields), fields) && TrimmedTexts(Build(s, fields))
  {
    ReadingTrimmed();
    hide FieldValue, Atoi, Trimmed, Wf;
  }

  /** The update handlers build a patch, apply it back and merge it into what they then build: the patch
      comes out as it went in. */
  lemma {:induction false} HandlersKeepThePatch(s: SkillSession, fields: seq<Field>, env: Env)
    requires Wf(s) && Family(fields)
    ensures var p := Build(s, fields);
            Build(Apply(s, fields, p, env), fields) == p && Build(Apply(s, fields, p, env), fields) + p == p
  {
    hide TRADER_FIELDS, MODEL_FIELDS, EXCHANGE_FIELDS, Family, Wf, Apply, Build, TrimmedTexts, WellTyped;
    BuildTyped(s, fields);
    BuildAfterApply(s, fields, Build(s, fields), env);
    assert Build(s, fields) + Build(s, fields) == Build(s, fields);
  }

  function ApplyAll(s: SkillSession, fields: seq<Field>, patches: seq<Patch>, env: Env): (r: SkillSession)
    requires Wf(s)
    ensures Wf(r)
  {
    if patches == [] then s else Apply(ApplyAll(s, fields, patches[..|patches| - 1], env), fields,
        patches[|patches| - 1], env)
  }

  function MergeAll(base: Patch, patches: seq<Patch>): Patch {
    if patches == [] then base else MergeAll(base, patches[..|patches| - 1]) + patches[|patches| - 1]
  }

  /** Over any run of turns that each apply a patch with trimmed texts, the session holds the merge of
      them all over what it held before; whatever turn a field was last given in decides it. */
  lemma {:induction false} RunMerges(s: SkillSession, fields: seq<Field>, patches: seq<Patch>, env: Env)
    requires Wf(s) && Family(fields)
    requires forall i :: 0 <= i < |patches| ==> WellTyped(patches[i], fields) && TrimmedTexts(patches[i])
    ensures Build(ApplyAll(s, fields, patches, env), fields) == MergeAll(Build(s, fields), patches)
  {
    hide Family, Wf, Apply, Build, TrimmedTexts, WellTyped;
    if patches != [] {
      var last := |patches| - 1;
      RunMerges(s, fields, patches[..last], env);
      BuildAfterApply(ApplyAll(s, fields, patches[..last], env), fields, patches[last], env);
    }
  }

  lemma {:induction false} MapAssoc(a: Patch, b: Patch, c: Patch)
    ensures a + b + c == a + (b + c)
  {
    assert (a + b + c).Keys == (a + (b + c)).Keys;
  }

  lemma {:induction false} MapUnits(a: Patch)
    ensures a + map[] == a && map[] + a == a
  {
    assert (a + map[]).Keys == a.Keys == (map[] + a).Keys;
  }

  /** Merging is associative with the empty patch as identity: a run of patches may be merged in any
      grouping first. */
  lemma {:induction false} MergedSplits(base: Patch, a: seq<Patch>, b: seq<Patch>)
    ensures MergeAll(base, a + b) == base + (MergeAll(map[], a) + MergeAll(map[], b))
    decreases |a| + |b|
  {
    if b == [] {
      assert a + b == a;
      MapUnits(MergeAll(map[], a));
      MapUnits(base);
      if a != [] {
        var last := |a| - 1;
        MergedSplits(base, a[..last], []);
        assert a[..last] + [] == a[..last];
        MapUnits(MergeAll(map[], a[..last]));
        MapAssoc(base, MergeAll(map[], a[..last]), a[last]);
      }
    } else {
      var last := |b| - 1;
      assert (a + b)[..|a + b| - 1] == a + b[..last] && (a + b)[|a + b| - 1] == b[last];
      MergedSplits(base, a, b[..last]);
      MapAssoc(base, MergeAll(map[], a) + MergeAll(map[], b[..last]), b[last]);
      MapAssoc(MergeAll(map[], a), MergeAll(map[], b[..last]), b[last]);
    }
  }
}
