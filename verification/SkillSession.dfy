/** agent/skill_dispatcher.go and agent/skill_management_handlers.go: a skill session keeps its answers in
    `fields`, and for trader management a second time in typed `slots`. */
module SkillSessions {
  import opened Options
  import opened Text
  import opened ExecutionStates

  /** createTraderSkillSlots: one text per slot key. The auto-start flag, a *bool, is "" for nil and
      otherwise "true" or "false". */
  type Slots = map<string, string>

  datatype SkillSession = SkillSession(name: string, action: string, phase: string, target: Option<Entity>,
                                       fields: map<string, string>, slots: Option<Slots>, at: Option<int>)

  const TRADER := "trader_management"
  const AUTO := "auto_start"
  const SLOT_KEYS: set<string> :=
    {"name", "exchange_id", "exchange_name", "model_id", "model_name", "strategy_id", "strategy_name", AUTO}

  function NoSlots(): (slots: Slots)
    ensures slots.Keys == SLOT_KEYS
  {
    map k | k in SLOT_KEYS :: ""
  }

  const NO_SESSION := SkillSession("", "", "", None, map[], None, None)

  /** What the code takes from outside: the clock, and normalizeTraderDraftName. */
  datatype Env = Env(now: int, draftName: string -> string)

  lemma {:induction false} KeyFacts()
    ensures AUTO in SLOT_KEYS && "model_id" in SLOT_KEYS && "name" in SLOT_KEYS && "ai_model_id" !in SLOT_KEYS
    ensures "model_id" != "ai_model_id" && "model_id" != "name" && "ai_model_id" != "name"
    ensures Trimmed("model_id") && Trimmed("ai_model_id") && Trimmed(TRADER) && TRADER != ""
    ensures forall k :: k in SLOT_KEYS ==> Trimmed(k) && k != "" && k != "ai_model_id"
  {
    assert "ai_model_id"[1] == 'i';
  }

  function Get(fields: map<string, string>, key: string): string {
    if key in fields then fields[key] else ""
  }

  /** strings.EqualFold(v, "true") */
  predicate FoldsToTrue(v: string) {
    && |v| == 4 && (v[0] == 't' || v[0] == 'T') && (v[1] == 'r' || v[1] == 'R')
    && (v[2] == 'u' || v[2] == 'U') && (v[3] == 'e' || v[3] == 'E')
  }

  /** How a slot holds the text of its field: the flag as a flag, the others as they are. */
  function SlotForm(key: string, text: string): string {
    if key == AUTO && text != "" then if FoldsToTrue(text) then "true" else "false" else text
  }

  lemma {:induction false} SlotFormTwice(key: string, text: string)
    ensures SlotForm(key, SlotForm(key, text)) == SlotForm(key, text)
    ensures SlotForm(key, text) == "" <==> text == ""
    ensures Trimmed(text) ==> Trimmed(SlotForm(key, text))
    ensures Trim("") == ""
    ensures SlotForm(key, text) == text <==> key != AUTO || text == "" || text == "true" || text == "false"
  {
    assert "false"[0] == 'f';
    assert Trimmed("true") && Trimmed("false");
  }

  /** A slots value has exactly the slot keys, and its flag is one of the three. */
  predicate Wf(s: SkillSession) {
    s.slots.Some? ==> s.slots.value.Keys == SLOT_KEYS && forall k ::
        k in SLOT_KEYS ==> SlotForm(k, s.slots.value[k]) == s.slots.value[k]
  }

  /** normalizeFieldKey */
  function NormalKey(name: string, key: string): string {
    var k := Trim(key);
    if name == TRADER && k == "ai_model_id" then "model_id" else k
  }

  lemma {:induction false} NormalKeyTwice(name: string, key: string)
    ensures NormalKey(name, NormalKey(name, key)) == NormalKey(name, key)
  {
    KeyFacts();
    hide SLOT_KEYS;
  }

  // ---- Reading and writing one field ----

  function SlotValue(s: SkillSession, k: string): string
    requires Wf(s)
  {
    if s.name == TRADER && s.slots.Some? && k in SLOT_KEYS then Trim(s.slots.value[k]) else ""
  }

  /** The field under a normal key if it has text, else its slot. */
  function ValueAt(s: SkillSession, k: string): string
    requires Wf(s)
  {
    var text := Trim(Get(s.fields, k));
    if text != "" then text else SlotValue(s, k)
  }

  /** fieldValue */
  function FieldValue(s: SkillSession, key: string): string
    requires Wf(s)
  {
    ValueAt(s, NormalKey(s.name, key))
  }

  /** What slot `k` holds once the field, if it has text, has been copied over it. */
  function MirrorOne(fields: map<string, string>, slots: Slots, k: string): string
    requires k in slots
  {
    var text := Trim(Get(fields, k));
    if text != "" then SlotForm(k, text) else slots[k]
  }

  function Mirrored(fields: map<string, string>, slots: Slots): (r: Slots)
    requires slots.Keys == SLOT_KEYS
    ensures r.Keys == SLOT_KEYS
  {
    map k | k in SLOT_KEYS :: MirrorOne(fields, slots, k)
  }

  function SlotsOf(s: SkillSession): (slots: Slots)
    requires Wf(s)
    ensures slots.Keys == SLOT_KEYS && forall k :: k in SLOT_KEYS ==> SlotForm(k, slots[k]) == slots[k]
  {
    if s.slots == None then NoSlots() else s.slots.value
  }

  /** syncTraderCreateSlotMirror */
  function Sync(s: SkillSession): (r: SkillSession)
    requires Wf(s)
    ensures Wf(r)
  {
    MirroredWf(s.fields, SlotsOf(s));
    if s.name != TRADER then s else s.(slots := Some(Mirrored(s.fields, SlotsOf(s))))
  }

  lemma {:induction false} MirroredWf(fields: map<string, string>, slots: Slots)
    requires slots.Keys == SLOT_KEYS && forall k :: k in SLOT_KEYS ==> SlotForm(k, slots[k]) == slots[k]
    ensures forall k :: k in SLOT_KEYS ==> SlotForm(k, Mirrored(fields, slots)[k]) == Mirrored(fields, slots)[k]
  {
    hide SLOT_KEYS, Trim, SlotForm;
    forall k | k in SLOT_KEYS ensures SlotForm(k, Mirrored(fields, slots)[k]) == Mirrored(fields, slots)[k] {
      SlotFormTwice(k, Trim(Get(fields, k)));
    }
  }

  /** The text setField stores, "" when it stores nothing. */
  function StoredText(s: SkillSession, key: string, value: string, env: Env): string {
    if Trim(value) == "" then ""
    else if s.name == TRADER && NormalKey(s.name, key) == "name" then env.draftName(Trim(value))
    else Trim(value)
  }

  function SetField(s: SkillSession, key: string, value: string, env: Env): (r: SkillSession)
    requires Wf(s)
    ensures Wf(r)
  {
    var text := StoredText(s, key, value, env);
    if text == "" then s else Sync(s.(fields := s.fields[NormalKey(s.name, key) := text]))
  }

  class SessionCell {
    var session: SkillSession

    constructor (s: SkillSession)
      ensures session == s
    {
      session := s;
    }

    /** setField */
    method Set(key: string, value: string, env: Env)
      requires Wf(session)
      modifies this
      ensures Wf(session) && session == SetField(old(session), key, value, env)
    {
      hide Trim, Mirrored, SLOT_KEYS, SlotForm;
      var k := NormalKey(session.name, key);
      var v := Trim(value);
      if v == "" {
        return;
      }
      if session.name == TRADER && k == "name" {
        v := env.draftName(v);
        if v == "" {
          return;
        }
      }
      session := session.(fields := session.fields[k := v]);
      Mirror();
    }

    /** syncTraderCreateSlotMirror */
    method Mirror()
      requires Wf(session)
      modifies this
      ensures Wf(session) && session == Sync(old(session))
    {
      hide Trim, SLOT_KEYS, SlotForm;
      if session.name != TRADER {
        return;
      }
      ghost var before := SlotsOf(session);
      var slots := SlotsOf(session);
      var todo := SLOT_KEYS;
      while todo != {}
        invariant todo <= SLOT_KEYS && slots.Keys == SLOT_KEYS
        invariant forall k :: k in todo ==> slots[k] == before[k]
        invariant forall k :: k in SLOT_KEYS - todo ==> slots[k] == MirrorOne(session.fields, before, k)
        decreases todo
      {
        var k :| k in todo;
        todo := todo - {k};
        var text := Trim(Get(session.fields, k));
        if text != "" {
          slots := slots[k := SlotForm(k, text)];
        }
      }
      assert slots == Mirrored(session.fields, before);
      MirroredWf(session.fields, before);
      session := session.(slots := Some(slots));
    }
  }

  /** The mirror invariant: every mirrored field with text has that text in its slot. */
  predicate InMirror(s: SkillSession)
    requires Wf(s)
  {
    s.name == TRADER ==> forall k ::
        k in SLOT_KEYS && Trim(Get(s.fields, k)) != "" ==> SlotsOf(s)[k] == SlotForm(k, Trim(Get(s.fields, k)))
  }

  /** Synchronising never changes what any field reads as. */
  lemma {:induction false} SyncKeepsValues(s: SkillSession, k: string)
    requires Wf(s)
    ensures ValueAt(Sync(s), k) == ValueAt(s, k)
    ensures InMirror(Sync(s))
  {
    SlotFormTwice("", "");
    hide Trim, SLOT_KEYS, TRADER, SlotForm;
  }

  /** A field reads back as what was stored in it, every other field reads as before, and the mirror
      invariant holds again; storing nothing changes nothing. */
  lemma {:induction false} ReadAfterSet(s: SkillSession, key: string, value: string, env: Env, other: string)
    requires Wf(s)
    ensures var text, after := StoredText(s, key, value, env), SetField(s, key, value, env);
            && after.name == s.name
            && (text == "" ==> after == s)
            && (text != "" ==> InMirror(after))
            && (NormalKey(s.name, other) != NormalKey(s.name, key) ==> FieldValue(after, other) == FieldValue(s, other))
            && (Trim(text) != "" && NormalKey(s.name, other) == NormalKey(s.name, key)
               ==> FieldValue(after, other) == Trim(text))
  {
    var text := StoredText(s, key, value, env);
    if text != "" {
      StoreKeepsOthers(s, NormalKey(s.name, key), text, NormalKey(s.name, other));
      SyncKeepsValues(s.(fields := s.fields[NormalKey(s.name, key) := text]), NormalKey(s.name, other));
      hide Trim, NormalKey, Mirrored, SLOT_KEYS, InMirror, ValueAt, SlotForm;
      assert SetField(s, key, value, env) == Sync(s.(fields := s.fields[NormalKey(s.name, key) := text]));
    }
  }

  lemma {:induction false} StoreKeepsOthers(s: SkillSession, k: string, text: string, other: string)
    requires Wf(s)
    ensures var after := s.(fields := s.fields[k := text]);
            ValueAt(after, other) == if other != k then ValueAt(s, other) else if Trim(text) != "" then Trim(text)
                else SlotValue(s, k)
  {
    hide Trim, SLOT_KEYS, SlotForm;
  }

  // ---- normalizeSkillSession ----

  predicate Kept(name: string, raw: map<string, string>, key: string)
    requires key in raw
  {
    NormalKey(name, key) != "" && Trim(raw[key]) != ""
  }

  /** `out` is a result of re-keying `raw`: Go visits the map in any order, so of several keys that become
      one, any may win. */
  ghost predicate Rekeyed(name: string, raw: map<string, string>, out: map<string, string>) {
    && (forall k :: k in raw && Kept(name, raw, k) ==> NormalKey(name, k) in out)
    && (forall n :: n in out ==> exists k ::
       k in raw && Kept(name, raw, k) && NormalKey(name, k) == n && out[n] == Trim(raw[k]))
  }

  method NormalizeFields(name: string, raw: map<string, string>) returns (out: map<string, string>)
    ensures Rekeyed(name, raw, out)
  {
    hide Trim, NormalKey, SLOT_KEYS;
    out := map[];
    var todo := raw.Keys;
    while todo != {}
      invariant todo <= raw.Keys
      invariant forall k :: k in raw.Keys - todo && Kept(name, raw, k) ==> NormalKey(name, k) in out
      invariant forall n :: n in out ==> exists k ::
                k in raw && Kept(name, raw, k) && NormalKey(name, k) == n && out[n] == Trim(raw[k])
      decreases todo
    {
      var k :| k in todo;
      todo := todo - {k};
      if Kept(name, raw, k) {
        out := out[NormalKey(name, k) := Trim(raw[k])];
      }
    }
  }

  /** No two keys that become one carry different texts. */
  ghost predicate Coherent(name: string, raw: map<string, string>) {
    forall a, b :: a in raw && b in raw && Kept(name, raw, a) && Kept(name, raw, b)
        && NormalKey(name, a) == NormalKey(name, b)
      ==> Trim(raw[a]) == Trim(raw[b])
  }

  ghost function AnyRekeyed(name: string, raw: map<string, string>): (out: map<string, string>)
    ensures Rekeyed(name, raw, out)
  {
    var names := set k | k in raw && Kept(name, raw, k) :: NormalKey(name, k);
    map n | n in names :: (var k :| k in raw && Kept(name, raw, k) && NormalKey(name, k) == n; Trim(raw[k]))
  }

  /** Re-keying has one result exactly when the keys are coherent. */
  lemma {:induction false} RekeyingDetermined(name: string, raw: map<string, string>)
    ensures Coherent(name, raw) <==> forall x, y :: Rekeyed(name, raw, x) && Rekeyed(name, raw, y) ==> x == y
  {
    hide Trim, NormalKey, SLOT_KEYS, TRADER, Rekeyed, Kept;
    if Coherent(name, raw) {
      forall x, y | Rekeyed(name, raw, x) && Rekeyed(name, raw, y) ensures x == y {
        CoherentUnique(name, raw, x, y);
      }
    } else {
      var a, b :| a in raw && b in raw && Kept(name, raw, a) && Kept(name, raw, b)
          && NormalKey(name, a) == NormalKey(name, b)
                  && Trim(raw[a]) != Trim(raw[b]);
      var out, n := AnyRekeyed(name, raw), NormalKey(name, a);
      WinnerRekeyed(name, raw, out, a);
      WinnerRekeyed(name, raw, out, b);
      assert out[n := Trim(raw[a])][n] != out[n := Trim(raw[b])][n];
    }
  }

  lemma {:induction false} CoherentUnique(name: string, raw: map<string, string>, x: map<string, string>,
      y: map<string, string>)
    requires Coherent(name, raw) && Rekeyed(name, raw, x) && Rekeyed(name, raw, y)
    ensures x == y
  {
    hide Trim, NormalKey, SLOT_KEYS, TRADER;
    assert x.Keys == y.Keys;
  }

  lemma {:induction false} WinnerRekeyed(name: string, raw: map<string, string>, out: map<string, string>, a: string)
    requires Rekeyed(name, raw, out) && a in raw && Kept(name, raw, a)
    ensures Rekeyed(name, raw, out[NormalKey(name, a) := Trim(raw[a])])
  {
    hide Trim, NormalKey, SLOT_KEYS;
  }

  /** Both orders occur: "ai_model_id" and "model_id" with different texts. */
  lemma {:induction false} ModelKeysClash(a: string, b: string)
    requires Trim(a) != "" && Trim(b) != "" && Trim(a) != Trim(b)
    ensures !Coherent(TRADER, map["ai_model_id" := a, "model_id" := b])
  {
    KeyFacts();
    var raw := map["ai_model_id" := a, "model_id" := b];
    assert NormalKey(TRADER, "ai_model_id") == "model_id" == NormalKey(TRADER, "model_id");
    assert Kept(TRADER, raw, "ai_model_id") && Kept(TRADER, raw, "model_id");
    hide Trim, NormalKey, SLOT_KEYS;
  }

  function TrimSlots(slots: Slots): (r: Slots)
    requires slots.Keys == SLOT_KEYS
    ensures r.Keys == SLOT_KEYS
  {
    map k | k in SLOT_KEYS :: Trim(slots[k])
  }

  /** The text of field `k` once a non-empty slot has been written over it. */
  function FilledText(fields: map<string, string>, slots: Slots, k: string): string {
    if k in slots && slots[k] != "" then slots[k] else Get(fields, k)
  }

  function FromSlots(fields: map<string, string>, slots: Slots): map<string, string> {
    map k | k in fields.Keys + slots.Keys && FilledText(fields, slots, k) != "" :: FilledText(fields, slots, k)
  }

  predicate AllEmpty(s: SkillSession)
    requires Wf(s)
  {
    forall k :: k in SLOT_KEYS ==> ValueAt(s, k) == ""
  }

  /** Non-empty slots are written over the fields, then, for a trader, the fields over the slots. */
  function Fill(s: SkillSession): (r: SkillSession)
    requires Wf(s) && s.slots.Some?
    ensures Wf(r) && r.slots.Some?
  {
    var slots := TrimSlots(s.slots.value);
    TrimSlotsWf(s);
    Sync(s.(fields := FromSlots(s.fields, slots), slots := Some(slots)))
  }

  lemma {:induction false} TrimSlotsWf(s: SkillSession)
    requires Wf(s) && s.slots.Some?
    ensures forall k :: k in SLOT_KEYS ==> SlotForm(k, TrimSlots(s.slots.value)[k]) == TrimSlots(s.slots.value)[k]
  {
    hide SLOT_KEYS, Trim, SlotForm;
    forall k | k in SLOT_KEYS ensures SlotForm(k, TrimSlots(s.slots.value)[k]) == TrimSlots(s.slots.value)[k] {
      TrimSlotForm(k, s.slots.value[k]);
    }
  }

  lemma {:induction false} TrimSlotForm(k: string, text: string)
    requires SlotForm(k, text) == text
    ensures SlotForm(k, Trim(text)) == Trim(text)
  {
    assert Trimmed("true") && Trimmed("false");
  }

  /** Slots that leave every slot key empty are dropped. */
  function Filled(t: SkillSession): (r: SkillSession)
    requires Wf(t)
    ensures Wf(r)
  {
    if t.slots == None then t else if AllEmpty(Fill(t)) then Fill(t).(slots := None) else Fill(t)
  }

  /** normalizeSkillSession once the fields have been re-keyed to `fields`. */
  function NormalWith(s: SkillSession, fields: map<string, string>, env: Env): (r: SkillSession)
    requires Wf(s)
    ensures Wf(r)
  {
    var t := SkillSession(Trim(s.name), Trim(s.action), Trim(s.phase), NormalEntityRef(s.target, env.now),
        fields, s.slots, s.at);
    if t.name == "" then NO_SESSION else Filled(t).(at := Stamped(t.at, env.now))
  }

  ghost predicate IsNormal(s: SkillSession, env: Env, r: SkillSession)
    requires Wf(s)
  {
    exists fields :: Rekeyed(Trim(s.name), s.fields, fields) && r == NormalWith(s, fields, env)
  }

  /** normalizeSkillSession */
  method NormalizeSkillSession(s: SkillSession, env: Env) returns (r: SkillSession)
    requires Wf(s)
    ensures Wf(r) && IsNormal(s, env, r)
  {
    var fields := NormalizeFields(Trim(s.name), s.fields);
    r := NormalWith(s, fields, env);
  }

  /** Keys already normal, texts trimmed and non-empty. */
  predicate Canonical(name: string, fields: map<string, string>) {
    forall k :: k in fields ==> NormalKey(name, k) == k && k != "" && Trimmed(fields[k]) && fields[k] != ""
  }

  lemma {:induction false} CanonicalRekeyed(name: string, fields: map<string, string>, out: map<string, string>)
    requires Canonical(name, fields)
    ensures Rekeyed(name, fields, out) <==> out == fields
  {
    hide NormalKey, SLOT_KEYS;
    forall k | k in fields ensures Kept(name, fields, k) && Trim(fields[k]) == fields[k] {}
    hide Trim, SLOT_KEYS;
    if Rekeyed(name, fields, out) {
      assert out.Keys == fields.Keys;
      assert out == fields;
    }
  }

  lemma {:induction false} RekeyedCanonical(name: string, raw: map<string, string>, out: map<string, string>)
    requires Rekeyed(name, raw, out)
    ensures Canonical(name, out)
  {
    forall n | n in out ensures NormalKey(name, n) == n && n != "" && Trimmed(out[n]) && out[n] != "" {
      var k :| k in raw && Kept(name, raw, k) && NormalKey(name, k) == n && out[n] == Trim(raw[k]);
      NormalKeyTwice(name, k);
    }
  }

  lemma {:induction false} GetCanonical(name: string, fields: map<string, string>, k: string)
    requires Canonical(name, fields)
    ensures Trim(Get(fields, k)) == Get(fields, k) && (k in fields <==> Get(fields, k) != "")
  {
    hide NormalKey, SLOT_KEYS;
  }

  lemma {:induction false} SlotKeysNormal(name: string)
    ensures forall k :: k in SLOT_KEYS ==> NormalKey(name, k) == k && k != ""
  {
    KeyFacts();
    hide SLOT_KEYS;
  }

  /** What one filling leaves under each slot key: the slot's text if it had any, else the field's, in the
      fields as it is and in a trader's slots in slot form. */
  lemma {:induction false} FilledAt(s: SkillSession, k: string)
    requires Wf(s) && s.slots.Some? && Canonical(s.name, s.fields)
    ensures var r, slot := Fill(s), if k in SLOT_KEYS then Trim(s.slots.value[k]) else "";
            && Get(r.fields, k) == (if slot != "" then slot else Get(s.fields, k))
            && (k in SLOT_KEYS ==> r.slots.value[k] == if s.name == TRADER then SlotForm(k, Get(r.fields, k)) else slot)
            && Trim(Get(r.fields, k)) == Get(r.fields, k)
  {
    GetCanonical(s.name, s.fields, k);
    SlotFormTwice(k, Get(s.fields, k));
    if k in SLOT_KEYS {
      TrimSlotForm(k, s.slots.value[k]);
    }
    hide SLOT_KEYS, SlotForm, NormalKey, Trim;
  }

  lemma {:induction false} FillCanonical(s: SkillSession)
    requires Wf(s) && s.slots.Some? && Canonical(s.name, s.fields)
    ensures Canonical(s.name, Fill(s).fields)
  {
    SlotKeysNormal(s.name);
    forall k | k in Fill(s).fields
      ensures NormalKey(s.name, k) == k && k != "" && Trimmed(Fill(s).fields[k]) && Fill(s).fields[k] != ""
    {
      FilledAt(s, k);
      hide SLOT_KEYS, SlotForm, NormalKey, Fill;
      FilledKeys(s, k);
    }
  }

  lemma {:induction false} FilledKeys(s: SkillSession, k: string)
    requires Wf(s) && s.slots.Some? && k in Fill(s).fields
    ensures (k in s.fields || k in SLOT_KEYS) && Fill(s).fields[k] != ""
  {
    hide SLOT_KEYS, SlotForm, NormalKey, Trim;
  }

  lemma {:induction false} SameMaps(name: string, a: map<string, string>, b: map<string, string>)
    requires Canonical(name, a) && Canonical(name, b)
    requires forall k :: Get(a, k) == Get(b, k)
    ensures a == b
  {
    hide NormalKey, Trimmed;
    forall k ensures k in a <==> k in b {
      assert Get(a, k) == Get(b, k);
    }
    assert forall k :: k in a ==> a[k] == Get(a, k) == Get(b, k);
  }

  /** A trader's auto-start field has text other than the two the code writes, and no slot overrules it. */
  predicate OddAuto(name: string, fields: map<string, string>, slots: Option<Slots>) {
    && name == TRADER && slots.Some? && Trim(Get(slots.value, AUTO)) == ""
    && SlotForm(AUTO, Get(fields, AUTO)) != Get(fields, AUTO)
  }

  /** Filling twice is filling once, unless an odd auto-start text has no slot to overrule it. */
  lemma {:induction false} FillTwice(s: SkillSession)
    requires Wf(s) && s.slots.Some? && Canonical(s.name, s.fields)
    ensures Fill(Fill(s)) == Fill(s) <==> !OddAuto(s.name, s.fields, s.slots)
  {
    var r := Fill(s);
    var t := Fill(r);
    FillCanonical(s);
    FillCanonical(r);
    forall k ensures k != AUTO || !OddAuto(s.name, s.fields, s.slots) ==> Get(t.fields, k) == Get(r.fields, k) {
      RefilledAt(s, k);
    }
    forall k | k in SLOT_KEYS ensures k != AUTO || !OddAuto(s.name, s.fields, s.slots)
        ==> t.slots.value[k] == r.slots.value[k] {
      RefilledAt(s, k);
    }
    KeyFacts();
    RefilledAt(s, AUTO);
    hide Fill, SLOT_KEYS, SlotForm, NormalKey, Trim, OddAuto, Canonical;
    if !OddAuto(s.name, s.fields, s.slots) {
      SameMaps(s.name, t.fields, r.fields);
      assert t.slots.value == r.slots.value;
    }
    FillKeeps(s);
    FillKeeps(r);
  }

  lemma {:induction false} FillKeeps(s: SkillSession)
    requires Wf(s) && s.slots.Some?
    ensures Fill(s) == s.(fields := Fill(s).fields, slots := Fill(s).slots) && Fill(s).slots.value.Keys == SLOT_KEYS
  {
    hide SLOT_KEYS, SlotForm, NormalKey, Trim;
  }

  lemma {:induction false} RefilledAt(s: SkillSession, k: string)
    requires Wf(s) && s.slots.Some? && Canonical(s.name, s.fields)
    ensures var r, t := Fill(s), Fill(Fill(s));
            var odd := k == AUTO && OddAuto(s.name, s.fields, s.slots);
            && (Get(t.fields, k) == Get(r.fields, k) <==> !odd)
            && (k in SLOT_KEYS && !odd ==> t.slots.value[k] == r.slots.value[k])
  {
    var r := Fill(s);
    FillCanonical(s);
    FillKeeps(s);
    FilledAt(s, k);
    FilledAt(r, k);
    KeyFacts();
    SlotFormTwice(k, Get(r.fields, k));
    SlotFormTwice(k, Get(s.fields, k));
    if k in SLOT_KEYS {
      TrimSlotForm(k, s.slots.value[k]);
    }
    hide Fill, SLOT_KEYS, SlotForm, NormalKey, Trim, TRADER;
  }

  lemma {:induction false} ValueAtFilled(t: SkillSession, k: string)
    requires Wf(t) && t.slots.Some? && Canonical(t.name, t.fields)
    ensures ValueAt(Fill(t), k) == Get(Fill(t).fields, k) || (t.name != TRADER && Get(Fill(t).fields, k) == "")
    ensures ValueAt(Fill(t).(slots := None), k) == Get(Fill(t).fields, k)
    ensures t.name == TRADER ==> ValueAt(Fill(t), k) == Get(Fill(t).fields, k)
  {
    FilledAt(t, k);
    FillKeeps(t);
    SlotFormTwice(k, "");
    hide Fill, SLOT_KEYS, SlotForm, NormalKey, Trim, TRADER;
  }

  lemma {:induction false} OddIsNotEmpty(t: SkillSession)
    requires Wf(t) && t.slots.Some? && Canonical(t.name, t.fields)
    ensures OddAuto(t.name, t.fields, t.slots) ==> !AllEmpty(Fill(t))
  {
    KeyFacts();
    FilledAt(t, AUTO);
    ValueAtFilled(t, AUTO);
    SlotFormTwice(AUTO, Get(t.fields, AUTO));
    hide Fill, SLOT_KEYS, SlotForm, NormalKey, Trim, AUTO, TRADER, ValueAt;
  }

  lemma {:induction false} FilledTwice(t: SkillSession)
    requires Wf(t) && Canonical(t.name, t.fields)
    ensures Canonical(t.name, Filled(t).fields)
    ensures Filled(Filled(t)) == Filled(t) <==> !OddAuto(t.name, t.fields, t.slots)
  {
    if t.slots.Some? {
      FillTwice(t);
      FillCanonical(t);
      OddIsNotEmpty(t);
      FilledCases(t);
      FilledCases(Fill(t));
      FillKeeps(t);
    } else {
      FilledNone(t);
    }
    FilledNone(Filled(t));
    hide *;
  }

  lemma {:induction false} FilledNone(t: SkillSession)
    requires Wf(t)
    ensures t.slots == None ==> Filled(t) == t && !OddAuto(t.name, t.fields, t.slots)
  {
    hide Fill, SLOT_KEYS, SlotForm, Trim;
  }

  lemma {:induction false} FilledCases(t: SkillSession)
    requires Wf(t) && t.slots.Some?
    ensures Filled(t) == if AllEmpty(Fill(t)) then Fill(t).(slots := None) else Fill(t)
  {
    hide Fill, SLOT_KEYS, SlotForm, NormalKey, Trim, TRADER, AllEmpty;
  }

  lemma {:induction false} FilledShape(t: SkillSession)
    requires Wf(t)
    ensures Filled(t) == t.(fields := Filled(t).fields, slots := Filled(t).slots)
  {
    if t.slots.Some? {
      FillKeeps(t);
    }
    hide Fill, SLOT_KEYS, SlotForm, AllEmpty;
  }

  lemma {:induction false} FilledIgnores(t: SkillSession, at: Option<int>)
    requires Wf(t)
    ensures Filled(t.(at := at)) == Filled(t).(at := at)
  {
    if t.slots.Some? {
      FillIgnores(t, at);
      EmptyIgnores(Fill(t), at);
    }
    hide SLOT_KEYS, SlotForm, Fill, AllEmpty;
  }

  lemma {:induction false} FillIgnores(t: SkillSession, at: Option<int>)
    requires Wf(t) && t.slots.Some?
    ensures Fill(t.(at := at)) == Fill(t).(at := at)
  {
    hide SLOT_KEYS, SlotForm, Trim, MirrorOne, FilledText;
  }

  lemma {:induction false} EmptyIgnores(t: SkillSession, at: Option<int>)
    requires Wf(t)
    ensures AllEmpty(t.(at := at)) == AllEmpty(t)
  {
    hide SLOT_KEYS, SlotForm, Trim;
    assert forall k :: ValueAt(t.(at := at), k) == ValueAt(t, k);
  }

  /** Normalising a normal session again changes nothing, whatever order the map is visited in, in every
      case but one: an odd auto-start text that no slot overruled the first time. */
  lemma {:induction false} NormalTwice(s: SkillSession, fields: map<string, string>, env: Env,
      again: map<string, string>, later: int)
    requires Wf(s) && Rekeyed(Trim(s.name), s.fields, fields)
    requires Rekeyed(NormalWith(s, fields, env).name, NormalWith(s, fields, env).fields, again)
    ensures NormalWith(NormalWith(s, fields, env), again, env.(now := later)) == NormalWith(s, fields, env)
            <==> !OddAuto(Trim(s.name), fields, s.slots)
  {
    RekeyedCanonical(Trim(s.name), s.fields, fields);
    KeyFacts();
    EntityTwice(s.target, env.now, later);
    var t := SkillSession(Trim(s.name), Trim(s.action), Trim(s.phase), NormalEntityRef(s.target, env.now),
        fields, s.slots, s.at);
    var r := NormalWith(s, fields, env);
    FilledTwice(t);
    FilledShape(t);
    FilledIgnores(Filled(t), Stamped(t.at, env.now));
    CanonicalRekeyed(r.name, r.fields, again) by {
      hide Fill, SLOT_KEYS, SlotForm, NormalKey, Filled, NormalEntityRef, Rekeyed;
    }
    NothingFilled();
    FilledShape(Filled(t));
    NormalAgain(s, t, r, env, later);
    hide Filled, SLOT_KEYS, SlotForm, NormalKey, Rekeyed, Canonical, NormalEntityRef, NormalWith;
  }

  lemma {:induction false} NormalAgain(s: SkillSession, t: SkillSession, r: SkillSession, env: Env, later: int)
    requires Wf(s) && Wf(t)
    requires Trimmed(t.name) && Trimmed(t.action) && Trimmed(t.phase) && NormalEntityRef(t.target, later) == t.target
    requires r == if t.name == "" then NO_SESSION else Filled(t).(at := Stamped(t.at, env.now))
    requires Filled(t) == t.(fields := Filled(t).fields, slots := Filled(t).slots)
    requires Filled(Filled(t)) == t.(fields := Filled(Filled(t)).fields, slots := Filled(Filled(t)).slots)
    requires Filled(r) == if t.name == "" then NO_SESSION else Filled(Filled(t)).(at := r.at)
    ensures NormalWith(r, r.fields, env.(now := later)) == r <==> t.name == "" || Filled(Filled(t)) == Filled(t)
  {
    EmptyTrims();
    NoEntity(later);
    hide Filled, SLOT_KEYS, SlotForm, NormalEntityRef, Trim;
  }

  lemma {:induction false} NothingFilled()
    ensures Filled(NO_SESSION) == NO_SESSION
  {
    hide SLOT_KEYS, Fill;
  }

  lemma {:induction false} EmptyTrims()
    ensures Trim("") == ""
    ensures forall s: string {:trigger Trim(s)} :: Trimmed(s) ==> Trim(s) == s
  {
    forall s: string | Trimmed(s) ensures Trim(s) == s {}
  }

  lemma {:induction false} NoEntity(now: int)
    ensures NormalEntityRef(None, now) == None
  {
  }

  /** A session with canonical keys and texts, slots only for a trader, and the mirror invariant reads the
      same after normalisation in every field, exactly when its auto-start text, if it has slots, is one
      of the two the code writes. */
  lemma {:induction false} NormalKeepsValues(s: SkillSession, env: Env)
    requires Wf(s) && Trimmed(s.name) && s.name != "" && Canonical(s.name, s.fields) && InMirror(s)
    requires s.slots.Some? ==> s.name == TRADER
    ensures (forall key :: FieldValue(NormalWith(s, s.fields, env), key) == FieldValue(s, key))
            <==> (s.slots.Some? ==> SlotForm(AUTO, Get(s.fields, AUTO)) == Get(s.fields, AUTO))
  {
    var r := NormalWith(s, s.fields, env);
    if s.slots.Some? {
      var plain := SlotForm(AUTO, Get(s.fields, AUTO)) == Get(s.fields, AUTO);
      forall k ensures ValueAt(r, k) == ValueAt(s, k) <==> (k == AUTO ==> plain) {
        NormalValueAt(s, env, k);
      }
      SlotKeysNormal(s.name);
      KeyFacts();
      NormalName(s, env);
      hide NormalWith, SLOT_KEYS, SlotForm, NormalKey, Trim, ValueAt, InMirror;
      assert FieldValue(r, AUTO) == ValueAt(r, AUTO) && FieldValue(s, AUTO) == ValueAt(s, AUTO);
    } else {
      hide SLOT_KEYS, SlotForm, NormalKey, InMirror, TRADER, NormalEntityRef;
      assert r.fields == s.fields && r.slots == s.slots && r.name == s.name;
    }
  }

  lemma {:induction false} NormalName(s: SkillSession, env: Env)
    requires Wf(s) && Trimmed(s.name) && s.name != ""
    ensures NormalWith(s, s.fields, env).name == s.name
  {
    hide SLOT_KEYS, SlotForm, NormalKey, AllEmpty;
  }

  lemma {:induction false} NormalValueAt(s: SkillSession, env: Env, k: string)
    requires Wf(s) && s.name == TRADER && Canonical(s.name, s.fields) && InMirror(s) && s.slots.Some?
    ensures ValueAt(NormalWith(s, s.fields, env), k) == ValueAt(s, k)
            <==> (k == AUTO ==> SlotForm(AUTO, Get(s.fields, AUTO)) == Get(s.fields, AUTO))
  {
    KeyFacts();
    var t := SkillSession(Trim(s.name), Trim(s.action), Trim(s.phase), NormalEntityRef(s.target, env.now),
        s.fields, s.slots, s.at);
    assert t.name == s.name && t.name != "";
    FilledAt(t, k);
    ValueAtFilled(t, k);
    GetCanonical(s.name, s.fields, k);
    SlotFormTwice(k, Get(s.fields, k));
    MirrorAt(s, k);
    FilledValue(t, Stamped(t.at, env.now), k);
    hide Fill, SLOT_KEYS, SlotForm, NormalKey, Trim, TRADER, AUTO, Canonical, InMirror, AllEmpty, Filled;
  }

  lemma {:induction false} MirrorAt(s: SkillSession, k: string)
    requires Wf(s) && s.name == TRADER && s.slots.Some? && InMirror(s)
    ensures k in SLOT_KEYS && Trim(Get(s.fields, k)) != ""
            ==> Trim(s.slots.value[k]) == SlotForm(k, Trim(Get(s.fields, k)))
  {
    SlotFormTwice(k, Trim(Get(s.fields, k)));
    hide SLOT_KEYS, SlotForm, Trim;
  }

  lemma {:induction false} FilledValue(t: SkillSession, at: Option<int>, k: string)
    requires Wf(t) && t.slots.Some? && ValueAt(Fill(t), k) == ValueAt(Fill(t).(slots := None), k)
    ensures ValueAt(Filled(t).(at := at), k) == ValueAt(Fill(t), k)
  {
    hide SLOT_KEYS, SlotForm, Trim, Fill, AllEmpty;
  }
}
