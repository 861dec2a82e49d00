/** What a draft of a trader shows and what is created from it: the owner reads names, the trader is bound to
    ids, and nothing keeps the two together. */
module TraderLabels {
  import opened Options
  import opened SkillSessions
  import opened Text
  import opened TraderCreation
  import C = ConfirmationGate
  import G = Targets

  // ---- Drafts are mirrored ----

  lemma {:induction false} PutMirrors(s: SkillSession, key: string, value: string, env: Env)
    requires Wf(s) && InMirror(s)
    ensures InMirror(Put(s, key, value, env))
  {
    ReadAfterSet(s, key, value, env, key);
    hide InMirror, Wf, SetField, StoredText, NormalKey, FieldValue, Trim;
  }

  lemma {:induction false} EditsMirror(s: SkillSession, edits: seq<(string, string)>, env: Env)
    requires Wf(s) && InMirror(s)
    ensures InMirror(Edited(s, edits, env))
    decreases |edits|
  {
    hide InMirror, Wf, Put;
    if edits != [] {
      PutMirrors(s, edits[0].0, edits[0].1, env);
      EditsMirror(Put(s, edits[0].0, edits[0].1, env), edits[1..], env);
    }
  }

  lemma {:induction false} HydrateMirrors(s: SkillSession, lists: Lists, env: Env, lib: G.Lib)
    requires Wf(s) && InMirror(s)
    ensures InMirror(Hydrate(s, lists, env, lib))
  {
    hide InMirror, Wf, HydrateOne;
    var s1 := HydrateOne(s, Exchange, lists.exchanges, env, lib);
    var s2 := HydrateOne(s1, Model, lists.models, env, lib);
    OneMirrors(s, Exchange, lists.exchanges, env, lib);
    OneMirrors(s1, Model, lists.models, env, lib);
    OneMirrors(s2, Strategy, lists.strategies, env, lib);
  }

  lemma {:induction false} OneMirrors(s: SkillSession, k: Kind, options: seq<G.Choice>, env: Env, lib: G.Lib)
    requires Wf(s) && InMirror(s)
    ensures InMirror(HydrateOne(s, k, options, env, lib))
  {
    hide InMirror, Wf, Put, FieldValue, G.Find, IdForName, IdKey, NameKey;
    PutMirrors(s, IdKey(k), IdForName(FieldValue(s, NameKey(k)), options, lib), env);
    var s1 := LookUpName(s, k, options, env, lib);
    var found := G.Find(options, FieldValue(s1, IdKey(k)), lib);
    if found.Some? {
      PutMirrors(s1, IdKey(k), found.value.id, env);
      PutMirrors(Put(s1, IdKey(k), found.value.id, env), NameKey(k), found.value.name, env);
    }
  }

  lemma {:induction false} PhaseMirrors(s: SkillSession, phase: string)
    requires Wf(s) && InMirror(s)
    ensures InMirror(Phased(s, phase))
  {
    hide Trim, SlotForm, SLOT_KEYS;
  }

  /** Whatever the handler saves is mirrored, and so is a draft only written to. */
  lemma {:induction false} NextMirrors(stored: Option<SkillSession>, e: Event, env: Env, lib: G.Lib)
    requires DraftWf(stored) && (stored.Some? ==> InMirror(stored.value))
    ensures var next := Next(stored, e, env, lib).0; next.Some? ==> InMirror(next.value)
  {
    hide InMirror, Wf, Edited, NEW_DRAFT, Handle;
    if e.Reply? {
      HandleMirrors(stored, e.turn, env, lib);
    } else {
      NewMirrors();
      EditsMirror(Begin(stored), e.edits, env);
    }
  }

  lemma {:induction false} ShowMirrors(h: SkillSession, t: Turn)
    requires Wf(h) && h.name == TRADER && InMirror(h)
    ensures InMirror(Show(h, t).0.value)
  {
    PhaseMirrors(h, COLLECTING);
    PhaseMirrors(h, AWAIT_START);
    PhaseMirrors(h, AWAIT_CREATE);
    hide InMirror, Wf, MissingOf, DraftOf, FieldValue, Phased, TRADER, AWAIT_START, AWAIT_CREATE, COLLECTING;
  }

  lemma {:induction false} CreateMirrors(s: SkillSession, start: bool, t: Turn, env: Env, lib: G.Lib)
    requires Wf(s) && s.name == TRADER && InMirror(s)
    ensures var next := Create(s, start, t, env, lib).0; next.Some? ==> InMirror(next.value)
  {
    HydrateMirrors(s, t.lists, env, lib);
    PhaseMirrors(Hydrate(s, t.lists, env, lib), COLLECTING);
    hide InMirror, Wf, Hydrate, DraftOf, Phased, TRADER, COLLECTING;
  }

  lemma {:induction false} OpenedMirrors(stored: Option<SkillSession>, t: Turn, env: Env)
    requires DraftWf(stored)
    ensures InMirror(Opened(stored, t, env))
  {
    SyncKeepsValues(Edited(Begin(stored), t.edits, env), "");
    hide InMirror, Wf, Edited, Begin, Sync, ValueAt;
  }

  lemma {:induction false} HandleMirrors(stored: Option<SkillSession>, t: Turn, env: Env, lib: G.Lib)
    requires DraftWf(stored)
    ensures var next := Handle(stored, t, env, lib).0; next.Some? ==> InMirror(next.value)
  {
    hide InMirror, Wf, Hydrate, Opened, Phased, C.IsYes, IsNo, IsCancel, Show, Create, TRADER, AWAIT_START,
        AWAIT_CREATE, COLLECTING, NO_WORDS,
      CANCEL_WORDS, NEW_DRAFT, DraftOf, MissingOf, FieldValue;
    var s := Opened(stored, t, env);
    OpenedMirrors(stored, t, env);
    PhaseMirrors(s, COLLECTING);
    CreateMirrors(s, true, t, env, lib);
    CreateMirrors(s, false, t, env, lib);
    HydrateMirrors(s, t.lists, env, lib);
    ShowMirrors(Hydrate(s, t.lists, env, lib), t);
  }

  lemma {:induction false} NewMirrors()
    ensures InMirror(NEW_DRAFT)
  {
    assert Trim("") == "";
    hide SLOT_KEYS;
  }

  lemma {:induction false} AfterMirrors(events: seq<Event>, env: Env, lib: G.Lib)
    ensures var s := After(events, env, lib); s.Some? ==> InMirror(s.value)
  {
    hide InMirror, Next, DraftWf;
    if events != [] {
      AfterMirrors(events[..|events| - 1], env, lib);
      NextMirrors(After(events[..|events| - 1], env, lib), events[|events| - 1], env, lib);
    }
  }

  /** In a mirrored draft a name that is only white space hides nothing: the slot still holds the old one. */
  lemma {:induction false} BlankHidesNothing(s: SkillSession, text: string)
    requires Wf(s) && s.name == TRADER && InMirror(s) && Trim(text) == ""
    ensures ValueAt(Sync(s.(fields := s.fields["name" := text])), "name") == ValueAt(s, "name")
  {
    StoreKeepsOthers(s, "name", text, "name");
    SyncKeepsValues(s.(fields := s.fields["name" := text]), "name");
    SlotHolds(s);
    hide ValueAt, Sync, SlotValue, InMirror, Wf, Trim;
  }

  lemma {:induction false} SlotHolds(s: SkillSession)
    requires Wf(s) && s.name == TRADER && InMirror(s)
    ensures SlotValue(s, "name") == ValueAt(s, "name")
  {
    var text := Trim(Get(s.fields, "name"));
    assert "name" in SLOT_KEYS && "name" != AUTO && Trim(text) == text && Trim("") == "";
    hide TRADER, SLOT_KEYS, Trim;
    assert text != "" ==> SlotsOf(s)["name"] == text;
  }

  // ---- What edits make of a draft ----

  function Newer(text: string, before: string): string {
    if text != "" then text else before
  }

  /** The text that writing a field leaves in it, "" if it leaves none. */
  function TextFor(key: string, value: string, env: Env): string {
    Trim(if Trim(value) != "" && NormalKey(TRADER, key) == "name" then env.draftName(Trim(value)) else value)
  }

  /** The last text written to a field, "" if there is none. */
  function Last(edits: seq<(string, string)>, key: string, env: Env): string {
    if edits == [] then ""
    else
      var (k, v) := edits[|edits| - 1];
      if NormalKey(TRADER, k) == key && TextFor(k, v, env) != "" then TextFor(k, v, env)
      else Last(edits[..|edits| - 1], key, env)
  }

  function WrittenRef(r: Ref, k: Kind, edits: seq<(string, string)>, env: Env): Ref {
    Ref(Newer(Last(edits, IdKey(k), env), r.id), Newer(Last(edits, NameKey(k), env), r.title))
  }

  /** Each field of the draft is the last text written to it, else what it was. */
  function Written(d: Draft, edits: seq<(string, string)>, env: Env): Draft {
    Draft(Newer(Last(edits, "name", env), d.name), WrittenRef(d.model, Model, edits, env),
          WrittenRef(d.exchange, Exchange, edits, env), WrittenRef(d.strategy, Strategy, edits, env))
  }

  lemma {:induction false} LastOfBoth(a: seq<(string, string)>, b: seq<(string, string)>, key: string, env: Env)
    ensures Last(a + b, key, env) == Newer(Last(b, key, env), Last(a, key, env))
    decreases |b|
  {
    hide TextFor, NormalKey, TRADER;
    if b == [] {
      assert a + b == a;
    } else {
      assert (a + b)[..|a + b| - 1] == a + b[..|b| - 1];
      LastOfBoth(a, b[..|b| - 1], key, env);
    }
  }

  lemma {:induction false} LastOfOne(key: string, value: string, other: string, env: Env)
    ensures Last([(key, value)], other, env) == if NormalKey(TRADER, key) == other then TextFor(key, value, env) else ""
  {
    hide TextFor, NormalKey, TRADER;
    assert [(key, value)][..0] == [];
  }

  /** One field after a write. */
  lemma {:induction false} PutReadsAs(s: SkillSession, key: string, value: string, env: Env, other: string)
    requires Wf(s) && s.name == TRADER && InMirror(s) && NormalKey(TRADER, other) == other
    ensures FieldValue(Put(s, key, value, env), other)
            == if NormalKey(TRADER, key) == other then Newer(TextFor(key, value, env), FieldValue(s, other))
               else FieldValue(s, other)
  {
    ReadAfterSet(s, key, value, env, other);
    var text := StoredText(s, key, value, env);
    assert Trim(Trim(value)) == Trim(value)
        && Trim("") == "" by { hide NormalKey, SLOT_KEYS, Wf, InMirror, FieldValue; }
    hide InMirror, Wf, Trim, ValueAt, Sync, NormalKey, TRADER;
    if text != "" && Trim(text) == "" && NormalKey(s.name, key) == "name" {
      BlankHidesNothing(s, text);
    }
  }

  /** After any edits a field reads as the last text written to it, else as before. */
  lemma {:induction false} EditsRead(s: SkillSession, edits: seq<(string, string)>, env: Env, key: string)
    requires Wf(s) && s.name == TRADER && InMirror(s) && NormalKey(TRADER, key) == key
    ensures FieldValue(Edited(s, edits, env), key) == Newer(Last(edits, key, env), FieldValue(s, key))
    decreases |edits|
  {
    hide InMirror, Wf, Put, TextFor, NormalKey, TRADER, FieldValue;
    if edits != [] {
      var s1 := Put(s, edits[0].0, edits[0].1, env);
      PutMirrors(s, edits[0].0, edits[0].1, env);
      PutReadsAs(s, edits[0].0, edits[0].1, env, key);
      EditsRead(s1, edits[1..], env, key);
      assert edits == [(edits[0].0, edits[0].1)] + edits[1..];
      LastOfBoth([(edits[0].0, edits[0].1)], edits[1..], key, env);
      LastOfOne(edits[0].0, edits[0].1, key, env);
      hide Last;
    }
  }

  lemma {:induction false} KindKeys(k: Kind)
    ensures IdKey(k) in SLOT_KEYS && NameKey(k) in SLOT_KEYS && "name" in SLOT_KEYS && AUTO in SLOT_KEYS
    ensures IdKey(k) != "name" && NameKey(k) != "name" && IdKey(k) != AUTO && NameKey(k) != AUTO && "name" != AUTO
    ensures forall j :: IdKey(k) != NameKey(j) && (j != k ==> IdKey(j) != IdKey(k) && NameKey(j) != NameKey(k))
    ensures forall key :: key in SLOT_KEYS ==> NormalKey(TRADER, key) == key
  {
    SlotKeysNormal(TRADER);
    hide NormalKey;
    assert "strategy_id"[0] == 's' && "strategy_name"[0] == 's' && AUTO[0] == 'a' && "model_name"[0] == 'm';
    assert |"exchange_id"| == 11 && |"exchange_name"| == 13 && |"model_id"| == 8 && |"model_name"| == 10;
    assert |"strategy_id"| == 11 && |"strategy_name"| == 13 && |"name"| == 4 && |AUTO| == 10;
  }

  lemma {:induction false} EditsWrite(s: SkillSession, edits: seq<(string, string)>, env: Env)
    requires Wf(s) && s.name == TRADER && InMirror(s)
    ensures DraftOf(Edited(s, edits, env)) == Written(DraftOf(s), edits, env)
    ensures FieldValue(Edited(s, edits, env), AUTO) == Newer(Last(edits, AUTO, env), FieldValue(s, AUTO))
  {
    KindKeys(Model);
    hide InMirror, Wf, Edited, Last, NormalKey, TRADER, FieldValue, IdKey, NameKey, SLOT_KEYS, AUTO;
    forall k: Kind ensures RefOf(Edited(s, edits, env), k) == WrittenRef(RefOf(s, k), k, edits, env) {
      KindKeys(k);
      EditsRead(s, edits, env, IdKey(k));
      EditsRead(s, edits, env, NameKey(k));
    }
    EditsRead(s, edits, env, "name");
    EditsRead(s, edits, env, AUTO);
    hide RefOf, WrittenRef;
  }

  // ---- What filling in makes of a draft ----

  function NamedRef(r: Ref, options: seq<G.Choice>, lib: G.Lib): Ref {
    if r.id != "" then r else Ref(IdForName(r.title, options, lib), r.title)
  }

  function LiveRef(r: Ref, options: seq<G.Choice>, lib: G.Lib): Ref {
    var found := G.Find(options, r.id, lib);
    if r.id == "" || found == None then r
    else Ref(Stored(r.id, found.value.id), if r.title != "" then r.title else Stored("", found.value.name))
  }

  /** A missing id is looked up by the name; a live id becomes that of the option it finds, which gives a
      missing name. A name that is there stays, whatever the id. */
  function FilledRef(r: Ref, options: seq<G.Choice>, lib: G.Lib): Ref {
    LiveRef(NamedRef(r, options, lib), options, lib)
  }

  function Filled(d: Draft, lists: Lists, lib: G.Lib): Draft {
    Draft(d.name, FilledRef(d.model, lists.models, lib), FilledRef(d.exchange, lists.exchanges, lib),
          FilledRef(d.strategy, lists.strategies, lib))
  }

  lemma {:induction false} PutReads(s: SkillSession, key: string, value: string, env: Env, other: string)
    requires Wf(s) && s.name == TRADER && key in SLOT_KEYS && other in SLOT_KEYS && key != "name"
    ensures FieldValue(Put(s, key, value, env), other)
            == if other == key then Stored(FieldValue(s, key), value) else FieldValue(s, other)
  {
    KindKeys(Model);
    ReadAfterSet(s, key, value, env, other);
    assert StoredText(s, key, value, env) == Trim(value)
        && Trim(Trim(value)) == Trim(value) by { hide NormalKey, SLOT_KEYS; }
    hide SetField, FieldValue, Wf, SLOT_KEYS, NormalKey, Trim, InMirror, IdKey, NameKey;
  }

  lemma {:induction false} NameTrimmed(name: string, options: seq<G.Choice>, lib: G.Lib)
    ensures Stored("", IdForName(name, options, lib)) == IdForName(name, options, lib)
  {
    hide G.Find, G.FindContaining;
    var found := G.OrElse(G.Find(options, name, lib), G.FindContaining(options, name, lib));
    assert Trim("") == "" && (found.Some? ==> Trim(Trim(found.value.id)) == Trim(found.value.id));
    hide Trim;
  }

  lemma {:induction false} NameReads(s: SkillSession, k: Kind, options: seq<G.Choice>, env: Env,
      lib: G.Lib, other: string)
    requires Wf(s) && s.name == TRADER && other in SLOT_KEYS
    ensures FieldValue(LookUpName(s, k, options, env, lib), other)
            == if other == IdKey(k) then NamedRef(RefOf(s, k), options, lib).id else FieldValue(s, other)
  {
    KindKeys(k);
    NameTrimmed(FieldValue(s, NameKey(k)), options, lib);
    hide FieldValue, Wf, SLOT_KEYS, Put, TRADER, Stored, IdForName, IdKey, NameKey, NormalKey, AUTO;
    if FieldValue(s, IdKey(k)) == "" {
      PutReads(s, IdKey(k), IdForName(FieldValue(s, NameKey(k)), options, lib), env, other);
    }
  }

  lemma {:induction false} LiveReads(s: SkillSession, k: Kind, options: seq<G.Choice>, env: Env,
      lib: G.Lib, other: string)
    requires Wf(s) && s.name == TRADER && other in SLOT_KEYS
    ensures var r := LiveRef(RefOf(s, k), options, lib);
            FieldValue(LookUpId(s, k, options, env, lib), other)
            == if other == IdKey(k) then r.id else if other == NameKey(k) then r.title else FieldValue(s, other)
  {
    KindKeys(k);
    hide FieldValue, Wf, SLOT_KEYS, Put, TRADER, G.Find, Stored, IdKey, NameKey, NormalKey, AUTO;
    var found := G.Find(options, FieldValue(s, IdKey(k)), lib);
    if found.Some? {
      var s1 := Put(s, IdKey(k), found.value.id, env);
      PutReads(s, IdKey(k), found.value.id, env, other);
      PutReads(s, IdKey(k), found.value.id, env, NameKey(k));
      PutReads(s1, NameKey(k), found.value.name, env, other);
    }
  }

  /** Filling in one reference fills that one and leaves every other field alone. */
  lemma {:induction false} OneReads(s: SkillSession, k: Kind, options: seq<G.Choice>, env: Env,
      lib: G.Lib, other: string)
    requires Wf(s) && s.name == TRADER && other in SLOT_KEYS
    ensures var r := FilledRef(RefOf(s, k), options, lib);
            FieldValue(HydrateOne(s, k, options, env, lib), other)
            == if other == IdKey(k) then r.id else if other == NameKey(k) then r.title else FieldValue(s, other)
  {
    KindKeys(k);
    hide FieldValue, Wf, SLOT_KEYS, LookUpName, LookUpId, TRADER, NamedRef, LiveRef, IdKey, NameKey, NormalKey, AUTO;
    var s1 := LookUpName(s, k, options, env, lib);
    NameReads(s, k, options, env, lib, other);
    NameReads(s, k, options, env, lib, IdKey(k));
    NameReads(s, k, options, env, lib, NameKey(k));
    LiveReads(s1, k, options, env, lib, other);
    assert RefOf(s1, k) == NamedRef(RefOf(s, k), options, lib) by { NamedTitle(RefOf(s, k), options, lib); }
  }

  lemma {:induction false} NamedTitle(r: Ref, options: seq<G.Choice>, lib: G.Lib)
    ensures NamedRef(r, options, lib).title == r.title
  {
  }

  /** hydrateCreateTraderSlotReferences fills each reference by itself. */
  lemma {:induction false} HydrateFills(s: SkillSession, lists: Lists, env: Env, lib: G.Lib)
    requires Wf(s) && s.name == TRADER
    ensures DraftOf(Hydrate(s, lists, env, lib)) == Filled(DraftOf(s), lists, lib)
    ensures FieldValue(Hydrate(s, lists, env, lib), AUTO) == FieldValue(s, AUTO)
  {
    KindKeys(Exchange);
    KindKeys(Model);
    KindKeys(Strategy);
    hide FieldValue, Wf, SLOT_KEYS, HydrateOne, TRADER, NormalKey, IdKey, NameKey, FilledRef, AUTO;
    var s1 := HydrateOne(s, Exchange, lists.exchanges, env, lib);
    var s2 := HydrateOne(s1, Model, lists.models, env, lib);
    forall key | key in SLOT_KEYS
      ensures key != IdKey(Exchange) && key != NameKey(Exchange) ==> FieldValue(s1, key) == FieldValue(s, key)
      ensures key != IdKey(Model) && key != NameKey(Model) ==> FieldValue(s2, key) == FieldValue(s1, key)
      ensures key != IdKey(Strategy) && key != NameKey(Strategy)
              ==> FieldValue(Hydrate(s, lists, env, lib), key) == FieldValue(s2, key)
    {
      OneReads(s, Exchange, lists.exchanges, env, lib, key);
      OneReads(s1, Model, lists.models, env, lib, key);
      OneReads(s2, Strategy, lists.strategies, env, lib, key);
    }
    OneFills(s, Exchange, lists.exchanges, env, lib);
    OneFills(s1, Model, lists.models, env, lib);
    OneFills(s2, Strategy, lists.strategies, env, lib);
  }

  lemma {:induction false} OneFills(s: SkillSession, k: Kind, options: seq<G.Choice>, env: Env, lib: G.Lib)
    requires Wf(s) && s.name == TRADER
    ensures RefOf(HydrateOne(s, k, options, env, lib), k) == FilledRef(RefOf(s, k), options, lib)
  {
    KindKeys(k);
    hide FieldValue, Wf, SLOT_KEYS, HydrateOne, TRADER, FilledRef, IdKey, NameKey, NormalKey, AUTO;
    OneReads(s, k, options, env, lib, IdKey(k));
    OneReads(s, k, options, env, lib, NameKey(k));
  }

  // ---- One event ----

  lemma {:induction false} SyncReads(s: SkillSession, key: string)
    requires Wf(s) && s.name == TRADER
    ensures FieldValue(Sync(s), key) == FieldValue(s, key)
  {
    SyncKeepsRest(s);
    SyncKeepsValues(s, NormalKey(s.name, key));
    hide Sync, ValueAt, NormalKey, SLOT_KEYS, Wf, TRADER, InMirror;
  }

  lemma {:induction false} BeginMirrors(stored: Option<SkillSession>)
    requires DraftWf(stored) && (stored.Some? ==> InMirror(stored.value))
    ensures InMirror(Begin(stored))
  {
    NewMirrors();
    hide InMirror, Wf, NEW_DRAFT;
  }

  /** The handler takes the draft up as the edits have written it. */
  lemma {:induction false} OpenedReads(stored: Option<SkillSession>, t: Turn, env: Env)
    requires DraftWf(stored) && (stored.Some? ==> InMirror(stored.value))
    ensures var (b, s) := (Begin(stored), Opened(stored, t, env));
            && DraftOf(s) == Written(DraftOf(b), t.edits, env)
            && FieldValue(s, AUTO) == Newer(Last(t.edits, AUTO, env), FieldValue(b, AUTO))
  {
    BeginMirrors(stored);
    hide InMirror, Wf, Edited, Begin, Sync, FieldValue, Written, Last, TRADER, AUTO, IdKey, NameKey;
    var e := Edited(Begin(stored), t.edits, env);
    EditsWrite(Begin(stored), t.edits, env);
    forall key ensures FieldValue(Sync(e), key) == FieldValue(e, key) {
      SyncReads(e, key);
    }
  }

  /** What an event does to what the draft reads as: its edits are written, and if the handler shows the
      draft or creates the trader, its references are filled in. */
  predicate Follows(w: Draft, lists: Option<Lists>, next: Option<SkillSession>, o: Outcome, lib: G.Lib)
    requires DraftWf(next)
  {
    && (next.Some? ==> DraftOf(next.value) == w || (lists.Some? && DraftOf(next.value) == Filled(w, lists.value, lib)))
    && (o.Shown? ==> && lists.Some? && next.Some? && DraftOf(next.value) == Filled(w, lists.value, lib)
                     && o.args == DraftOf(next.value).Bound() && o.labels == DraftOf(next.value).Printed())
    && (o.Created? ==> lists.Some? && o.args == Filled(w, lists.value, lib).Bound())
  }

  lemma {:induction false} ShowFollows(w: Draft, lists: Lists, h: SkillSession, t: Turn, lib: G.Lib)
    requires Wf(h) && h.name == TRADER && DraftOf(h) == Filled(w, lists, lib)
    ensures var (next, o) := Show(h, t); Follows(w, Some(lists), next, o, lib)
  {
    hide FieldValue, Wf, MissingOf, TRADER, COLLECTING, AWAIT_START, AWAIT_CREATE, Filled, RefOf, Phased;
  }

  lemma {:induction false} CreateFollows(w: Draft, s: SkillSession, start: bool, t: Turn, env: Env, lib: G.Lib)
    requires Wf(s) && s.name == TRADER && DraftOf(s) == w
    ensures var (next, o) := Create(s, start, t, env, lib); Follows(w, Some(t.lists), next, o, lib)
  {
    hide FieldValue, Wf, Hydrate, TRADER, COLLECTING, Filled, RefOf, Phased, DraftOf, Draft.Bound, Draft.Printed;
    HydrateFills(s, t.lists, env, lib);
    assert DraftOf(Hydrate(s, t.lists, env, lib)) == Filled(w, t.lists, lib);
  }

  lemma {:induction false} HandleFollows(stored: Option<SkillSession>, t: Turn, env: Env, lib: G.Lib)
    requires DraftWf(stored) && (stored.Some? ==> InMirror(stored.value))
    ensures var (next, o) := Handle(stored, t, env, lib);
            Follows(Written(DraftOf(Begin(stored)), t.edits, env), Some(t.lists), next, o, lib)
  {
    hide Wf, Hydrate, Opened, Phased, C.IsYes, IsNo, IsCancel, Show, Create, TRADER, AWAIT_START, AWAIT_CREATE,
        COLLECTING, NO_WORDS, CANCEL_WORDS, NEW_DRAFT, DraftOf, MissingOf, FieldValue, Filled, Written, InMirror;
    var s := Opened(stored, t, env);
    OpenedReads(stored, t, env);
    var w := DraftOf(s);
    CreateFollows(w, s, true, t, env, lib);
    CreateFollows(w, s, false, t, env, lib);
    HydrateFills(s, t.lists, env, lib);
    ShowFollows(w, t.lists, Hydrate(s, t.lists, env, lib), t, lib);
  }

  function ListsOf(e: Event): Option<Lists> {
    if e.Reply? then Some(e.turn.lists) else None
  }

  /** What the draft reads as after the events, a new draft if there is none. */
  function DraftAfter(events: seq<Event>, env: Env, lib: G.Lib): Draft {
    DraftOf(Begin(After(events, env, lib)))
  }

  /** In every conversation, at every event. */
  lemma {:induction false} EventFollows(events: seq<Event>, i: nat, env: Env, lib: G.Lib)
    requires i < |events|
    ensures var w := Written(DraftAfter(events[..i], env, lib), EditsOf(events[i]), env);
            Follows(w, ListsOf(events[i]), After(events[..i + 1], env, lib), OutcomeAt(events, i, env, lib), lib)
  {
    hide Handle, Wf, Edited, DraftOf, Written, Filled, InMirror, NEW_DRAFT, TRADER, DraftWf;
    var stored := After(events[..i], env, lib);
    assert events[..i + 1][..i] == events[..i] && events[..i + 1][i] == events[i];
    AfterMirrors(events[..i], env, lib);
    if events[i].Reply? {
      HandleFollows(stored, events[i].turn, env, lib);
    } else {
      BeginMirrors(stored);
      EditsWrite(Begin(stored), events[i].edits, env);
    }
  }

  // ---- Whether a label belongs to the id ----

  /** The text is the object's id, or looked up as the code looks up names it finds that object. */
  predicate Belongs(text: string, id: string, options: seq<G.Choice>, lib: G.Lib) {
    text == id || IdForName(text, options, lib) == id
  }

  /** The check on a reference before it is filled in: where there is a name, it stands for the object that the
      id, or else the name itself, leads to; where there is none, the name of the option the id finds does. */
  predicate Tells(w: Ref, options: seq<G.Choice>, lib: G.Lib) {
    if w.title == "" then
      var found := G.Find(options, w.id, lib);
      found == None || Trim(found.value.name) == ""
          || Belongs(Trim(found.value.name), IdForId(w.id, options, lib), options, lib)
    else
      Belongs(w.title, IdForId(if w.id != "" then w.id
          else IdForName(w.title, options, lib), options, lib), options, lib)
  }

  /** Every option's id and name lead back to it. */
  predicate Clear(options: seq<G.Choice>, lib: G.Lib) {
    forall o :: o in options ==>
      && Trim(o.id) != "" && IdForId(Trim(o.id), options, lib) == Trim(o.id)
      && (Trim(o.name) != "" ==> IdForName(Trim(o.name), options, lib) == Trim(o.id))
  }

  lemma {:induction false} FilledId(r: Ref, options: seq<G.Choice>, lib: G.Lib)
    ensures FilledRef(r, options, lib).id == IdForId(NamedRef(r, options, lib).id, options, lib)
    ensures r.title != "" ==> FilledRef(r, options, lib).title == r.title
  {
    hide G.Find, IdForName, Stored;
    assert IdForId("", options, lib) == "";
  }

  /** After it is filled in, the text printed for a reference belongs to its id exactly when the check held. */
  lemma {:induction false} FilledBelongs(w: Ref, options: seq<G.Choice>, lib: G.Lib)
    requires FilledRef(w, options, lib).id != ""
    ensures var r := FilledRef(w, options, lib);
            Belongs(r.Printed(), r.id, options, lib) <==> Tells(w, options, lib)
  {
    FilledId(w, options, lib);
    NoLookUp(options, lib);
    assert Trim("") == "";
    hide G.Find, IdForName, Trim, G.FindContaining;
  }

  lemma {:induction false} NoLookUp(options: seq<G.Choice>, lib: G.Lib)
    ensures IdForName("", options, lib) == "" && IdForId("", options, lib) == ""
  {
    hide G.Find, G.FindContaining;
  }

  lemma {:induction false} IdAgain(id: string, options: seq<G.Choice>, lib: G.Lib)
    requires Clear(options, lib)
    ensures IdForId(IdForId(id, options, lib), options, lib) == IdForId(id, options, lib)
  {
    hide G.Find, IdForName, Trim;
    G.FoundAreOptions(options, id, lib);
  }

  lemma {:induction false} NamedAgain(name: string, options: seq<G.Choice>, lib: G.Lib)
    requires Clear(options, lib)
    ensures var id := IdForName(name, options, lib); IdForId(id, options, lib) == id
  {
    hide G.Find, G.FindContaining, Trim, IdForId;
    NoLookUp(options, lib);
    G.FoundAreOptions(options, name, lib);
  }

  /** Over clear options only a name and an id that both were there can disagree. */
  lemma {:induction false} TellsClearly(w: Ref, options: seq<G.Choice>, lib: G.Lib)
    requires Clear(options, lib)
    ensures Tells(w, options, lib)
            <==> w.id == "" || w.title == "" || Belongs(w.title, IdForId(w.id, options, lib), options, lib)
  {
    hide G.Find, IdForName, Trim, IdForId, Clear, Belongs;
    NoFind(options, lib);
    if w.title == "" {
      if w.id != "" && G.Find(options, w.id, lib).Some? {
        NameTells(w.id, options, lib);
      }
    } else if w.id == "" {
      NamedBelongs(w.title, options, lib);
    }
  }

  lemma {:induction false} NamedBelongs(title: string, options: seq<G.Choice>, lib: G.Lib)
    requires Clear(options, lib)
    ensures Belongs(title, IdForId(IdForName(title, options, lib), options, lib), options, lib)
  {
    hide IdForName, IdForId, Clear;
    NamedAgain(title, options, lib);
  }

  lemma {:induction false} NoFind(options: seq<G.Choice>, lib: G.Lib)
    ensures G.Find(options, "", lib) == None
  {
    assert Trim("") == "";
  }

  lemma {:induction false} NameTells(id: string, options: seq<G.Choice>, lib: G.Lib)
    requires Clear(options, lib) && id != "" && G.Find(options, id, lib).Some?
    ensures var o := G.Find(options, id, lib).value;
            Trim(o.name) == "" || Belongs(Trim(o.name), IdForId(id, options, lib), options, lib)
  {
    hide G.Find, IdForName, Trim;
    G.FoundAreOptions(options, id, lib);
    var o := G.Find(options, id, lib).value;
    assert o in options;
  }

  // ---- Whole conversations: what is shown ----

  lemma {:induction false} OfEach(d: Draft, lists: Lists, edits: seq<(string, string)>, k: Kind, env: Env, lib: G.Lib)
    ensures Filled(d, lists, lib).Of(k) == FilledRef(d.Of(k), lists.Of(k), lib)
    ensures Written(d, edits, env).Of(k) == WrittenRef(d.Of(k), k, edits, env)
    ensures d.Bound().Of(k) == d.Of(k).id && d.Printed().Of(k) == d.Of(k).Printed()
  {
    hide FilledRef, Last, IdKey, NameKey, Ref.Printed;
  }

  /** A shown draft is complete. */
  lemma {:induction false} ShownFull(events: seq<Event>, i: nat, env: Env, lib: G.Lib)
    requires i < |events| && OutcomeAt(events, i, env, lib).Shown?
    ensures events[i].Reply? && forall k: Kind :: OutcomeAt(events, i, env, lib).args.Of(k) != ""
  {
    hide Handle, Wf, AWAIT_START, AWAIT_CREATE, DraftOf, TRADER, DraftWf, Edited, NEW_DRAFT;
    if events[i].Reply? {
      TurnTells(After(events[..i], env, lib), events[i].turn, env, lib);
    }
  }

  /** In every conversation, whatever the live objects are from turn to turn: when a draft is shown, the
      label of a reference belongs to its id exactly when the check holds of the reference as the edits
      had written it; over clear options, exactly when no name and id that were both there disagreed. */
  lemma {:induction false} ShownBelongs(events: seq<Event>, i: nat, k: Kind, env: Env, lib: G.Lib)
    requires i < |events| && OutcomeAt(events, i, env, lib).Shown?
    ensures events[i].Reply?
            && var w := WrittenRef(DraftAfter(events[..i], env, lib).Of(k), k, events[i].turn.edits, env);
            var (o, options) := (OutcomeAt(events, i, env, lib), events[i].turn.lists.Of(k));
            && (Belongs(o.labels.Of(k), o.args.Of(k), options, lib) <==> Tells(w, options, lib))
            && (Clear(options, lib) ==>
                  (Belongs(o.labels.Of(k), o.args.Of(k), options, lib)
                   <==> w.id == "" || w.title == "" || Belongs(w.title, IdForId(w.id, options, lib), options, lib)))
  {
    hide OutcomeAt, DraftAfter, After, Written, Filled, WrittenRef, FilledRef, Tells, Clear, Belongs, DraftOf, IdForId,
        DraftWf, Wf, Ref.Printed;
    ShownFull(events, i, env, lib);
    EventFollows(events, i, env, lib);
    var t := events[i].turn;
    var d := DraftAfter(events[..i], env, lib);
    var w := Written(d, t.edits, env);
    OfEach(d, t.lists, t.edits, k, env, lib);
    OfEach(w, t.lists, t.edits, k, env, lib);
    OfEach(Filled(w, t.lists, lib), t.lists, t.edits, k, env, lib);
    FilledBelongs(w.Of(k), t.lists.Of(k), lib);
    if Clear(t.lists.Of(k), lib) {
      TellsClearly(w.Of(k), t.lists.Of(k), lib);
    }
  }

  // ---- Once a reference has both its fields ----

  /** There is a draft after each of these numbers of events. */
  predicate Kept(events: seq<Event>, f: nat, i: nat, env: Env, lib: G.Lib)
    requires i <= |events|
  {
    forall m :: f <= m <= i ==> After(events[..m], env, lib).Some?
  }

  /** The live objects of one kind do not change over these events, and are clear. */
  predicate Steadily(events: seq<Event>, f: nat, i: nat, k: Kind, options: seq<G.Choice>, lib: G.Lib)
    requires i <= |events|
  {
    Clear(options, lib) && forall m :: f <= m < i && events[m].Reply? ==> events[m].turn.lists.Of(k) == options
  }

  predicate Both(r: Ref) {
    r.id != "" && r.title != ""
  }

  /** One event on a reference that has both its fields. */
  lemma {:induction false} BothStep(r: Ref, k: Kind, edits: seq<(string, string)>, options: seq<G.Choice>,
      env: Env, lib: G.Lib)
    requires Both(r) && Clear(options, lib)
    ensures var w := WrittenRef(r, k, edits, env);
            var f := FilledRef(w, options, lib);
            && Both(w) && w.title == f.title
            && f.id != "" && f.id == IdForId(w.id, options, lib) == IdForId(f.id, options, lib)
  {
    var w := WrittenRef(r, k, edits, env);
    FilledId(w, options, lib);
    IdAgain(w.id, options, lib);
    IdStays(w.id, options, lib);
    hide IdForId, Clear, FilledRef, Last, IdKey, NameKey;
    assert NamedRef(w, options, lib) == w;
  }

  lemma {:induction false} IdStays(id: string, options: seq<G.Choice>, lib: G.Lib)
    ensures id != "" ==> IdForId(id, options, lib) != ""
  {
    hide G.Find;
  }

  /** A reference as it was after `f` events, with what has been written to it until after `n`. */
  function RefSince(events: seq<Event>, f: nat, n: nat, k: Kind, env: Env, lib: G.Lib): Ref
    requires f <= n <= |events|
  {
    WrittenRef(DraftAfter(events[..f], env, lib).Of(k), k, EditsSince(events[..n], f), env)
  }

  /** From any point of a conversation at which a reference has both its fields, whatever happens then: as long
      as there is a draft and the live objects stay the same, its name is the last one written, and its id leads
      where the last one written leads. Neither ever follows the other. */
  lemma {:induction false} FieldsApart(events: seq<Event>, f: nat, i: nat, k: Kind, options: seq<G.Choice>,
      env: Env, lib: G.Lib)
    requires f <= i <= |events| && Kept(events, f, i, env, lib) && Steadily(events, f, i, k, options, lib)
    requires Both(DraftAfter(events[..f], env, lib).Of(k))
    ensures var (w, now) := (RefSince(events, f, i, k, env, lib), DraftAfter(events[..i], env, lib).Of(k));
            && Both(now) && now.title == w.title && IdForId(now.id, options, lib) == IdForId(w.id, options, lib)
  {
    hide After, Written, Filled, WrittenRef, FilledRef, Clear, DraftOf, IdForId, DraftWf, Wf, OutcomeAt, EditsSince,
        Ref.Printed, Draft.Printed, Draft.Bound;
    var was := DraftAfter(events[..f], env, lib).Of(k);
    if f == i {
      NothingSince(events[..i], was, k, env);
    } else {
      FieldsApart(events, f, i - 1, k, options, env, lib);
      var (d, e) := (DraftAfter(events[..i - 1], env, lib), events[i - 1]);
      var w := Written(d, EditsOf(e), env);
      EventFollows(events, i - 1, env, lib);
      assert After(events[..i], env, lib).Some?;
      SinceNext(events, i - 1, f);
      WrittenTwice(was, k, EditsSince(events[..i - 1], f), EditsOf(e), d.Of(k), options, env, lib);
      BothStep(d.Of(k), k, EditsOf(e), options, env, lib);
      if e.Reply? {
        OfEach(w, e.turn.lists, EditsOf(e), k, env, lib);
        OfEach(d, e.turn.lists, EditsOf(e), k, env, lib);
      } else {
        OfEach(d, Lists([], [], []), EditsOf(e), k, env, lib);
      }
    }
  }

  lemma {:induction false} NothingSince(events: seq<Event>, r: Ref, k: Kind, env: Env)
    ensures WrittenRef(r, k, EditsSince(events, |events|), env) == r
  {
    hide IdKey, NameKey;
  }

  lemma {:induction false} SinceNext(events: seq<Event>, i: nat, n: nat)
    requires n <= i < |events|
    ensures EditsSince(events[..i + 1], n) == EditsSince(events[..i], n) + EditsOf(events[i])
  {
    assert events[..i + 1][..i] == events[..i] && events[..i + 1][i] == events[i];
  }

  /** Writing in two goes, when in between the id was at most led to where it leads. */
  lemma {:induction false} WrittenTwice(was: Ref, k: Kind, a: seq<(string, string)>, b: seq<(string, string)>, mid: Ref,
      options: seq<G.Choice>, env: Env, lib: G.Lib)
    requires var w := WrittenRef(was, k, a, env);
             mid.title == w.title && IdForId(mid.id, options, lib) == IdForId(w.id, options, lib)
    ensures var (w, v) := (WrittenRef(was, k, a + b, env), WrittenRef(mid, k, b, env));
            v.title == w.title && IdForId(v.id, options, lib) == IdForId(w.id, options, lib)
  {
    LastOfBoth(a, b, IdKey(k), env);
    LastOfBoth(a, b, NameKey(k), env);
    hide Last, IdForId, IdKey, NameKey;
  }

  /** So the label shown at any later turn belongs to the id exactly when the last name written stands for the
      object that the last id written leads to, each as it was at the start if none has been written since. */
  lemma {:induction false} LabelsBelong(events: seq<Event>, f: nat, i: nat, k: Kind, options: seq<G.Choice>,
      env: Env, lib: G.Lib)
    requires f <= i < |events| && Kept(events, f, i, env, lib) && Steadily(events, f, i + 1, k, options, lib)
    requires Both(DraftAfter(events[..f], env, lib).Of(k)) && OutcomeAt(events, i, env, lib).Shown?
    ensures var w := RefSince(events, f, i + 1, k, env, lib);
            var o := OutcomeAt(events, i, env, lib);
            && o.labels.Of(k) == w.title && o.args.Of(k) == IdForId(w.id, options, lib)
            && (Belongs(o.labels.Of(k), o.args.Of(k), options, lib)
                <==> Belongs(w.title, IdForId(w.id, options, lib), options, lib))
  {
    hide OutcomeAt, After, Written, Filled, WrittenRef, FilledRef, Clear, Belongs, DraftOf, IdForId,
        DraftWf, Wf, EditsSince,
        DraftAfter;
    ShownFull(events, i, env, lib);
    EventFollows(events, i, env, lib);
    LaterRef(events, f, i, k, options, env, lib);
    var t := events[i].turn;
    var w := Written(DraftAfter(events[..i], env, lib), t.edits, env);
    OfEach(Filled(w, t.lists, lib), t.lists, t.edits, k, env, lib);
    assert t.lists.Of(k) == options;
  }

  /** The reference filled in at an event, in terms of what was written since. */
  lemma {:induction false} LaterRef(events: seq<Event>, f: nat, i: nat, k: Kind, options: seq<G.Choice>,
      env: Env, lib: G.Lib)
    requires f <= i < |events| && Kept(events, f, i, env, lib) && Steadily(events, f, i + 1, k, options, lib)
    requires Both(DraftAfter(events[..f], env, lib).Of(k)) && events[i].Reply?
    ensures var w := RefSince(events, f, i + 1, k, env, lib);
            var now := Filled(Written(DraftAfter(events[..i], env, lib), events[i].turn.edits, env),
                events[i].turn.lists, lib).Of(k);
            now.title == w.title != "" && now.id == IdForId(w.id, options, lib)
  {
    BothStep(DraftAfter(events[..f], env, lib).Of(k), k, EditsSince(events[..i + 1], f), options, env, lib);
    hide OutcomeAt, After, Written, Filled, WrittenRef, FilledRef, Clear, DraftOf, IdForId, DraftWf, Wf,
        EditsSince, DraftAfter;
    var (t, d) := (events[i].turn, DraftAfter(events[..i], env, lib));
    assert t.lists.Of(k) == options;
    FieldsApart(events, f, i, k, options, env, lib);
    SinceNext(events, i, f);
    WrittenTwice(DraftAfter(events[..f], env, lib).Of(k), k, EditsSince(events[..i], f), t.edits, d.Of(k),
        options, env, lib);
    BothStep(d.Of(k), k, t.edits, options, env, lib);
    OfEach(d, t.lists, t.edits, k, env, lib);
    OfEach(Written(d, t.edits, env), t.lists, t.edits, k, env, lib);
  }

  // ---- Whole conversations: what is created ----

  /** Between two runs of the handler the draft is only written to. */
  lemma {:induction false} DraftSince(events: seq<Event>, env: Env, lib: G.Lib)
    ensures var n := Replied(events);
            DraftAfter(events, env, lib) == Written(DraftAfter(events[..n], env, lib), EditsSince(events, n), env)
  {
    hide After, Wf, Edited, DraftOf, Written, InMirror, NEW_DRAFT, TRADER, Replied, EditsSince;
    var n := Replied(events);
    SinceReply(events, env, lib);
    AfterMirrors(events[..n], env, lib);
    BeginMirrors(After(events[..n], env, lib));
    EditsWrite(Begin(After(events[..n], env, lib)), EditsSince(events, n), env);
    if n == |events| {
      assert events[..n] == events;
      NothingWritten(DraftAfter(events, env, lib), events, env);
    }
  }

  lemma {:induction false} NothingWritten(d: Draft, events: seq<Event>, env: Env)
    ensures Written(d, EditsSince(events, |events|), env) == d
  {
  }

  /** The trader created is the one the owner read: its name, and objects that the labels belong to. */
  predicate AsRead(shown: Outcome, created: Args, lists: Lists, lib: G.Lib)
    requires shown.Shown?
  {
    created.name == shown.args.name && forall k: Kind :: Belongs(shown.labels.Of(k), created.Of(k), lists.Of(k), lib)
  }

  /** What a reply creates: every field as last written since the draft was shown, each id led to the live
      object it finds. */
  lemma {:induction false} CreatedFrom(events: seq<Event>, i: nat, env: Env, lib: G.Lib)
    requires i < |events| && OutcomeAt(events, i, env, lib).Created?
    ensures var n := Replied(events[..i]);
            && events[i].Reply? && n > 0 && OutcomeAt(events, n - 1, env, lib).Shown?
            && var (shown, o) := (OutcomeAt(events, n - 1, env, lib), OutcomeAt(events, i, env, lib));
            var d := DraftAfter(events[..n], env, lib);
            && shown.args == d.Bound() && shown.labels == d.Printed()
            && o.args == Filled(Written(d, EditsSince(events[..i + 1], n), env), events[i].turn.lists, lib).Bound()
  {
    hide OutcomeAt, After, Written, Filled, DraftOf, DraftWf, Wf, EditsSince, DraftAfter, Replied, IsNo, C.IsYes, Full,
        Draft.Bound, Draft.Printed;
    CreatedOnlyAsShown(events, i, env, lib);
    var n := Replied(events[..i]);
    EventFollows(events, n - 1, env, lib);
    EventFollows(events, i, env, lib);
    ShownIsNext(events, n, env, lib);
    DraftSince(events[..i], env, lib);
    assert events[..i][..n] == events[..n];
    SinceNext(events, i, n);
    WrittenBoth(DraftAfter(events[..n], env, lib), EditsSince(events[..i], n), EditsOf(events[i]), env);
  }

  lemma {:induction false} ShownIsNext(events: seq<Event>, n: nat, env: Env, lib: G.Lib)
    requires n <= |events| && After(events[..n], env, lib).Some?
    ensures DraftAfter(events[..n], env, lib) == DraftOf(After(events[..n], env, lib).value)
  {
    hide After, DraftOf, DraftWf, Wf, NEW_DRAFT;
  }

  lemma {:induction false} WrittenBoth(d: Draft, a: seq<(string, string)>, b: seq<(string, string)>, env: Env)
    ensures Written(Written(d, a, env), b, env) == Written(d, a + b, env)
  {
    LastOfBoth(a, b, "name", env);
    forall k: Kind ensures WrittenRef(WrittenRef(d.Of(k), k, a, env), k, b, env) == WrittenRef(d.Of(k), k, a + b, env) {
      LastOfBoth(a, b, IdKey(k), env);
      LastOfBoth(a, b, NameKey(k), env);
      hide Last, IdKey, NameKey;
    }
    assert d.Of(Model) == d.model && d.Of(Exchange) == d.exchange && d.Of(Strategy) == d.strategy;
    hide Last, WrittenRef, IdKey, NameKey;
  }

  /** The id a reference is created with, once it has been shown with one. */
  function LedTo(events: seq<Event>, i: nat, n: nat, shown: Args, k: Kind, env: Env, lib: G.Lib): string
    requires n <= i < |events| && events[i].Reply?
  {
    IdForId(Newer(Last(EditsSince(events[..i + 1], n), IdKey(k), env), shown.Of(k)), events[i].turn.lists.Of(k), lib)
  }

  lemma {:induction false} IdWritten(d: Draft, edits: seq<(string, string)>, lists: Lists, k: Kind,
      env: Env, lib: G.Lib)
    requires d.Bound().Of(k) != ""
    ensures Filled(Written(d, edits, env), lists, lib).Bound().Of(k)
            == IdForId(Newer(Last(edits, IdKey(k), env), d.Bound().Of(k)), lists.Of(k), lib)
  {
    OfEach(d, lists, edits, k, env, lib);
    OfEach(Written(d, edits, env), lists, edits, k, env, lib);
    OfEach(Filled(Written(d, edits, env), lists, lib), lists, edits, k, env, lib);
    FilledId(WrittenRef(d.Of(k), k, edits, env), lists.Of(k), lib);
    hide Filled, Written, FilledRef, IdForId, Last, IdKey, NameKey, IdForName;
  }

  /** In every conversation, whatever the live objects are from turn to turn: a trader is created under the name
      that was shown, bound to objects that the labels shown belong to, exactly when the edits since, those of
      the model's own replies and of the confirmation, leave the name alone and each id, as last written
      since or else as shown, leads to an object that its label belongs to. It is created with the very ids that
      were shown exactly when each leads back to itself. */
  lemma {:induction false} CreatedIsShown(events: seq<Event>, i: nat, env: Env, lib: G.Lib)
    requires i < |events| && OutcomeAt(events, i, env, lib).Created?
    ensures var n := Replied(events[..i]);
            && events[i].Reply? && n > 0 && OutcomeAt(events, n - 1, env, lib).Shown?
            && var (shown, created) := (OutcomeAt(events, n - 1, env, lib), OutcomeAt(events, i, env, lib).args);
            var (since, lists) := (EditsSince(events[..i + 1], n), events[i].turn.lists);
            && created.name == Newer(Last(since, "name", env), shown.args.name)
            && (forall k: Kind :: created.Of(k) == LedTo(events, i, n, shown.args, k, env, lib))
            && (AsRead(shown, created, lists, lib)
                <==> && (Last(since, "name", env) == "" || Last(since, "name", env) == shown.args.name)
                     && forall k: Kind :: Belongs(shown.labels.Of(k), LedTo(events, i, n, shown.args, k, env, lib),
                        lists.Of(k), lib))
            && (created == shown.args
                <==> && (Last(since, "name", env) == "" || Last(since, "name", env) == shown.args.name)
                     && forall k: Kind :: LedTo(events, i, n, shown.args, k, env, lib) == shown.args.Of(k))
  {
    hide OutcomeAt, DraftAfter, Replied, EditsSince, Last, Filled, Written, FilledRef, WrittenRef,
        IdForId, Belongs, IdKey,
        NameKey, Draft.Bound, Draft.Printed, After, Handle;
    CreatedFrom(events, i, env, lib);
    var n := Replied(events[..i]);
    ShownFull(events, n - 1, env, lib);
    var (shown, created) := (OutcomeAt(events, n - 1, env, lib), OutcomeAt(events, i, env, lib).args);
    var (d, since, lists) := (DraftAfter(events[..n], env, lib), EditsSince(events[..i + 1], n), events[i].turn.lists);
    forall k: Kind ensures created.Of(k) == LedTo(events, i, n, shown.args, k, env, lib) {
      IdWritten(d, since, lists, k, env, lib);
    }
    NameWritten(d, since, lists, env, lib);
    SameArgs(created, shown.args);
    hide LedTo;
  }

  lemma {:induction false} NameWritten(d: Draft, edits: seq<(string, string)>, lists: Lists, env: Env, lib: G.Lib)
    ensures Filled(Written(d, edits, env), lists, lib).Bound().name == Newer(Last(edits, "name", env), d.Bound().name)
  {
    hide FilledRef, WrittenRef, Last;
  }

  lemma {:induction false} SameArgs(a: Args, b: Args)
    ensures a == b <==> a.name == b.name && forall k: Kind :: a.Of(k) == b.Of(k)
  {
    assert a.Of(Model) == a.model && a.Of(Exchange) == a.exchange && a.Of(Strategy) == a.strategy;
    assert b.Of(Model) == b.model && b.Of(Exchange) == b.exchange && b.Of(Strategy) == b.strategy;
  }

  /** The same over the whole life of a reference that has both its fields, through any number of drafts shown:
      the object created belongs to the label that was shown exactly when the last id written by the
      confirmation leads to an object that the last name written by the showing stands for. */
  lemma {:induction false} CreatedAsRead(events: seq<Event>, f: nat, j: nat, i: nat, k: Kind, options: seq<G.Choice>,
      env: Env, lib: G.Lib)
    requires f <= j < i < |events| && OutcomeAt(events, i, env, lib).Created? && j + 1 == Replied(events[..i])
    requires Kept(events, f, i, env, lib) && Steadily(events, f, i + 1, k, options, lib)
    requires Both(DraftAfter(events[..f], env, lib).Of(k))
    ensures OutcomeAt(events, j, env, lib).Shown?
    ensures var (name, id) := (RefSince(events, f, j + 1, k, env, lib).title,
            RefSince(events, f, i + 1, k, env, lib).id);
            var (shown, created) := (OutcomeAt(events, j, env, lib).labels, OutcomeAt(events, i, env, lib).args);
            && shown.Of(k) == name && created.Of(k) == IdForId(id, options, lib)
            && (Belongs(shown.Of(k), created.Of(k), options, lib)
               <==> Belongs(name, IdForId(id, options, lib), options, lib))
  {
    hide OutcomeAt, After, Written, Filled, FilledRef, Clear, Belongs, DraftOf, IdForId, DraftWf, Wf,
        EditsSince, DraftAfter,
        Replied, RefSince, IsNo, C.IsYes, Full, AWAIT_START, AWAIT_CREATE;
    CreatedOnlyAsShown(events, i, env, lib);
    LabelsBelong(events, f, j, k, options, env, lib);
    LaterRef(events, f, i, k, options, env, lib);
    EventFollows(events, i, env, lib);
    var t := events[i].turn;
    OfEach(Filled(Written(DraftAfter(events[..i], env, lib), t.edits, env), t.lists, lib), t.lists,
        t.edits, k, env, lib);
  }

  // ---- Drafts and traders that come apart ----

  /** Neither a yes nor a no nor a cancellation. */
  predicate PlainText(text: string, lib: G.Lib) {
    !C.IsYes(text, lib) && !IsNo(text, lib) && !IsCancel(text, lib)
  }

  /** The last event showed a draft to be created without starting. */
  predicate JustShown(events: seq<Event>, env: Env, lib: G.Lib) {
    && events != [] && OutcomeAt(events, |events| - 1, env, lib).Shown?
    && !OutcomeAt(events, |events| - 1, env, lib).start
  }

  lemma {:induction false} JustShownHolds(events: seq<Event>, env: Env, lib: G.Lib)
    requires JustShown(events, env, lib)
    ensures var stored := After(events, env, lib);
            && stored.Some? && stored.value.phase == AWAIT_CREATE && InMirror(stored.value)
            && FieldValue(stored.value, AUTO) != "true"
            && DraftAfter(events, env, lib) == DraftOf(stored.value)
            && OutcomeAt(events, |events| - 1, env, lib)
               == Shown(DraftOf(stored.value).Bound(), DraftOf(stored.value).Printed(), false)
            && forall k: Kind :: DraftOf(stored.value).Of(k).id != ""
  {
    hide OutcomeAt, After, Handle, Wf, AWAIT_START, AWAIT_CREATE, DraftOf, TRADER, FieldValue, InMirror, AUTO, Full,
        NEW_DRAFT, DraftAfter, Draft.Bound, Draft.Printed;
    var n := |events|;
    assert events[..n] == events;
    ShownFull(events, n - 1, env, lib);
    ReplyTells(events, n, env, lib);
    AfterMirrors(events, env, lib);
    ShownIsNext(events, n, env, lib);
    LastShown(events, env, lib);
    forall k: Kind ensures DraftOf(After(events, env, lib).value).Of(k).id != "" {
      OfEach(DraftOf(After(events, env, lib).value), Lists([], [], []), [], k, env, lib);
    }
  }

  lemma {:induction false} LastShown(events: seq<Event>, env: Env, lib: G.Lib)
    requires JustShown(events, env, lib) && After(events, env, lib).Some? && events[|events| - 1].Reply?
    ensures FieldValue(After(events, env, lib).value, AUTO) != "true"
  {
    hide Wf, AWAIT_START, AWAIT_CREATE, COLLECTING, TRADER, FieldValue, AUTO, DraftWf, Opened, Hydrate, NEW_DRAFT;
    var n := |events|;
    assert events[..n] == events;
    ShowLeavesAuto(After(events[..n - 1], env, lib), events[n - 1].turn, env, lib);
  }

  lemma {:induction false} ShowLeavesAuto(stored: Option<SkillSession>, t: Turn, env: Env, lib: G.Lib)
    requires DraftWf(stored) && Handle(stored, t, env, lib).1.Shown? && !Handle(stored, t, env, lib).1.start
    ensures var next := Handle(stored, t, env, lib).0; next.Some? ==> FieldValue(next.value, AUTO) != "true"
  {
    hide Wf, AWAIT_START, COLLECTING, TRADER, FieldValue, DraftOf, MissingOf, Opened, Hydrate, NEW_DRAFT,
        C.IsYes, IsNo, IsCancel;
    PhaseKeepsWf(Hydrate(Opened(stored, t, env), t.lists, env, lib), AWAIT_CREATE);
    hide AWAIT_CREATE;
  }

  /** After a shown draft any other reply shows it again, as edited and filled in, if it is still valid. */
  lemma {:induction false} ShownAgain(stored: Option<SkillSession>, t: Turn, env: Env, lib: G.Lib)
    requires DraftWf(stored) && stored.Some? && stored.value.phase == AWAIT_CREATE && InMirror(stored.value)
    requires FieldValue(stored.value, AUTO) != "true" && Last(t.edits, AUTO, env) == "" && PlainText(t.text, lib)
    requires var g := Filled(Written(DraftOf(stored.value), t.edits, env), t.lists, lib);
             Full(g.Bound()) && t.valid(g.model.id, g.exchange.id, g.strategy.id)
    ensures var g := Filled(Written(DraftOf(stored.value), t.edits, env), t.lists, lib);
            Handle(stored, t, env, lib).1 == Shown(g.Bound(), g.Printed(), false)
  {
    hide Wf, AWAIT_START, AWAIT_CREATE, COLLECTING, TRADER, FieldValue, DraftOf, MissingOf, Opened, Hydrate,
        NEW_DRAFT, C.IsYes,
        IsNo, IsCancel, InMirror, Written, Filled, Last, Show, Create, AUTO, Draft.Bound, Draft.Printed, Full;
    PhasesApart();
    var s := Opened(stored, t, env);
    OpenedReads(stored, t, env);
    HydrateFills(s, t.lists, env, lib);
    BoundIds(Filled(Written(DraftOf(stored.value), t.edits, env), t.lists, lib));
    FullShows(Hydrate(s, t.lists, env, lib), t);
  }

  lemma {:induction false} BoundIds(g: Draft)
    ensures g.Bound() == Args(g.name, g.model.id, g.exchange.id, g.strategy.id)
  {
  }

  lemma {:induction false} FullShows(h: SkillSession, t: Turn)
    requires Wf(h) && h.name == TRADER && Full(DraftOf(h).Bound()) && FieldValue(h, AUTO) != "true"
    requires t.valid(DraftOf(h).Bound().model, DraftOf(h).Bound().exchange, DraftOf(h).Bound().strategy)
    ensures Show(h, t).1 == Shown(DraftOf(h).Bound(), DraftOf(h).Printed(), false)
  {
    assert MissingOf(h) == [];
    hide FieldValue, Wf, TRADER, MissingOf, Ref.Printed;
  }

  /** A yes creates what the shown draft holds by then, without starting it. */
  lemma {:induction false} YesCreates(stored: Option<SkillSession>, t: Turn, env: Env, lib: G.Lib)
    requires DraftWf(stored) && stored.Some? && stored.value.phase == AWAIT_CREATE && InMirror(stored.value)
    requires C.IsYes(t.text, lib)
    ensures var g := Filled(Written(DraftOf(stored.value), t.edits, env), t.lists, lib);
            Handle(stored, t, env, lib).1 == Created(g.Bound(), false, t.result)
  {
    PhasesApart();
    HandleFollows(stored, t, env, lib);
    hide Hydrate, Opened, FieldValue, Wf, DraftOf, MissingOf, IsNo, IsCancel, C.IsYes, COLLECTING, AWAIT_START, Written,
        AWAIT_CREATE, Show, Phased, NEW_DRAFT, TRADER, Filled, InMirror, Draft.Bound;
  }

  /** A shown draft, an edited reply that confirms nothing, and a bare yes, over the same live objects in which
      every id bound finds itself: the draft as edited is shown, and the trader created with its ids. */
  lemma {:induction false} ShownThenCreated(events: seq<Event>, t: Turn, yes: Turn, env: Env, lib: G.Lib)
    requires JustShown(events, env, lib) && PlainText(t.text, lib) && Last(t.edits, AUTO, env) == ""
    requires yes.edits == [] && C.IsYes(yes.text, lib) && yes.lists == t.lists
    requires var g := Filled(Written(DraftAfter(events, env, lib), t.edits, env), t.lists, lib);
             && t.valid(g.model.id, g.exchange.id, g.strategy.id)
             && forall k: Kind :: IdForId(g.Of(k).id, t.lists.Of(k), lib) == g.Of(k).id
    ensures var n := |events|;
            var run := events + [Reply(t), Reply(yes)];
            var g := Filled(Written(DraftAfter(events, env, lib), t.edits, env), t.lists, lib);
            && OutcomeAt(run, n - 1, env, lib) == OutcomeAt(events, n - 1, env, lib)
            && OutcomeAt(run, n, env, lib) == Shown(g.Bound(), g.Printed(), false)
            && OutcomeAt(run, n + 1, env, lib) == Created(g.Bound(), false, yes.result)
  {
    hide Handle, Wf, AWAIT_START, AWAIT_CREATE, COLLECTING, DraftOf, TRADER, FieldValue, InMirror, AUTO,
        DraftWf, NEW_DRAFT,
        Written, Filled, IdForId, Last, PlainText, C.IsYes, Draft.Bound, Draft.Printed;
    var n := |events|;
    var run := events + [Reply(t), Reply(yes)];
    assert events[..n] == events && run[..n] == events && run[..n - 1] == events[..n - 1];
    assert run[..n + 1] == events + [Reply(t)];
    var g := Filled(Written(DraftAfter(events, env, lib), t.edits, env), t.lists, lib);
    JustShownHolds(events, env, lib);
    StaysFull(events, t, env, lib);
    ShownAgain(After(events, env, lib), t, env, lib);
    var shown := events + [Reply(t)];
    assert shown[..n] == events && shown[n] == Reply(t);
    assert JustShown(shown, env, lib);
    JustShownHolds(shown, env, lib);
    EventFollows(shown, n, env, lib);
    assert shown[..n + 1] == shown;
    YesCreates(After(shown, env, lib), yes, env, lib);
    FilledAgain(g, t.lists, env, lib);
  }

  lemma {:induction false} StaysFull(events: seq<Event>, t: Turn, env: Env, lib: G.Lib)
    requires JustShown(events, env, lib)
    ensures Full(Filled(Written(DraftAfter(events, env, lib), t.edits, env), t.lists, lib).Bound())
  {
    hide OutcomeAt, After, Wf, DraftOf, DraftWf, DraftAfter, Written, Filled, IdForId, Last, IdKey, NameKey,
        NEW_DRAFT, TRADER,
        AWAIT_START, AWAIT_CREATE, AUTO, InMirror, FieldValue;
    var d := DraftAfter(events, env, lib);
    var g := Filled(Written(d, t.edits, env), t.lists, lib);
    JustShownHolds(events, env, lib);
    ShownNamed(events, env, lib);
    NameWritten(d, t.edits, t.lists, env, lib);
    forall k: Kind ensures g.Bound().Of(k) != "" {
      OfEach(d, t.lists, t.edits, k, env, lib);
      IdWritten(d, t.edits, t.lists, k, env, lib);
      IdStays(Newer(Last(t.edits, IdKey(k), env), d.Bound().Of(k)), t.lists.Of(k), lib);
    }
    assert g.Bound().Of(Model) != "" && g.Bound().Of(Exchange) != "" && g.Bound().Of(Strategy) != "";
  }

  lemma {:induction false} ShownNamed(events: seq<Event>, env: Env, lib: G.Lib)
    requires JustShown(events, env, lib)
    ensures DraftAfter(events, env, lib).Bound().name != ""
  {
    hide OutcomeAt, After, Wf, DraftOf, DraftWf, DraftAfter, NEW_DRAFT, TRADER, AWAIT_START, AWAIT_CREATE, AUTO,
        InMirror, FieldValue;
    JustShownHolds(events, env, lib);
    assert events[..|events|] == events;
    ShownFull(events, |events| - 1, env, lib);
    ReplyTells(events, |events|, env, lib);
  }

  /** A filled-in draft whose ids find themselves stays bound as it is. */
  lemma {:induction false} FilledAgain(g: Draft, lists: Lists, env: Env, lib: G.Lib)
    requires forall k: Kind :: IdForId(g.Of(k).id, lists.Of(k), lib) == g.Of(k).id != ""
    ensures Filled(Written(g, [], env), lists, lib).Bound() == g.Bound()
  {
    hide IdForId, FilledRef, NamedRef;
    forall k: Kind ensures WrittenRef(g.Of(k), k, [], env) == g.Of(k)
        && FilledRef(g.Of(k), lists.Of(k), lib).id == g.Of(k).id {
      FilledId(g.Of(k), lists.Of(k), lib);
      assert NamedRef(g.Of(k), lists.Of(k), lib) == g.Of(k) by { NamedFull(g.Of(k), lists.Of(k), lib); }
    }
    assert g.Of(Model) == g.model && g.Of(Exchange) == g.exchange && g.Of(Strategy) == g.strategy;
    assert lists.Of(Model) == lists.models && lists.Of(Exchange) == lists.exchanges
        && lists.Of(Strategy) == lists.strategies;
    hide WrittenRef, IdKey, NameKey;
  }

  lemma {:induction false} NamedFull(r: Ref, options: seq<G.Choice>, lib: G.Lib)
    requires r.id != ""
    ensures NamedRef(r, options, lib) == r
  {
  }

  /** A reply that edits one field of the exchange, over live objects in which every id bound finds itself. */
  predicate OneFieldEdited(events: seq<Event>, key: string, other: string, t: Turn, yes: Turn, env: Env, lib: G.Lib) {
    && JustShown(events, env, lib) && PlainText(t.text, lib) && t.edits == [(key, other)]
       && Trimmed(other) && other != ""
    && yes.edits == [] && C.IsYes(yes.text, lib) && yes.lists == t.lists
  }

  predicate BoundLive(a: Args, t: Turn, lib: G.Lib) {
    t.valid(a.model, a.exchange, a.strategy) && forall k: Kind :: IdForId(a.Of(k), t.lists.Of(k), lib) == a.Of(k)
  }

  /** Such a conversation: the model reads only the name of another exchange from the reply. The summary then
      names that exchange, and a bare yes creates the trader on the one shown before. */
  lemma {:induction false} AnotherNameShown(events: seq<Event>, other: string, t: Turn, yes: Turn, env: Env, lib: G.Lib)
    requires OneFieldEdited(events, "exchange_name", other, t, yes, env, lib)
    requires BoundLive(DraftAfter(events, env, lib).Bound(), t, lib)
    ensures var (n, d) := (|events|, DraftAfter(events, env, lib));
            var g := Filled(Written(d, t.edits, env), t.lists, lib);
            var run := events + [Reply(t), Reply(yes)];
            && g.Printed().exchange == other
            && OutcomeAt(run, n - 1, env, lib) == Shown(d.Bound(), d.Printed(), false)
            && OutcomeAt(run, n, env, lib) == Shown(d.Bound(), g.Printed(), false)
            && OutcomeAt(run, n + 1, env, lib) == Created(d.Bound(), false, yes.result)
  {
    hide OutcomeAt, DraftAfter, IdForId, PlainText, C.IsYes, JustShown, Trim, NormalKey, TRADER, Last,
        SLOT_KEYS, After, Filled,
        Written;
    JustShownHolds(events, env, lib);
    var d := DraftAfter(events, env, lib);
    OneEdit(d, "exchange_name", other, env);
    NameOnly(d, other, t, env, lib);
    ShownThenCreated(events, t, yes, env, lib);
  }

  lemma {:induction false} NameOnly(d: Draft, other: string, t: Turn, env: Env, lib: G.Lib)
    requires BoundLive(d.Bound(), t, lib) && other != "" && forall k: Kind :: d.Of(k).id != ""
    ensures var g := Filled(d.(exchange := d.exchange.(title := other)), t.lists, lib);
            && g.Bound() == d.Bound() && g.Printed().exchange == other
            && t.valid(g.model.id, g.exchange.id, g.strategy.id)
            && forall k: Kind :: IdForId(g.Of(k).id, t.lists.Of(k), lib) == g.Of(k).id
  {
    IdsOnly(d.(exchange := d.exchange.(title := other)), d, t, lib);
    FilledId(Ref(d.exchange.id, other), t.lists.exchanges, lib);
    hide FilledRef, IdForId;
  }

  /** Filling in a draft whose ids find themselves leaves the ids alone, whatever its names. */
  lemma {:induction false} IdsOnly(e: Draft, d: Draft, t: Turn, lib: G.Lib)
    requires BoundLive(d.Bound(), t, lib) && d.Bound() == e.Bound() && forall k: Kind :: d.Of(k).id != ""
    ensures var g := Filled(e, t.lists, lib);
            && g.Bound() == d.Bound() && t.valid(g.model.id, g.exchange.id, g.strategy.id)
            && forall k: Kind :: IdForId(g.Of(k).id, t.lists.Of(k), lib) == g.Of(k).id
  {
    hide FilledRef, IdForId, NamedRef;
    forall k: Kind ensures FilledRef(e.Of(k), t.lists.Of(k), lib).id == d.Of(k).id == d.Bound().Of(k) {
      assert e.Of(k).id == e.Bound().Of(k) == d.Bound().Of(k) == d.Of(k).id;
      NamedFull(e.Of(k), t.lists.Of(k), lib);
      FilledId(e.Of(k), t.lists.Of(k), lib);
    }
    assert e.Of(Model) == e.model && e.Of(Exchange) == e.exchange && e.Of(Strategy) == e.strategy;
    assert t.lists.Of(Model) == t.lists.models && t.lists.Of(Exchange) == t.lists.exchanges
           && t.lists.Of(Strategy) == t.lists.strategies;
  }

  /** The other way round: the model reads only the id of another exchange. The summary keeps the name of the
      one shown before, and a bare yes creates the trader on the other. */
  lemma {:induction false} OldNameShown(events: seq<Event>, other: string, t: Turn, yes: Turn, env: Env, lib: G.Lib)
    requires OneFieldEdited(events, "exchange_id", other, t, yes, env, lib)
    requires DraftAfter(events, env, lib).exchange.title != ""
    requires BoundLive(DraftAfter(events, env, lib).Bound().(exchange := other), t, lib)
    ensures var (n, d) := (|events|, DraftAfter(events, env, lib));
            var g := Filled(Written(d, t.edits, env), t.lists, lib);
            var run := events + [Reply(t), Reply(yes)];
            && g.Printed().exchange == d.Printed().exchange
            && OutcomeAt(run, n - 1, env, lib) == Shown(d.Bound(), d.Printed(), false)
            && OutcomeAt(run, n, env, lib) == Shown(d.Bound().(exchange := other), g.Printed(), false)
            && OutcomeAt(run, n + 1, env, lib) == Created(d.Bound().(exchange := other), false, yes.result)
  {
    hide OutcomeAt, DraftAfter, IdForId, PlainText, C.IsYes, JustShown, Trim, NormalKey, TRADER, Last,
        SLOT_KEYS, After, Filled,
        Written;
    JustShownHolds(events, env, lib);
    var d := DraftAfter(events, env, lib);
    OneEdit(d, "exchange_id", other, env);
    IdOnly(d, other, t, env, lib);
    ShownThenCreated(events, t, yes, env, lib);
  }

  lemma {:induction false} IdOnly(d: Draft, other: string, t: Turn, env: Env, lib: G.Lib)
    requires BoundLive(d.Bound().(exchange := other), t, lib) && other != "" && d.exchange.title != ""
    requires forall k: Kind :: d.Of(k).id != ""
    ensures var g := Filled(d.(exchange := d.exchange.(id := other)), t.lists, lib);
            && g.Bound() == d.Bound().(exchange := other) && g.Printed().exchange == d.Printed().exchange
            && t.valid(g.model.id, g.exchange.id, g.strategy.id)
            && forall k: Kind :: IdForId(g.Of(k).id, t.lists.Of(k), lib) == g.Of(k).id
  {
    var e := d.(exchange := d.exchange.(id := other));
    forall k: Kind ensures e.Of(k).id != "" {
      assert d.Of(k).id != "";
    }
    IdsOnly(e, e, t, lib);
    FilledId(e.exchange, t.lists.exchanges, lib);
    hide FilledRef, IdForId;
  }

  lemma {:induction false} OneEdit(d: Draft, key: string, other: string, env: Env)
    requires (key == "exchange_name" || key == "exchange_id") && Trimmed(other) && other != ""
    ensures Written(d, [(key, other)], env)
            == if key == "exchange_name" then d.(exchange := d.exchange.(title := other))
                else d.(exchange := d.exchange.(id := other))
    ensures Last([(key, other)], AUTO, env) == ""
  {
    KindKeys(Exchange);
    KindKeys(Model);
    KindKeys(Strategy);
    assert TextFor(key, other, env) == other by {
      assert Trim(other) == other;
      hide NormalKey, SLOT_KEYS, Last;
    }
    hide Last, TextFor, NormalKey, TRADER, SLOT_KEYS, AUTO, Trim, Trimmed;
    forall j: string ensures Last([(key, other)], j, env) == if NormalKey(TRADER, key) == j then other else "" {
      LastOfOne(key, other, j, env);
    }
  }

  /** A confirmation that also changes the exchange creates a trader that was never shown. */
  lemma {:induction false} EditedReplyCreatesUnseen(events: seq<Event>, other: string, yes: Turn, env: Env, lib: G.Lib)
    requires JustShown(events, env, lib) && yes.edits == [("exchange_id", other)] && C.IsYes(yes.text, lib)
    requires Trimmed(other) && other != "" && G.Find(yes.lists.exchanges, other, lib) == None
    ensures var o := OutcomeAt(events + [Reply(yes)], |events|, env, lib);
            o.Created? && !o.start && o.args.exchange == other
  {
    hide OutcomeAt, DraftAfter, C.IsYes, JustShown, Trim, Last, After, Written, Handle, Wf, InMirror,
        FieldValue, DraftOf,
        AWAIT_CREATE, TRADER, AUTO;
    JustShownHolds(events, env, lib);
    var d := DraftAfter(events, env, lib);
    OneEdit(d, "exchange_id", other, env);
    YesCreates(After(events, env, lib), yes, env, lib);
    ReplyIs(events, yes, env, lib);
    DeadStays(d.(exchange := d.exchange.(id := other)), yes.lists, lib);
  }

  lemma {:induction false} ReplyIs(events: seq<Event>, t: Turn, env: Env, lib: G.Lib)
    ensures OutcomeAt(events + [Reply(t)], |events|, env, lib) == Handle(After(events, env, lib), t, env, lib).1
  {
    assert (events + [Reply(t)])[..|events|] == events;
    hide Handle, After, DraftWf;
  }

  lemma {:induction false} DeadStays(d: Draft, lists: Lists, lib: G.Lib)
    requires d.exchange.id != "" && G.Find(lists.exchanges, d.exchange.id, lib) == None
    ensures Filled(d, lists, lib).Bound().exchange == d.exchange.id
  {
    hide G.Find;
  }

  /** A reply of the model's own that keeps an exchange read from the message leaves the confirmation open: a
      yes, though nothing is read into it, creates a trader with that exchange, which was not shown and is not
      even among the live ones. */
  lemma {:induction false} OwnQuestionCreatesUnseen(events: seq<Event>, other: string, yes: Turn, env: Env, lib: G.Lib)
    requires JustShown(events, env, lib) && yes.edits == [] && C.IsYes(yes.text, lib)
    requires Trimmed(other) && other != "" && G.Find(yes.lists.exchanges, other, lib) == None
    ensures var n := |events|;
            var run := events + [OwnQuestion([("exchange_id", other)]), Reply(yes)];
            var o := OutcomeAt(run, n + 1, env, lib);
            && OutcomeAt(run, n - 1, env, lib) == OutcomeAt(events, n - 1, env, lib)
            && OutcomeAt(run, n, env, lib) == AskedFreely
            && o.Created? && !o.start && o.args.exchange == other
  {
    hide DraftAfter, C.IsYes, Trim, Last, Written, Handle, Wf, InMirror, FieldValue, DraftOf, Edited,
        AWAIT_CREATE, TRADER, AUTO,
        Filled;
    var (n, edits) := (|events|, [("exchange_id", other)]);
    var run := events + [OwnQuestion(edits), Reply(yes)];
    assert run[..n] == events && run[..n - 1] == events[..n - 1] && run[..n + 1][..n] == events
        && run[..n + 1][n] == run[n];
    JustShownHolds(events, env, lib);
    hide JustShown;
    var draft := After(events, env, lib).value;
    EditsWrite(draft, edits, env);
    EditsMirror(draft, edits, env);
    OneEdit(DraftOf(draft), "exchange_id", other, env);
    YesCreates(Some(Edited(draft, edits, env)), yes, env, lib);
    NothingMore(DraftOf(Edited(draft, edits, env)), env);
    DeadStays(DraftOf(Edited(draft, edits, env)), yes.lists, lib);
  }

  lemma {:induction false} NothingMore(d: Draft, env: Env)
    ensures Written(d, [], env) == d
  {
  }

  /** A first message whose edits name a whole valid draft shows it, with whatever stands for each reference. */
  lemma {:induction false} FirstMessageShows(t: Turn, env: Env, lib: G.Lib)
    requires Last(t.edits, AUTO, env) == ""
    requires var g := Filled(Written(NOTHING, t.edits, env), t.lists, lib);
             Full(g.Bound()) && t.valid(g.model.id, g.exchange.id, g.strategy.id)
    ensures var g := Filled(Written(NOTHING, t.edits, env), t.lists, lib);
            OutcomeAt([Reply(t)], 0, env, lib) == Shown(g.Bound(), g.Printed(), false)
  {
    hide Wf, TRADER, NEW_DRAFT, FieldValue, Edited, Hydrate, InMirror, AUTO, Opened, Written, Filled,
        DraftOf, Show, Last, Full;
    NewReads();
    OpenedReads(None, t, env);
    HydrateFills(Opened(None, t, env), t.lists, env, lib);
    FirstTurn(t, env, lib);
    BoundIds(Filled(Written(NOTHING, t.edits, env), t.lists, lib));
    FullShows(Hydrate(Opened(None, t, env), t.lists, env, lib), t);
  }

  const NOTHING := Draft("", Ref("", ""), Ref("", ""), Ref("", ""))

  lemma {:induction false} NewReads()
    ensures DraftOf(Begin(None)) == NOTHING && FieldValue(Begin(None), AUTO) == ""
  {
    assert Trim("") == "";
    hide NormalKey;
  }

  lemma {:induction false} FirstTurn(t: Turn, env: Env, lib: G.Lib)
    ensures OutcomeAt([Reply(t)], 0, env, lib) == Show(Hydrate(Opened(None, t, env), t.lists, env, lib), t).1
  {
    PhasesApart();
    assert [Reply(t)][..0] == [];
    hide Wf, Opened, Hydrate, Show, Create, C.IsYes, IsNo, IsCancel, COLLECTING, AWAIT_START, AWAIT_CREATE, TRADER,
        NEW_DRAFT, NO_WORDS, CANCEL_WORDS;
  }
}
