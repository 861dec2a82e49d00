/** agent/skill_dispatcher.go: creating a trader over several turns: collect, show the draft, create on
    the reply. */
module TraderCreation {
  import opened Options
  import opened SkillSessions
  import opened Text
  import C = ConfirmationGate
  import G = Targets

  const COLLECTING := "collecting"
  const AWAIT_CREATE := "await_create_confirmation"
  const AWAIT_START := "await_start_confirmation"

  const NEW_DRAFT := SkillSession(TRADER, "create", COLLECTING, None, map[], None, None)

  const NO_WORDS: set<string> :=
    {"\U{4E0D}", "\U{4E0D}\U{7528}", "\U{5148}\U{4E0D}\U{7528}", "\U{53D6}\U{6D88}", "\U{4E0D}\U{8981}", "no",
     "n", "cancel", "stop"}

  const CANCEL_WORDS: set<string> :=
    {"\U{53D6}\U{6D88}", "/cancel", "cancel", "\U{4E0D}\U{6539}", "\U{5148}\U{4E0D}\U{6539}", "\U{7B97}\U{4E86}",
     "\U{5148}\U{4E0D}\U{7528}",
     "\U{4E0D}\U{7528}\U{4E86}", "\U{4E0D}\U{5F04}\U{4E86}", "\U{4E0D}\U{641E}\U{4E86}", "\U{6362}\U{8BDD}\U{9898}",
     "\U{6362}\U{8BDD}\U{9898}\U{4E86}",
     "\U{804A}\U{522B}\U{7684}", "\U{5148}\U{804A}\U{522B}\U{7684}"}

  /** isNoReply and isCancelSkillReply; a yes is ConfirmationGate's. */
  predicate IsNo(text: string, lib: G.Lib) {
    lib.lower(Trim(text)) in NO_WORDS
  }

  predicate IsCancel(text: string, lib: G.Lib) {
    lib.lower(Trim(text)) in CANCEL_WORDS
  }

  /** The three references of a draft, each an id field and a name field. */
  datatype Kind = Exchange | Model | Strategy

  function IdKey(k: Kind): string {
    match k
    case Exchange => "exchange_id"
    case Model => "model_id"
    case Strategy => "strategy_id"
  }

  function NameKey(k: Kind): string {
    match k
    case Exchange => "exchange_name"
    case Model => "model_name"
    case Strategy => "strategy_name"
  }

  /** The live objects a draft may refer to. */
  datatype Lists = Lists(exchanges: seq<G.Choice>, models: seq<G.Choice>, strategies: seq<G.Choice>) {
    function Of(k: Kind): seq<G.Choice> {
      match k
      case Exchange => exchanges
      case Model => models
      case Strategy => strategies
    }
  }

  /** What the trader is created with: its name and the ids of its references. */
  datatype Args = Args(name: string, model: string, exchange: string, strategy: string) {
    function Of(k: Kind): string {
      match k
      case Exchange => exchange
      case Model => model
      case Strategy => strategy
    }
  }

  /** What the owner reads in place of each id. */
  datatype Labels = Labels(model: string, exchange: string, strategy: string) {
    function Of(k: Kind): string {
      match k
      case Exchange => exchange
      case Model => model
      case Strategy => strategy
    }
  }

  datatype Ref = Ref(id: string, title: string) {
    /** traderCreateExchangeNameOrID and its siblings */
    function Printed(): string {
      if title != "" then title else id
    }
  }

  /** What the fields of a draft read as. */
  datatype Draft = Draft(name: string, model: Ref, exchange: Ref, strategy: Ref) {
    function Of(k: Kind): Ref {
      match k
      case Exchange => exchange
      case Model => model
      case Strategy => strategy
    }

    function Bound(): Args {
      Args(name, model.id, exchange.id, strategy.id)
    }

    function Printed(): Labels {
      Labels(model.Printed(), exchange.Printed(), strategy.Printed())
    }
  }

  datatype Result = Made | Kept | Dropped

  /** One message: the fields the model read from it, the lists, whether the bindings are valid, and what
      creating leads to: a trader, or an error that keeps or drops the draft. */
  datatype Turn = Turn(text: string, edits: seq<(string, string)>, lists: Lists,
      valid: (string, string, string) -> bool, result: Result)

  /** The handler runs on a message, or the model answers the message itself, with a question say, and keeps
      what it read from it. */
  datatype Event = Reply(turn: Turn) | OwnQuestion(edits: seq<(string, string)>)

  datatype Outcome =
    | AskedFreely
    | Missing(fields: seq<string>)
    | Invalid
    | Shown(args: Args, labels: Labels, start: bool)
    | Declined
    | Created(args: Args, start: bool, result: Result)

  // ---- Filling in references ----

  function Stored(current: string, value: string): string {
    if Trim(value) == "" then current else Trim(value)
  }

  /** The id a name stands for, if it stands for one. */
  function IdForName(name: string, options: seq<G.Choice>, lib: G.Lib): string {
    var found := G.OrElse(G.Find(options, name, lib), G.FindContaining(options, name, lib));
    if name == "" || found == None then "" else Trim(found.value.id)
  }

  /** The id of the option an id finds; an id that finds none stays. */
  function IdForId(id: string, options: seq<G.Choice>, lib: G.Lib): string {
    var found := G.Find(options, id, lib);
    if id == "" || found == None then id else Stored(id, found.value.id)
  }

  /** setField, which leaves the skill and the phase alone. */
  function Put(s: SkillSession, key: string, value: string, env: Env): (r: SkillSession)
    requires Wf(s)
    ensures Wf(r) && r.name == s.name && r.phase == s.phase
  {
    SetKeepsRest(s, key, value, env);
    SetField(s, key, value, env)
  }

  lemma {:induction false} SetKeepsRest(s: SkillSession, key: string, value: string, env: Env)
    requires Wf(s)
    ensures SetField(s, key, value, env).name == s.name && SetField(s, key, value, env).phase == s.phase
  {
    hide SLOT_KEYS, Trim, SlotForm, Mirrored;
  }

  function Phased(s: SkillSession, phase: string): (r: SkillSession)
    requires Wf(s)
    ensures Wf(r) && r == s.(phase := phase) && DraftOf(r) == DraftOf(s) && MissingOf(r) == MissingOf(s)
  {
    PhaseKeepsWf(s, phase);
    s.(phase := phase)
  }

  lemma {:induction false} PhaseKeepsWf(s: SkillSession, phase: string)
    requires Wf(s)
    ensures Wf(s.(phase := phase)) && forall key :: FieldValue(s.(phase := phase), key) == FieldValue(s, key)
  {
    hide SLOT_KEYS, Trim, SlotForm;
  }

  /** A missing id is looked up by the name. */
  function LookUpName(s: SkillSession, k: Kind, options: seq<G.Choice>, env: Env, lib: G.Lib): (r: SkillSession)
    requires Wf(s)
    ensures Wf(r) && r.name == s.name && r.phase == s.phase
  {
    if FieldValue(s, IdKey(k)) != "" then s
    else Put(s, IdKey(k), IdForName(FieldValue(s, NameKey(k)), options, lib), env)
  }

  /** A live id becomes that of the option it finds, which gives a missing name. */
  function LookUpId(s: SkillSession, k: Kind, options: seq<G.Choice>, env: Env, lib: G.Lib): (r: SkillSession)
    requires Wf(s)
    ensures Wf(r) && r.name == s.name && r.phase == s.phase
  {
    var found := G.Find(options, FieldValue(s, IdKey(k)), lib);
    if FieldValue(s, IdKey(k)) == "" || found == None then s
    else
      var s1 := Put(s, IdKey(k), found.value.id, env);
      if FieldValue(s1, NameKey(k)) == "" then Put(s1, NameKey(k), found.value.name, env) else s1
  }

  /** One reference of hydrateCreateTraderSlotReferences. */
  function HydrateOne(s: SkillSession, k: Kind, options: seq<G.Choice>, env: Env, lib: G.Lib): (r: SkillSession)
    requires Wf(s)
    ensures Wf(r) && r.name == s.name && r.phase == s.phase
  {
    LookUpId(LookUpName(s, k, options, env, lib), k, options, env, lib)
  }

  function Hydrate(s: SkillSession, lists: Lists, env: Env, lib: G.Lib): (r: SkillSession)
    requires Wf(s)
    ensures Wf(r) && r.name == s.name && r.phase == s.phase
  {
    var s1 := HydrateOne(s, Exchange, lists.exchanges, env, lib);
    var s2 := HydrateOne(s1, Model, lists.models, env, lib);
    HydrateOne(s2, Strategy, lists.strategies, env, lib)
  }

  function RefOf(s: SkillSession, k: Kind): Ref
    requires Wf(s)
  {
    Ref(FieldValue(s, IdKey(k)), FieldValue(s, NameKey(k)))
  }

  function DraftOf(s: SkillSession): Draft
    requires Wf(s)
  {
    Draft(FieldValue(s, "name"), RefOf(s, Model), RefOf(s, Exchange), RefOf(s, Strategy))
  }

  /** missingFieldKeysForSkillSession for creating a trader, in sorted order. */
  function MissingOf(s: SkillSession): seq<string>
    requires Wf(s)
  {
    (if FieldValue(s, "exchange_id") == "" then ["exchange_name"] else [])
    + (if FieldValue(s, "model_id") == "" then ["model_name"] else [])
    + (if FieldValue(s, "name") == "" then ["name"] else [])
    + (if FieldValue(s, "strategy_id") == "" then ["strategy_name"] else [])
  }

  function Edited(s: SkillSession, edits: seq<(string, string)>, env: Env): (r: SkillSession)
    requires Wf(s)
    ensures Wf(r) && r.name == s.name && r.phase == s.phase
    decreases |edits|
  {
    if edits == [] then s else Edited(Put(s, edits[0].0, edits[0].1, env), edits[1..], env)
  }

  // ---- One turn ----

  predicate DraftWf(stored: Option<SkillSession>) {
    stored.Some? ==> Wf(stored.value) && stored.value.name == TRADER
  }

  /** executeCreateTraderSkill */
  function Create(s: SkillSession, start: bool, t: Turn, env: Env, lib: G.Lib): (r: (Option<SkillSession>, Outcome))
    requires Wf(s) && s.name == TRADER
    ensures DraftWf(r.0) && (r.0.Some? ==> r.0.value.phase == COLLECTING)
  {
    var h := Hydrate(s, t.lists, env, lib);
    (if t.result == Kept then Some(Phased(h, COLLECTING)) else None, Created(DraftOf(h).Bound(), start, t.result))
  }

  /** The part of the turn that checks a filled-in draft and shows it. */
  function Show(h: SkillSession, t: Turn): (r: (Option<SkillSession>, Outcome))
    requires Wf(h) && h.name == TRADER
    ensures DraftWf(r.0) && r.0.Some? && DraftOf(r.0.value) == DraftOf(h)
  {
    var (a, labels) := (DraftOf(h).Bound(), DraftOf(h).Printed());
    if a.exchange != "" && a.model != "" && a.strategy != "" && !t.valid(a.model, a.exchange, a.strategy) then
      (Some(Phased(h, COLLECTING)), Invalid)
    else if MissingOf(h) != [] then (Some(Phased(h, COLLECTING)), Missing(MissingOf(h)))
    else if FieldValue(h, "auto_start") == "true" then (Some(Phased(h, AWAIT_START)), Shown(a, labels, true))
    else (Some(Phased(h, AWAIT_CREATE)), Shown(a, labels, false))
  }

  function Begin(stored: Option<SkillSession>): (s: SkillSession)
    requires DraftWf(stored)
    ensures Wf(s) && s.name == TRADER && s.phase == if stored == None then COLLECTING else stored.value.phase
  {
    if stored == None then NEW_DRAFT else stored.value
  }

  /** The session as the handler takes it up, with what the model read from the message. */
  function Opened(stored: Option<SkillSession>, t: Turn, env: Env): (s: SkillSession)
    requires DraftWf(stored)
    ensures Wf(s) && s.name == TRADER && s.phase == if stored == None then COLLECTING else stored.value.phase
  {
    var e := Edited(Begin(stored), t.edits, env);
    SyncKeepsRest(e);
    Sync(e)
  }

  lemma {:induction false} SyncKeepsRest(s: SkillSession)
    requires Wf(s)
    ensures Sync(s).name == s.name && Sync(s).phase == s.phase
  {
    hide SLOT_KEYS, Trim, SlotForm, Mirrored;
  }

  /** handleCreateTraderSkill */
  function Handle(stored: Option<SkillSession>, t: Turn, env: Env, lib: G.Lib): (r: (Option<SkillSession>, Outcome))
    requires DraftWf(stored)
    ensures DraftWf(r.0)
  {
    var s := Opened(stored, t, env);
    if s.phase == AWAIT_START && C.IsYes(t.text, lib) then Create(s, true, t, env, lib)
    else if s.phase == AWAIT_START && IsNo(t.text, lib) then Create(s, false, t, env, lib)
    else if s.phase == AWAIT_CREATE && C.IsYes(t.text, lib) then Create(s, false, t, env, lib)
    else if s.phase == AWAIT_CREATE && (IsNo(t.text, lib) || IsCancel(t.text, lib)) then
        (Some(Phased(s, COLLECTING)), Declined)
    else Show(Hydrate(s, t.lists, env, lib), t)
  }

  function Next(stored: Option<SkillSession>, e: Event, env: Env, lib: G.Lib): (r: (Option<SkillSession>, Outcome))
    requires DraftWf(stored)
    ensures DraftWf(r.0)
  {
    match e
    case Reply(t) => Handle(stored, t, env, lib)
    case OwnQuestion(edits) => (Some(Edited(Begin(stored), edits, env)), AskedFreely)
  }

  class CreationFlow {
    var stored: Option<SkillSession>

    constructor ()
      ensures stored == None
    {
      stored := None;
    }

    method HandleCreateTrader(t: Turn, env: Env, lib: G.Lib) returns (o: Outcome)
      requires DraftWf(stored)
      modifies this
      ensures DraftWf(stored) && (stored, o) == Handle(old(stored), t, env, lib)
    {
      hide Hydrate, Opened, FieldValue, Wf, NO_WORDS, CANCEL_WORDS, C.IsYes, Create, Show, Phased;
      PhasesApart();
      var session := Opened(stored, t, env);
      if session.phase == AWAIT_START {
        if C.IsYes(t.text, lib) {
          o := ExecuteCreate(session, true, t, env, lib);
          return;
        }
        if IsNo(t.text, lib) {
          o := ExecuteCreate(session, false, t, env, lib);
          return;
        }
      }
      if session.phase == AWAIT_CREATE {
        if C.IsYes(t.text, lib) {
          o := ExecuteCreate(session, false, t, env, lib);
          return;
        }
        if IsNo(t.text, lib) || IsCancel(t.text, lib) {
          stored := Some(Phased(session, COLLECTING));
          return Declined;
        }
      }
      o := ShowDraft(Hydrate(session, t.lists, env, lib), t);
    }

    method ShowDraft(session: SkillSession, t: Turn) returns (o: Outcome)
      requires Wf(session) && session.name == TRADER
      modifies this
      ensures (stored, o) == Show(session, t)
    {
      hide FieldValue, Wf;
      var (a, labels) := (DraftOf(session).Bound(), DraftOf(session).Printed());
      if a.exchange != "" && a.model != "" && a.strategy != "" && !t.valid(a.model, a.exchange, a.strategy) {
        stored := Some(Phased(session, COLLECTING));
        return Invalid;
      }
      var missing := MissingOf(session);
      if |missing| > 0 {
        stored := Some(Phased(session, COLLECTING));
        return Missing(missing);
      }
      if FieldValue(session, "auto_start") == "true" {
        stored := Some(Phased(session, AWAIT_START));
        return Shown(a, labels, true);
      }
      stored := Some(Phased(session, AWAIT_CREATE));
      return Shown(a, labels, false);
    }

    method ExecuteCreate(session: SkillSession, start: bool, t: Turn, env: Env, lib: G.Lib) returns (o: Outcome)
      requires Wf(session) && session.name == TRADER
      modifies this
      ensures (stored, o) == Create(session, start, t, env, lib)
    {
      hide Hydrate, FieldValue, Wf;
      var h := Hydrate(session, t.lists, env, lib);
      stored := if t.result == Kept then Some(Phased(h, COLLECTING)) else None;
      o := Created(DraftOf(h).Bound(), start, t.result);
    }
  }

  lemma {:induction false} PhasesApart()
    ensures COLLECTING != AWAIT_START && COLLECTING != AWAIT_CREATE && AWAIT_START != AWAIT_CREATE
  {
    assert |COLLECTING| == 10 && |AWAIT_START| == 24 && |AWAIT_CREATE| == 25;
  }

  // ---- Whole conversations ----

  function After(events: seq<Event>, env: Env, lib: G.Lib): (stored: Option<SkillSession>)
    ensures DraftWf(stored)
  {
    if events == [] then None else Next(After(events[..|events| - 1], env, lib), events[|events| - 1], env, lib).0
  }

  function OutcomeAt(events: seq<Event>, i: nat, env: Env, lib: G.Lib): Outcome
    requires i < |events|
  {
    Next(After(events[..i], env, lib), events[i], env, lib).1
  }

  /** The number of events up to the last the handler ran on. */
  function Replied(events: seq<Event>): (n: nat)
    ensures n <= |events| && (n > 0 ==> events[n - 1].Reply?)
    ensures forall k :: n <= k < |events| ==> events[k].OwnQuestion?
  {
    if events == [] then 0
    else if events[|events| - 1].Reply? then |events|
    else Replied(events[..|events| - 1])
  }

  function EditsOf(e: Event): seq<(string, string)> {
    if e.Reply? then e.turn.edits else e.edits
  }

  /** What the model read from the events from the nth on. */
  function EditsSince(events: seq<Event>, n: nat): seq<(string, string)>
    requires n <= |events|
  {
    if n == |events| then [] else EditsSince(events[..|events| - 1], n) + EditsOf(events[|events| - 1])
  }

  lemma {:induction false} EditedInTurn(s: SkillSession, a: seq<(string, string)>, b: seq<(string, string)>, env: Env)
    requires Wf(s)
    ensures Edited(s, a + b, env) == Edited(Edited(s, a, env), b, env)
    decreases |a|
  {
    hide Wf, Put;
    if a == [] {
      assert a + b == b;
    } else {
      assert (a + b)[1..] == a[1..] + b;
      EditedInTurn(Put(s, a[0].0, a[0].1, env), a[1..], b, env);
    }
  }

  /** Questions of the model's own only write into the draft; they leave its phase alone. */
  lemma {:induction false} SinceReply(events: seq<Event>, env: Env, lib: G.Lib)
    ensures var n := Replied(events);
            var draft := Edited(Begin(After(events[..n], env, lib)), EditsSince(events, n), env);
            if n == |events| then After(events, env, lib) == After(events[..n], env, lib)
                else After(events, env, lib) == Some(draft)
  {
    hide Handle, Wf, Edited, DraftWf, NEW_DRAFT;
    var n := Replied(events);
    if n == |events| {
      assert events[..n] == events;
    } else {
      var init := events[..|events| - 1];
      SinceReply(init, env, lib);
      assert Replied(init) == n && init[..n] == events[..n];
      var draft := Begin(After(events[..n], env, lib));
      EditedInTurn(draft, EditsSince(init, n), EditsOf(events[|events| - 1]), env);
      NoEdits(draft, env);
      assert EditsSince(events, n) == EditsSince(init, n) + EditsOf(events[|events| - 1]);
      assert Begin(After(init, env, lib)) == Edited(draft, EditsSince(init, n), env);
    }
  }

  lemma {:induction false} NoEdits(s: SkillSession, env: Env)
    requires Wf(s)
    ensures Edited(s, [], env) == s
  {
    hide Wf;
  }

  /** What a turn leaves behind and what it may have been: a draft is shown only complete and valid, and
      only then is a reply awaited. */
  lemma {:induction false} TurnTells(stored: Option<SkillSession>, t: Turn, env: Env, lib: G.Lib)
    requires DraftWf(stored)
    ensures var (next, o) := Handle(stored, t, env, lib);
            && (next.Some? && next.value.phase == AWAIT_START <==> o.Shown? && o.start)
            && (next.Some? && next.value.phase == AWAIT_CREATE <==> o.Shown? && !o.start)
            && (o.Shown? ==>
               next.Some? && o.args == DraftOf(next.value).Bound()
                   && o.labels == DraftOf(next.value).Printed() && Full(o.args)
               && t.valid(o.args.model, o.args.exchange, o.args.strategy))
            && (o.Created? ==>
                  && o.result == t.result && (next.Some? <==> t.result == Kept)
                  && stored.Some?
                  && if o.start then stored.value.phase == AWAIT_START && C.IsYes(t.text, lib)
                     else
                       || (stored.value.phase == AWAIT_START && IsNo(t.text, lib) && !C.IsYes(t.text, lib))
                       || (stored.value.phase == AWAIT_CREATE && C.IsYes(t.text, lib)))
  {
    hide Hydrate, Opened, FieldValue, Wf, DraftOf, MissingOf, IsNo, IsCancel, Full, C.IsYes, COLLECTING, AWAIT_START,
        AWAIT_CREATE, Show, Phased, NEW_DRAFT, TRADER;
    PhasesApart();
    var s := Opened(stored, t, env);
    ShowTells(Hydrate(s, t.lists, env, lib), t);
  }

  predicate Full(a: Args) {
    a.name != "" && a.model != "" && a.exchange != "" && a.strategy != ""
  }

  lemma {:induction false} ShowTells(h: SkillSession, t: Turn)
    requires Wf(h) && h.name == TRADER
    ensures var (next, o) := Show(h, t);
            && next.Some? && !o.Created? && !o.Declined?
            && (next.value.phase == AWAIT_START <==> o.Shown? && o.start)
            && (next.value.phase == AWAIT_CREATE <==> o.Shown? && !o.start)
            && (o.Shown? ==>
               o.args == DraftOf(next.value).Bound() && o.labels == DraftOf(next.value).Printed() && Full(o.args)
               && t.valid(o.args.model, o.args.exchange, o.args.strategy))
  {
    PhasesApart();
    hide FieldValue, Wf, COLLECTING, AWAIT_START, AWAIT_CREATE, TRADER;
  }

  /** What a reply to a shown draft does: a yes creates, a no or a cancellation puts it off, and when the trader
      was to be started a no creates it without starting; any other reply is taken as more of the draft. */
  lemma {:induction false} ReplyToDraft(stored: Option<SkillSession>, t: Turn, env: Env, lib: G.Lib)
    requires DraftWf(stored) && stored.Some?
             && (stored.value.phase == AWAIT_CREATE || stored.value.phase == AWAIT_START)
    ensures var (next, o) := Handle(stored, t, env, lib);
            var (yes, no) := (C.IsYes(t.text, lib), IsNo(t.text, lib));
            && (stored.value.phase == AWAIT_CREATE ==>
                  && (o.Created? <==> yes) && (o.Created? ==> !o.start)
                  && (o.Declined? <==> !yes && (no || IsCancel(t.text, lib))))
            && (stored.value.phase == AWAIT_START ==>
                  && (o.Created? && o.start <==> yes) && (o.Created? && !o.start <==> !yes && no) && !o.Declined?)
            && (o.Declined? ==>
               next.Some? && next.value.phase == COLLECTING && DraftOf(next.value) == DraftOf(Opened(stored, t, env)))
  {
    hide Hydrate, Opened, FieldValue, Wf, DraftOf, MissingOf, IsNo, IsCancel, Full, C.IsYes, COLLECTING, AWAIT_START,
        AWAIT_CREATE, Show, Phased, NEW_DRAFT, TRADER;
    PhasesApart();
    var s := Opened(stored, t, env);
    ShowTells(Hydrate(s, t.lists, env, lib), t);
  }

  /** In every conversation a trader is created only in answer to a complete, valid draft: the last time the
      handler ran it showed one, and after that came at most questions of the model's own. It is started only
      on a yes to a draft that said so; to such a draft a no creates the trader as well, without starting it. */
  lemma {:induction false} CreatedOnlyAsShown(events: seq<Event>, i: nat, env: Env, lib: G.Lib)
    requires i < |events| && OutcomeAt(events, i, env, lib).Created?
    ensures var n := Replied(events[..i]);
            && events[i].Reply? && n > 0 && events[n - 1].Reply? && OutcomeAt(events, n - 1, env, lib).Shown?
            && var shown, o := OutcomeAt(events, n - 1, env, lib), OutcomeAt(events, i, env, lib);
            var (was, now) := (events[n - 1].turn, events[i].turn);
            && Full(shown.args) && was.valid(shown.args.model, shown.args.exchange, shown.args.strategy)
            && (o.start <==> shown.start && C.IsYes(now.text, lib))
            && (C.IsYes(now.text, lib) || (shown.start && IsNo(now.text, lib)))
  {
    hide Handle, Wf, IsNo, C.IsYes, AWAIT_START, AWAIT_CREATE, COLLECTING, DraftOf, Full, TRADER, Edited, NEW_DRAFT;
    PhasesApart();
    var stored := After(events[..i], env, lib);
    TurnTells(stored, events[i].turn, env, lib);
    SinceReply(events[..i], env, lib);
    var n := Replied(events[..i]);
    assert events[..i][..n] == events[..n];
    if n > 0 {
      ReplyTells(events, n, env, lib);
    }
  }

  /** What the handler left behind when it last ran. */
  lemma {:induction false} ReplyTells(events: seq<Event>, n: nat, env: Env, lib: G.Lib)
    requires 0 < n <= |events| && events[n - 1].Reply?
    ensures var next, o, t := After(events[..n], env, lib), OutcomeAt(events, n - 1, env, lib), events[n - 1].turn;
            && (next.Some? && next.value.phase == AWAIT_START <==> o.Shown? && o.start)
            && (next.Some? && next.value.phase == AWAIT_CREATE <==> o.Shown? && !o.start)
            && (o.Shown? ==>
               next.Some? && o.args == DraftOf(next.value).Bound()
                   && o.labels == DraftOf(next.value).Printed() && Full(o.args)
               && t.valid(o.args.model, o.args.exchange, o.args.strategy))
  {
    hide Handle, Wf, AWAIT_START, AWAIT_CREATE, DraftOf, Full, TRADER;
    assert events[..n][..n - 1] == events[..n - 1] && events[..n][n - 1] == events[n - 1];
    TurnTells(After(events[..n - 1], env, lib), events[n - 1].turn, env, lib);
  }
}
