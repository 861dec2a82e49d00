/** agent/skill_dispatcher.go and agent/skill_management_handlers.go: finding the object a turn is about
    among the live ones. */
module Targets {
  import opened ExecutionStates
  import opened Options
  import opened Sequences
  import opened Text

  /** traderSkillOption */
  datatype Choice = Choice(id: string, name: string, hint: string)

  /** strings.ToLower and strings.EqualFold. */
  datatype Lib = Lib(lower: string -> string, fold: (string, string) -> bool)

  predicate Matches(o: Choice, query: string, lib: Lib) {
    o.id == query || lib.fold(o.name, query) || lib.fold(o.hint, query)
  }

  function FirstMatch(options: seq<Choice>, query: string, lib: Lib): Option<Choice> {
    if options == [] then None
    else if Matches(options[0], query, lib) then Some(options[0])
    else FirstMatch(options[1..], query, lib)
  }

  function Find(options: seq<Choice>, query: string, lib: Lib): Option<Choice> {
    if Trim(query) == "" then None else FirstMatch(options, Trim(query), lib)
  }

  /** findOptionByIDOrName */
  method FindOption(options: seq<Choice>, query: string, lib: Lib) returns (r: Option<Choice>)
    ensures r == Find(options, query, lib)
  {
    hide Trim, Matches;
    var q := Trim(query);
    if q == "" {
      return None;
    }
    assert options[0..] == options;
    for i := 0 to |options|
      invariant FirstMatch(options, q, lib) == FirstMatch(options[i..], q, lib)
    {
      DropStep(options, i);
      if Matches(options[i], q, lib) {
        return Some(options[i]);
      }
    }
    return None;
  }

  /** The option found is the first that matches. */
  lemma {:induction false} FirstMatchIsFirst(options: seq<Choice>, query: string, lib: Lib)
    ensures var r := FirstMatch(options, query, lib);
            && (r == None <==> forall o :: o in options ==> !Matches(o, query, lib))
            && (r.Some? ==> exists i :: 0 <= i < |options| && options[i] == r.value && Matches(r.value, query, lib)
                                        && forall j :: 0 <= j < i ==> !Matches(options[j], query, lib))
  {
    hide Matches;
    if options != [] && !Matches(options[0], query, lib) {
      FirstMatchIsFirst(options[1..], query, lib);
      var r := FirstMatch(options, query, lib);
      assert options == [options[0]] + options[1..];
      if r.Some? {
        var i :| 0 <= i < |options[1..]| && options[1..][i] == r.value && Matches(r.value, query, lib)
                 && forall j :: 0 <= j < i ==> !Matches(options[1..][j], query, lib);
        forall j | 0 <= j < i + 1 ensures !Matches(options[j], query, lib) {
          assert j == 0 || options[j] == options[1..][j - 1];
        }
        assert options[i + 1] == r.value;
      }
    }
  }

  predicate Near(text: string, query: string) {
    text != "" && (Contains(text, query) || Contains(query, text))
  }

  predicate Touches(o: Choice, query: string, lib: Lib) {
    Near(lib.lower(Trim(o.name)), query) || Near(lib.lower(Trim(o.hint)), query) || Near(lib.lower(Trim(o.id)), query)
  }

  function Touching(options: seq<Choice>, query: string, lib: Lib): seq<Choice> {
    if options == [] then []
    else (if Touches(options[0], query, lib) then [options[0]] else []) + Touching(options[1..], query, lib)
  }

  function FindContaining(options: seq<Choice>, query: string, lib: Lib): Option<Choice> {
    var q := lib.lower(Trim(query));
    if q == "" then None
    else if |Touching(options, q, lib)| == 1 then Some(Touching(options, q, lib)[0]) else None
  }

  /** findUniqueContainingOption */
  method FindUniqueContaining(options: seq<Choice>, query: string, lib: Lib) returns (r: Option<Choice>)
    ensures r == FindContaining(options, query, lib)
  {
    hide Trim, Touches;
    var q := lib.lower(Trim(query));
    if q == "" {
      return None;
    }
    var matches := [];
    ghost var rest := Touching(options, q, lib);
    assert options[0..] == options;
    for i := 0 to |options|
      invariant Touching(options, q, lib) == matches + rest
      invariant rest == Touching(options[i..], q, lib)
    {
      DropStep(options, i);
      rest := Touching(options[i + 1..], q, lib);
      if Touches(options[i], q, lib) {
        Assoc(matches, [options[i]], rest);
        matches := matches + [options[i]];
      } else {
        assert [] + rest == rest;
      }
    }
    if |matches| != 1 {
      return None;
    }
    return Some(matches[0]);
  }

  lemma {:induction false} TouchingAreOptions(options: seq<Choice>, query: string, lib: Lib)
    ensures forall o :: o in Touching(options, query, lib) ==> o in options
  {
    hide Touches;
    if options != [] {
      TouchingAreOptions(options[1..], query, lib);
    }
  }

  lemma {:induction false} FoundAreOptions(options: seq<Choice>, query: string, lib: Lib)
    ensures Find(options, query, lib).Some? ==> Find(options, query, lib).value in options
    ensures FindContaining(options, query, lib).Some? ==> FindContaining(options, query, lib).value in options
  {
    hide Trim, Touches, Matches;
    FirstMatchIsFirst(options, Trim(query), lib);
    TouchingAreOptions(options, lib.lower(Trim(query)), lib);
  }

  function DefaultIfEmpty(value: string, fallback: string): string {
    if Trim(value) == "" then Trim(fallback) else Trim(value)
  }

  function FirstId(options: seq<Choice>, id: string): (r: Option<Choice>)
    ensures r.Some? ==> r.value in options && r.value.id == id
    ensures r == None ==> forall o :: o in options ==> o.id != id
  {
    if options == [] then None else if options[0].id == id then Some(options[0]) else FirstId(options[1..], id)
  }

  function OrElse<T>(a: Option<T>, b: Option<T>): Option<T> {
    if a.Some? then a else b
  }

  /** resolveTargetSelection, without the list it returns for a reply. */
  function Resolve(text: string, options: seq<Choice>, existing: Option<Entity>, lib: Lib): Option<Entity> {
    var byId := if existing.Some? && Trim(existing.value.id) != "" then FirstId(options, existing.value.id) else None;
    var byName := if existing.Some? && Trim(existing.value.name) != ""
                  then OrElse(Find(options, existing.value.name, lib),
                      FindContaining(options, existing.value.name, lib)) else None;
    var byText := OrElse(Find(options, text, lib), FindContaining(options, text, lib));
    if byId.Some? then Some(Entity(byId.value.id, DefaultIfEmpty(byId.value.name, existing.value.name),
        existing.value.source, None))
    else if byName.Some? then Some(Entity(byName.value.id, byName.value.name, existing.value.source, None))
    else if byText.Some? then Some(Entity(byText.value.id, byText.value.name, "user_mention", None))
    else None
  }

  /** The live option a remembered target stands for: by its id read as an id, a name or a hint, then by its name. */
  function Live(e: Entity, options: seq<Choice>, lib: Lib): Option<Choice> {
    OrElse(Find(options, e.id, lib),
           if Trim(e.name) == "" then None
               else OrElse(Find(options, e.name, lib), FindContaining(options, e.name, lib)))
  }

  /** ensureLiveTargetReference */
  function EnsureLive(e: Entity, options: seq<Choice>, lib: Lib): Option<Entity> {
    match Live(e, options, lib)
    case None => None
    case Some(o) => Some(e.(id := o.id, name := DefaultIfEmpty(o.name, e.name)))
  }

  predicate IdAmong(id: string, options: seq<Choice>) {
    exists o :: o in options && o.id == id
  }

  lemma {:induction false} LiveIsOption(e: Entity, options: seq<Choice>, lib: Lib)
    ensures EnsureLive(e, options, lib).Some? ==> IdAmong(EnsureLive(e, options, lib).value.id, options)
  {
    hide Find, FindContaining, Trim;
    FoundAreOptions(options, e.id, lib);
    FoundAreOptions(options, e.name, lib);
  }

  /** The first option the id matches, as id, name or hint, is the one with that id. */
  predicate Steady(options: seq<Choice>, id: string, lib: Lib) {
    Find(options, id, lib).Some? && Find(options, id, lib).value.id == id
  }

  /** For the id of one of the options, that is so exactly when no option before the first with that id
      has it as its name or hint. */
  lemma {:induction false} SteadyUnlessClash(options: seq<Choice>, id: string, lib: Lib)
    requires Trimmed(id) && id != "" && IdAmong(id, options)
    ensures Steady(options, id, lib)
            <==> exists i :: 0 <= i < |options| && options[i].id == id
                             && forall j :: 0 <= j < i ==> !Matches(options[j], id, lib)
  {
    FirstMatchIsFirst(options, id, lib);
    hide Trim;
    var r := FirstMatch(options, id, lib);
    if exists i :: 0 <= i < |options| && options[i].id == id && forall j ::
        0 <= j < i ==> !Matches(options[j], id, lib) {
      var i :| 0 <= i < |options| && options[i].id == id && forall j :: 0 <= j < i ==> !Matches(options[j], id, lib);
      assert Matches(options[i], id, lib);
    }
  }

  // ---- Which option a text stands for, by position ----

  /** The option has the text as its id, or its name or hint is the text up to case. */
  predicate Bears(o: Choice, q: string, lib: Lib) {
    o.id == q || exists f :: f in [o.name, o.hint] && lib.fold(f, q)
  }

  /** One of the option's fields, lower-cased, contains the text or is contained in it. */
  predicate Overlaps(o: Choice, q: string, lib: Lib) {
    exists f :: f in [o.name, o.hint, o.id]
      && var t := lib.lower(Trim(f)); t != "" && (Contains(t, q) || Contains(q, t))
  }

  lemma {:induction false} BearsMatches(o: Choice, q: string, lib: Lib)
    ensures Bears(o, q, lib) <==> Matches(o, q, lib)
  {
    assert o.name in [o.name, o.hint] && o.hint in [o.name, o.hint];
  }

  lemma {:induction false} OverlapsTouches(o: Choice, q: string, lib: Lib)
    ensures Overlaps(o, q, lib) <==> Touches(o, q, lib)
  {
    var fields := [o.name, o.hint, o.id];
    assert o.name in fields && o.hint in fields && o.id in fields;
    hide Trim, Contains;
  }

  /** Option `i` is the first that bears the text. */
  predicate FirstAt(options: seq<Choice>, query: string, i: nat, lib: Lib)
    requires i < |options|
  {
    && Trim(query) != "" && Bears(options[i], Trim(query), lib)
    && forall j :: 0 <= j < i ==> !Bears(options[j], Trim(query), lib)
  }

  /** Option `i` is the only one that overlaps with `q`. */
  predicate OnlyAt(options: seq<Choice>, q: string, i: nat, lib: Lib)
    requires i < |options|
  {
    Overlaps(options[i], q, lib) && forall j :: 0 <= j < |options| && j != i ==> !Overlaps(options[j], q, lib)
  }

  /** Option `i` is the only one that overlaps with the text, in lower case. */
  predicate SoleAt(options: seq<Choice>, query: string, i: nat, lib: Lib)
    requires i < |options|
  {
    lib.lower(Trim(query)) != "" && OnlyAt(options, lib.lower(Trim(query)), i, lib)
  }

  lemma {:induction false} FindsFirst(options: seq<Choice>, query: string, o: Choice, lib: Lib)
    ensures Find(options, query, lib) == Some(o)
            <==> exists i :: 0 <= i < |options| && options[i] == o && FirstAt(options, query, i, lib)
  {
    var q := Trim(query);
    FirstMatchIsFirst(options, q, lib);
    forall c: Choice ensures Bears(c, q, lib) <==> Matches(c, q, lib) {
      BearsMatches(c, q, lib);
    }
    hide Trim, Matches, FirstMatch, Bears;
    var r := FirstMatch(options, q, lib);
    if q != "" && r == Some(o) {
      var k :| 0 <= k < |options| && options[k] == r.value && Matches(r.value, q, lib)
               && forall j :: 0 <= j < k ==> !Matches(options[j], q, lib);
      assert FirstAt(options, query, k, lib);
    }
    forall i | 0 <= i < |options| && FirstAt(options, query, i, lib) ensures r == Some(options[i]) {
      assert options[i] in options && Bears(options[i], q, lib);
      var k :| 0 <= k < |options| && options[k] == r.value && Matches(r.value, q, lib)
               && forall j :: 0 <= j < k ==> !Matches(options[j], q, lib);
      assert i == k;
    }
  }

  lemma {:induction false} TouchingNone(options: seq<Choice>, q: string, lib: Lib)
    ensures Touching(options, q, lib) == [] <==> forall j :: 0 <= j < |options| ==> !Touches(options[j], q, lib)
  {
    hide Touches;
    if options != [] {
      TouchingNone(options[1..], q, lib);
      if forall j :: 0 <= j < |options[1..]| ==> !Touches(options[1..][j], q, lib) {
        assert forall j :: 0 < j < |options| ==> options[j] == options[1..][j - 1];
      } else {
        var j :| 0 <= j < |options[1..]| && Touches(options[1..][j], q, lib);
        assert options[j + 1] == options[1..][j];
      }
    }
  }

  lemma {:induction false} TouchingOne(options: seq<Choice>, q: string, i: nat, lib: Lib)
    requires i < |options| && Touches(options[i], q, lib)
    requires forall j :: 0 <= j < |options| && j != i ==> !Touches(options[j], q, lib)
    ensures Touching(options, q, lib) == [options[i]]
  {
    hide Touches;
    var rest := options[1..];
    if i == 0 {
      TouchingNone(rest, q, lib);
    } else {
      assert !Touches(options[0], q, lib);
      TouchingOne(rest, q, i - 1, lib);
    }
  }

  lemma {:induction false} OnlyGives(options: seq<Choice>, q: string, i: nat, lib: Lib)
    requires i < |options| && OnlyAt(options, q, i, lib)
    ensures Touching(options, q, lib) == [options[i]]
  {
    hide Touches, Overlaps, Touching;
    forall j | 0 <= j < |options| ensures Overlaps(options[j], q, lib) <==> Touches(options[j], q, lib) {
      OverlapsTouches(options[j], q, lib);
    }
    TouchingOne(options, q, i, lib);
  }

  lemma {:induction false} OneTouches(options: seq<Choice>, q: string, lib: Lib) returns (i: nat)
    requires |Touching(options, q, lib)| == 1
    ensures i < |options| && options[i] == Touching(options, q, lib)[0] && Touches(options[i], q, lib)
    ensures forall j :: 0 <= j < |options| && j != i ==> !Touches(options[j], q, lib)
  {
    hide Touches;
    var rest := options[1..];
    assert forall j :: 0 < j < |options| ==> options[j] == rest[j - 1];
    if Touches(options[0], q, lib) {
      i := 0;
      TouchingNone(rest, q, lib);
    } else {
      var k := OneTouches(rest, q, lib);
      i := k + 1;
    }
  }

  lemma {:induction false} OneIsOnly(options: seq<Choice>, q: string, lib: Lib)
    requires |Touching(options, q, lib)| == 1
    ensures exists i :: 0 <= i < |options| && options[i] == Touching(options, q, lib)[0] && OnlyAt(options, q, i, lib)
  {
    hide Touches, Overlaps, Touching;
    forall j | 0 <= j < |options| ensures Overlaps(options[j], q, lib) <==> Touches(options[j], q, lib) {
      OverlapsTouches(options[j], q, lib);
    }
    var i := OneTouches(options, q, lib);
    assert OnlyAt(options, q, i, lib);
  }

  /** The search by containment finds an option exactly when it is the only one. */
  lemma {:induction false} FindsSole(options: seq<Choice>, query: string, o: Choice, lib: Lib)
    ensures FindContaining(options, query, lib) == Some(o)
            <==> exists i :: 0 <= i < |options| && options[i] == o && SoleAt(options, query, i, lib)
  {
    var q := lib.lower(Trim(query));
    hide Touches, Overlaps, Trim;
    if q != "" && |Touching(options, q, lib)| == 1 {
      OneIsOnly(options, q, lib);
      var i :| 0 <= i < |options| && options[i] == Touching(options, q, lib)[0] && OnlyAt(options, q, i, lib);
      assert SoleAt(options, query, i, lib);
    }
    forall i | 0 <= i < |options| && SoleAt(options, query, i, lib)
        ensures FindContaining(options, query, lib) == Some(options[i]) {
      OnlyGives(options, q, i, lib);
    }
  }

  /** The text names option `o`: it is the first that bears it, or else the only one that overlaps with it. */
  predicate Names(options: seq<Choice>, query: string, o: Choice, lib: Lib) {
    || (exists i :: 0 <= i < |options| && options[i] == o && FirstAt(options, query, i, lib))
    || (&& (forall i :: 0 <= i < |options| ==> !FirstAt(options, query, i, lib))
        && exists i :: 0 <= i < |options| && options[i] == o && SoleAt(options, query, i, lib))
  }

  lemma {:induction false} LookUpNames(options: seq<Choice>, query: string, o: Choice, lib: Lib)
    ensures OrElse(Find(options, query, lib), FindContaining(options, query, lib)) == Some(o)
            <==> Names(options, query, o, lib)
  {
    forall p: Choice
      ensures Find(options, query, lib) == Some(p)
              <==> exists i :: 0 <= i < |options| && options[i] == p && FirstAt(options, query, i, lib)
    {
      FindsFirst(options, query, p, lib);
    }
    FindsSole(options, query, o, lib);
    hide Find, FindContaining, FirstAt, SoleAt;
    if Find(options, query, lib).Some? {
      var p := Find(options, query, lib).value;
      assert exists i :: 0 <= i < |options| && options[i] == p && FirstAt(options, query, i, lib);
    } else {
      forall i | 0 <= i < |options| ensures !FirstAt(options, query, i, lib) {
        assert Find(options, query, lib) != Some(options[i]);
      }
    }
  }

  /** Option `i` is the first with the id. */
  predicate IdAt(options: seq<Choice>, id: string, i: nat)
    requires i < |options|
  {
    options[i].id == id && forall j :: 0 <= j < i ==> options[j].id != id
  }

  lemma {:induction false} FirstIdIsFirst(options: seq<Choice>, id: string)
    ensures var r := FirstId(options, id);
            && (r == None <==> forall i :: 0 <= i < |options| ==> options[i].id != id)
            && (r.Some? ==> exists i :: 0 <= i < |options| && options[i] == r.value && IdAt(options, id, i))
  {
    if options != [] && options[0].id != id {
      FirstIdIsFirst(options[1..], id);
      var r := FirstId(options, id);
      assert forall j :: 0 < j < |options| ==> options[j] == options[1..][j - 1];
      if r.Some? {
        var i :| 0 <= i < |options[1..]| && options[1..][i] == r.value && IdAt(options[1..], id, i);
        assert IdAt(options, id, i + 1);
      } else {
        forall j | 0 <= j < |options| ensures options[j].id != id {
          assert j > 0 ==> options[j] == options[1..][j - 1];
        }
      }
    } else if options != [] {
      assert IdAt(options, id, 0);
    }
  }

  /** The text of the one, or of the other where the one has none. */
  function TextOr(a: string, b: string): string {
    if Trim(a) != "" then Trim(a) else Trim(b)
  }

  /** Some option has the id of the entity, which is not blank. */
  predicate IdLives(options: seq<Choice>, e: Option<Entity>) {
    e.Some? && Trim(e.value.id) != "" && IdAmong(e.value.id, options)
  }

  /** The entity's name, if it is not blank, names some option. */
  ghost predicate NameLives(options: seq<Choice>, e: Option<Entity>, lib: Lib) {
    e.Some? && Trim(e.value.name) != "" && exists o :: Names(options, e.value.name, o, lib)
  }

  /** What a message is about: the object with the id remembered, else the one the remembered name names, else
      the one the message itself names, else none. */
  lemma {:induction false} ResolvesInOrder(text: string, options: seq<Choice>, existing: Option<Entity>, lib: Lib)
    ensures var r := Resolve(text, options, existing, lib);
            if IdLives(options, existing) then
              exists i :: 0 <= i < |options| && IdAt(options, existing.value.id, i)
                && r == Some(Entity(options[i].id, TextOr(options[i].name, existing.value.name),
                   existing.value.source, None))
            else if NameLives(options, existing, lib) then
              exists o :: Names(options, existing.value.name, o, lib)
                  && r == Some(Entity(o.id, o.name, existing.value.source, None))
            else if exists o :: Names(options, text, o, lib) then
              exists o :: Names(options, text, o, lib) && r == Some(Entity(o.id, o.name, "user_mention", None))
            else r == None
  {
    hide Names, Find, FindContaining, Trim, FirstId, IdAt;
    Looked(options, text, lib);
    if existing.Some? {
      Looked(options, existing.value.name, lib);
      FirstIdIsFirst(options, existing.value.id);
      if IdLives(options, existing) {
        var o :| o in options && o.id == existing.value.id;
        var k :| 0 <= k < |options| && options[k] == o;
      }
    }
  }

  lemma {:induction false} Looked(options: seq<Choice>, query: string, lib: Lib)
    ensures var r := OrElse(Find(options, query, lib), FindContaining(options, query, lib));
            && (r.Some? ==> Names(options, query, r.value, lib))
               && (forall o :: Names(options, query, o, lib) ==> r == Some(o))
  {
    forall o: Choice
      ensures OrElse(Find(options, query, lib), FindContaining(options, query, lib)) == Some(o)
              <==> Names(options, query, o, lib)
    {
      LookUpNames(options, query, o, lib);
    }
    hide Names, Find, FindContaining;
  }

  /** The object a remembered target stands for: the first option its id matches, else the one its name names. */
  lemma {:induction false} LivesInOrder(e: Entity, options: seq<Choice>, lib: Lib)
    ensures var r := EnsureLive(e, options, lib);
            if exists i :: 0 <= i < |options| && FirstAt(options, e.id, i, lib) then
              exists i :: 0 <= i < |options| && FirstAt(options, e.id, i, lib)
                && r == Some(e.(id := options[i].id, name := TextOr(options[i].name, e.name)))
            else if NameLives(options, Some(e), lib) then
              exists o :: Names(options, e.name, o, lib) && r == Some(e.(id := o.id, name := TextOr(o.name, e.name)))
            else r == None
  {
    hide Names, Find, FindContaining, Trim, FirstAt;
    Looked(options, e.name, lib);
    Found(options, e.id, lib);
  }

  lemma {:induction false} Found(options: seq<Choice>, query: string, lib: Lib)
    ensures var r := Find(options, query, lib);
            && (r.Some? ==> exists i :: 0 <= i < |options| && options[i] == r.value && FirstAt(options, query, i, lib))
            && (forall i :: 0 <= i < |options| && FirstAt(options, query, i, lib) ==> r == Some(options[i]))
  {
    forall o: Choice
      ensures Find(options, query, lib) == Some(o)
              <==> exists i :: 0 <= i < |options| && options[i] == o && FirstAt(options, query, i, lib)
    {
      FindsFirst(options, query, o, lib);
    }
    hide Find, FirstAt;
  }
}
