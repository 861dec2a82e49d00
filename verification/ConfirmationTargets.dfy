/** Which object a confirmed action runs on, whatever happened since it was asked about. */
module ConfirmationTargets {
  import opened ConfirmationGate
  import opened ExecutionStates
  import opened Options
  import opened Targets
  import opened Text

  // ---- Looking a target up again and again ----

  /** The entity after `n` look-ups among the options, each of which may move it or lose it. */
  function Chase(e: Option<Entity>, options: seq<Choice>, n: nat, lib: Lib): Option<Entity> {
    if n == 0 then e
    else
      var before := Chase(e, options, n - 1, lib);
      if before == None then None else EnsureLive(before.value, options, lib)
  }

  /** The last target named, by the question or by the model since, and the messages looked up since. */
  datatype Aim = Aim(named: Option<Entity>, lookups: nat)

  function Aimed(a: Aim, e: Event): Aim {
    var named := if e.edit.target.Some? then Aim(e.edit.target, 0) else a;
    if e.Message? then named.(lookups := named.lookups + 1) else named
  }

  function AimAfter(start: Option<Entity>, events: seq<Event>): Aim {
    if events == [] then Aim(start, 0) else Aimed(AimAfter(start, events[..|events| - 1]), events[|events| - 1])
  }

  function Hit(a: Aim, options: seq<Choice>, lib: Lib): Option<Entity> {
    Chase(a.named, options, a.lookups, lib)
  }

  /** What a look-up depends on. */
  function Core(e: Option<Entity>): (string, string) {
    if e == None then ("", "") else (Trim(e.value.id), Trim(e.value.name))
  }

  lemma {:induction false} LiveByCore(e: Entity, f: Entity, options: seq<Choice>, lib: Lib)
    requires Core(Some(e)) == Core(Some(f))
    ensures var x, y := EnsureLive(e, options, lib), EnsureLive(f, options, lib);
            (x.Some? <==> y.Some?) && (x.Some? ==> x.value.id == y.value.id && Core(x) == Core(y))
  {
    ByTrim(e.id, f.id, options, lib);
    ByTrim(e.name, f.name, options, lib);
    hide Find, FindContaining, Trim;
  }

  lemma {:induction false} ByTrim(a: string, b: string, options: seq<Choice>, lib: Lib)
    requires Trim(a) == Trim(b)
    ensures Find(options, a, lib) == Find(options, b, lib)
            && FindContaining(options, a, lib) == FindContaining(options, b, lib)
  {
    hide FirstMatch, Touching, Trim;
  }

  lemma {:induction false} NothingLive(e: Entity, options: seq<Choice>, lib: Lib)
    requires Core(Some(e)) == ("", "")
    ensures EnsureLive(e, options, lib) == None
  {
    hide FindContaining, Trim, FirstMatch;
  }

  lemma {:induction false} SavedCore(e: Option<Entity>, now: int)
    ensures Core(NormalEntityRef(e, now)) == Core(e)
  {
    if e.Some? {
      assert Trim(Trim(e.value.id)) == Trim(e.value.id) && Trim(Trim(e.value.name)) == Trim(e.value.name);
    }
    hide Trim;
  }

  // ---- One event of a conversation in which a question is open ----

  /** Nothing in the event speaks of all objects, where that means something. */
  predicate NotAll(task: Task, e: Event, lib: Lib) {
    Bulkable(task) ==> !e.edit.all && (e.Message? ==> !MeansAll(e.text, lib))
  }

  /** A question is open, and the saved target is what the last target named has become. */
  predicate Tracks(stored: Option<Session>, task: Task, a: Aim, options: seq<Choice>, lib: Lib) {
    && stored.Some? && stored.value.awaiting && stored.value.step == AwaitConfirmation
       && !(Bulkable(task) && stored.value.all)
    && Core(stored.value.target) == Core(Hit(a, options, lib))
  }

  /** What a message does while a question is open. */
  lemma {:induction false} OpenMessage(stored: Option<Session>, task: Task, m: Event, lib: Lib)
    requires stored.Some? && stored.value.awaiting && stored.value.step == AwaitConfirmation
             && !(Bulkable(task) && stored.value.all)
    requires m.Message? && NotAll(task, m, lib)
    ensures var s := stored.value.(target := OrElse(m.edit.target, stored.value.target));
            var live := if s.target == None then None else EnsureLive(s.target.value, m.options, lib);
            Next(stored, task, m, lib)
            == if s.target == None then (Saved(s, m.now), Unspecified)
               else if live == None then (Saved(s.(target := None), m.now), Gone)
               else if IsYes(m.text, lib) then (None, Ran([live.value.id]))
               else (Saved(s.(target := live), m.now), StillWaiting)
  {
    hide Resolve, MeansAll, IsYes, EnsureLive, NormalEntityRef;
  }

  lemma {:induction false} OpenQuestion(stored: Option<Session>, task: Task, e: Event, lib: Lib)
    requires stored.Some? && stored.value.awaiting && !e.Message? && NotAll(task, e, lib)
    ensures var (next, o) := Next(stored, task, e, lib);
            && next == Saved(stored.value.(target := OrElse(e.edit.target, stored.value.target)), e.now)
            && (o == AskedFreely || o == Chatted)
  {
    hide NormalEntityRef;
  }

  lemma {:induction false} NextHit(a: Aim, options: seq<Choice>, lib: Lib)
    ensures var h := Hit(a, options, lib);
            Hit(a.(lookups := a.lookups + 1), options, lib) == if h == None then None
                else EnsureLive(h.value, options, lib)
  {
    hide EnsureLive;
  }

  lemma {:induction false} NoCore()
    ensures Core(None) == ("", "")
  {
  }

  /** The target a message looks up, as a look-up of what the last target named had become. */
  lemma {:induction false} LookedUp(t: Option<Entity>, a: Aim, options: seq<Choice>, lib: Lib)
    requires Core(t) == Core(Hit(a, options, lib))
    ensures var live := if t == None then None else EnsureLive(t.value, options, lib);
            var hit := Hit(a.(lookups := a.lookups + 1), options, lib);
            (live.Some? <==> hit.Some?) && (live.Some? ==> live.value.id == hit.value.id && Core(live) == Core(hit))
  {
    var h := Hit(a, options, lib);
    NextHit(a, options, lib);
    NoCore();
    hide EnsureLive, Hit, Core;
    if t.Some? && h.Some? {
      LiveByCore(t.value, h.value, options, lib);
    } else if t.Some? {
      NothingLive(t.value, options, lib);
    } else if h.Some? {
      NothingLive(h.value, options, lib);
    }
  }

  lemma {:induction false} EditedAim(stored: Option<Session>, task: Task, a: Aim, e: Event,
      options: seq<Choice>, lib: Lib)
    requires Tracks(stored, task, a, options, lib)
    ensures var named := if e.edit.target.Some? then Aim(e.edit.target, 0) else a;
            Core(OrElse(e.edit.target, stored.value.target)) == Core(Hit(named, options, lib))
  {
    hide EnsureLive, Trim;
  }

  /** While the question is open every event keeps track of the target; a message that is no yes waits as
      long as the target is found, and a yes runs on what it has become, or on nothing. */
  predicate Tracked(task: Task, e: Event, a: Aim, options: seq<Choice>, next: Option<Session>, o: Outcome, lib: Lib) {
    var hit := Hit(a, options, lib);
    && (next.Some? ==> Tracks(next, task, a, options, lib))
    && (e.Message? && IsYes(e.text, lib) ==> (o.Ran? <==> hit.Some?) && (o.Ran? ==> o.ids == [hit.value.id]))
    && (e.Message? && !IsYes(e.text, lib) ==> next.Some? && (o == StillWaiting <==> hit.Some?))
  }

  lemma {:induction false} SavedTracks(s: Session, task: Task, t: Option<Entity>, a: Aim, options: seq<Choice>,
      now: int, lib: Lib)
    requires s.awaiting && s.step == AwaitConfirmation && !(Bulkable(task) && s.all)
    requires Core(t) == Core(Hit(a, options, lib))
    ensures Tracks(Saved(s.(target := t), now), task, a, options, lib)
  {
    SavedCore(t, now);
    hide Core, Hit, NormalEntityRef;
  }

  /** What a message finds is what the last target named is by then. */
  lemma {:induction false} LiveTracks(stored: Option<Session>, task: Task, a: Aim, m: Event, lib: Lib)
    requires m.Message? && Tracks(stored, task, a, m.options, lib)
    ensures var t := OrElse(m.edit.target, stored.value.target);
            var live := if t == None then None else EnsureLive(t.value, m.options, lib);
            var hit := Hit(Aimed(a, m), m.options, lib);
            && Core(live) == Core(hit) && (live.Some? <==> hit.Some?) && (live.Some? ==> live.value.id == hit.value.id)
  {
    hide EnsureLive, Hit, Core;
    EditedAim(stored, task, a, m, m.options, lib);
    var named := if m.edit.target.Some? then Aim(m.edit.target, 0) else a;
    LookedUp(OrElse(m.edit.target, stored.value.target), named, m.options, lib);
  }

  lemma {:induction false} MessageTracks(stored: Option<Session>, task: Task, a: Aim, m: Event, lib: Lib)
    requires m.Message? && Tracks(stored, task, a, m.options, lib) && NotAll(task, m, lib)
    ensures var (next, o) := Next(stored, task, m, lib); Tracked(task, m, Aimed(a, m), m.options, next, o, lib)
  {
    hide Next, EnsureLive, Hit, Core, NormalEntityRef, IsYes, NotAll, Saved;
    var t := OrElse(m.edit.target, stored.value.target);
    var live := if t == None then None else EnsureLive(t.value, m.options, lib);
    LiveTracks(stored, task, a, m, lib);
    SavedTracks(stored.value, task, live, Aimed(a, m), m.options, m.now, lib);
    OpenMessage(stored, task, m, lib);
    hide Tracks;
  }

  lemma {:induction false} EventTracks(stored: Option<Session>, task: Task, a: Aim, e: Event,
      options: seq<Choice>, lib: Lib)
    requires Tracks(stored, task, a, options, lib) && NotAll(task, e, lib) && (e.Message? ==> e.options == options)
    ensures var (next, o) := Next(stored, task, e, lib); Tracked(task, e, Aimed(a, e), options, next, o, lib)
  {
    if e.Message? {
      MessageTracks(stored, task, a, e, lib);
    } else {
      EditedAim(stored, task, a, e, options, lib);
      OpenQuestion(stored, task, e, lib);
      SavedTracks(stored.value, task, OrElse(e.edit.target, stored.value.target), Aimed(a, e), options, e.now, lib);
    }
    hide Saved, Next, EnsureLive, Hit, Core, NormalEntityRef, IsYes, NotAll;
  }

  lemma {:induction false} ConversationTracks(task: Task, stored: Option<Session>, events: seq<Event>,
      options: seq<Choice>, lib: Lib)
    requires stored.Some? && Tracks(stored, task, Aim(stored.value.target, 0), options, lib)
    requires forall k :: 0 <= k < |events| ==>
             NotAll(task, events[k], lib) && (events[k].Message? ==> events[k].options == options)
    requires forall k :: 0 <= k < |events| ==> !Ended(OutcomeFrom(stored, task, events, k, lib))
    ensures Tracks(From(stored, task, events, lib), task, AimAfter(stored.value.target, events), options, lib)
  {
    hide Next, Tracks, NotAll, Aimed, Ended;
    if events != [] {
      var last := |events| - 1;
      var before := events[..last];
      forall k | 0 <= k < last ensures !Ended(OutcomeFrom(stored, task, before, k, lib)) {
        assert before[..k] == events[..k];
        assert !Ended(OutcomeFrom(stored, task, events, k, lib));
      }
      ConversationTracks(task, stored, before, options, lib);
      EventTracks(From(stored, task, before, lib), task, AimAfter(stored.value.target, before),
          events[last], options, lib);
      assert !Ended(OutcomeFrom(stored, task, events, last, lib));
      OneStep(From(stored, task, before, lib), task, events[last], lib);
    }
  }

  /** From a question about one object, over unchanged options and whatever else happened: messages, targets
      the model read from them, questions of its own. As long as nothing spoke of all objects, a yes runs on
      the object asked about exactly when the last target named since, looked up once by every message
      since it was named, has become that object. */
  lemma {:induction false} RunsOnLastNamed(task: Task, stored: Option<Session>, events: seq<Event>, yes: Event,
      options: seq<Choice>, id: string, lib: Lib)
    requires Holding(stored, task, id) && yes.Message? && IsYes(yes.text, lib)
    requires forall e :: e in events + [yes] ==> NotAll(task, e, lib) && (e.Message? ==> e.options == options)
    requires forall k :: 0 <= k < |events| ==> !Ended(OutcomeFrom(stored, task, events, k, lib))
    ensures var o := Next(From(stored, task, events, lib), task, yes, lib).1;
            var hit := Hit(AimAfter(stored.value.target, events + [yes]), options, lib);
            && (o.Ran? <==> hit.Some?) && (o.Ran? ==> o.ids == [hit.value.id])
            && (o == Ran([id]) <==> hit.Some? && hit.value.id == id)
  {
    hide Next, NotAll, Aimed, Ended, IsYes, Holding, Hit;
    var all := events + [yes];
    assert all[..|events|] == events && all[|events|] == yes && yes in all;
    forall k | 0 <= k < |events| ensures events[k] in all {}
    HoldingTracks(stored, task, id, options, lib);
    ConversationTracks(task, stored, events, options, lib);
    EventTracks(From(stored, task, events, lib), task, AimAfter(stored.value.target, events), yes, options, lib);
  }

  lemma {:induction false} HoldingTracks(stored: Option<Session>, task: Task, id: string,
      options: seq<Choice>, lib: Lib)
    requires Holding(stored, task, id)
    ensures stored.Some? && Tracks(stored, task, Aim(stored.value.target, 0), options, lib)
  {
    hide EnsureLive, Trim;
  }

  /** Every option's id finds that option. */
  predicate AllSteady(options: seq<Choice>, lib: Lib) {
    forall o :: o in options ==> Steady(options, o.id, lib)
  }

  /** Under steady ids a target stays where its first look-up puts it. */
  lemma {:induction false} ChaseSteady(e: Entity, options: seq<Choice>, n: nat, lib: Lib)
    requires AllSteady(options, lib) && n > 0
    ensures var live, hit := EnsureLive(e, options, lib), Chase(Some(e), options, n, lib);
            (hit.Some? <==> live.Some?) && (hit.Some? ==> hit.value.id == live.value.id)
  {
    if n > 1 {
      ChaseSteady(e, options, n - 1, lib);
      var before := Chase(Some(e), options, n - 1, lib);
      LiveIsOption(e, options, lib);
      hide Find, FindContaining, Trim;
      if before.Some? {
        var o :| o in options && o.id == before.value.id;
        assert Steady(options, before.value.id, lib);
      }
    } else {
      assert Chase(Some(e), options, 0, lib) == Some(e);
    }
  }

  lemma {:induction false} SomethingNamed(start: Entity, events: seq<Event>)
    ensures AimAfter(Some(start), events).named.Some?
    ensures events != [] && events[|events| - 1].Message? ==> AimAfter(Some(start), events).lookups > 0
  {
    if events != [] {
      SomethingNamed(start, events[..|events| - 1]);
    }
  }

  /** With steady ids: a yes runs on the object asked about exactly when the last target named since the
      question, or the question's own, is that object. */
  lemma {:induction false} RunsOnAskedExactly(task: Task, stored: Option<Session>, events: seq<Event>, yes: Event,
      options: seq<Choice>, id: string, lib: Lib)
    requires Holding(stored, task, id) && yes.Message? && IsYes(yes.text, lib) && AllSteady(options, lib)
    requires forall e :: e in events + [yes] ==> NotAll(task, e, lib) && (e.Message? ==> e.options == options)
    requires forall k :: 0 <= k < |events| ==> !Ended(OutcomeFrom(stored, task, events, k, lib))
    ensures var named := AimAfter(stored.value.target, events + [yes]).named;
            && named.Some?
            && (Next(From(stored, task, events, lib), task, yes, lib).1 == Ran([id])
                <==> var live := EnsureLive(named.value, options, lib); live.Some? && live.value.id == id)
  {
    RunsOnLastNamed(task, stored, events, yes, options, id, lib);
    var all := events + [yes];
    assert all[|all| - 1] == yes;
    SomethingNamed(stored.value.target.value, all);
    var a := AimAfter(stored.value.target, all);
    ChaseSteady(a.named.value, options, a.lookups, lib);
    hide Next, NotAll, Ended, IsYes, AimAfter, EnsureLive, Chase, From, AllSteady;
  }

  /** A reply in which the model reads another target moves the question silently: the reply waits, and the
      next yes runs on that target, though only the first one was ever asked about. */
  lemma {:induction false} EditMovesTarget(stored: Option<Session>, task: Task, id: string, m: Event, yes: Event,
      e: Entity, lib: Lib)
    requires Holding(stored, task, id) && m.Message? && !IsYes(m.text, lib) && m.edit == Edit(Some(e), false)
             && NotAll(task, m, lib)
    requires yes.Message? && IsYes(yes.text, lib) && yes.edit == NO_EDIT && yes.options == m.options
             && AllSteady(m.options, lib)
    requires EnsureLive(e, m.options, lib).Some?
    ensures var (next, o) := Next(stored, task, m, lib);
            o == StillWaiting && Next(next, task, yes, lib).1 == Ran([EnsureLive(e, m.options, lib).value.id])
  {
    hide Next, IsYes, EnsureLive, Holding, Tracks, AllSteady;
    HoldingTracks(stored, task, id, m.options, lib);
    EventTracks(stored, task, Aim(stored.value.target, 0), m, m.options, lib);
    YesIsNotAll(yes.text, lib);
    EventTracks(Next(stored, task, m, lib).0, task, Aim(Some(e), 1), yes, m.options, lib);
    ChaseSteady(e, m.options, 1, lib);
    ChaseSteady(e, m.options, 2, lib);
  }

  // ---- Once all objects are meant ----

  /** A session for all objects stays one, and whatever it then runs on is what can be deleted in that turn. */
  lemma {:induction false} AllStays(stored: Option<Session>, task: Task, e: Event, lib: Lib)
    requires Bulkable(task) && stored.Some? && stored.value.all
    ensures var (next, o) := Next(stored, task, e, lib);
            (next.Some? ==> next.value.all) && (o.Ran? ==> e.Message? && e.deletable == Some(o.ids))
  {
    hide Resolve, MeansAll, IsYes, EnsureLive, NormalEntityRef;
  }

  /** An event that speaks of all objects makes it one, unless they could not be listed. */
  lemma {:induction false} SayingAll(stored: Option<Session>, task: Task, e: Event, lib: Lib)
    requires !NotAll(task, e, lib)
    ensures var (next, o) := Next(stored, task, e, lib);
            (next.Some? && o != NotListed ==> next.value.all) && (o.Ran? ==> e.Message? && e.deletable == Some(o.ids))
  {
    hide Resolve, MeansAll, IsYes, EnsureLive, NormalEntityRef;
  }
}
