/** agent/skill_management_handlers.go, agent/skill_runner.go and agent/skill_execution_handlers.go: starting,
    stopping and deleting are carried out in two phases, over a session that is saved between turns. */
module ConfirmationGate {
  import opened ExecutionStates
  import opened Options
  import opened Targets
  import opened Text

  /** The actions that need confirmation; only the first two may take all targets at once. */
  datatype Task = DeleteTrader | DeleteStrategy | StartTrader | StopTrader | DeleteModel | DeleteExchange

  /** supportsBulkTargetSelection */
  predicate Bulkable(task: Task) {
    task.DeleteTrader? || task.DeleteStrategy?
  }

  /** The saved step of the action's graph; no text stands for its first step. */
  datatype Step = NoStep | ResolveTarget | AwaitConfirmation

  /** `awaiting` is phase "await_confirmation", `all` is bulk_scope "all". */
  datatype Session = Session(target: Option<Entity>, step: Step, awaiting: bool, all: bool)

  const NEW_SESSION := Session(None, NoStep, false, false)

  /** What the model read from the message before the handler runs. */
  datatype Edit = Edit(target: Option<Entity>, all: bool)

  const NO_EDIT := Edit(None, false)

  /** One event of a conversation about the task: the handler runs on a message, with the options and the
      deletable objects (None when they cannot be listed) as they are then; or the model puts a question
      of its own, which counts as having asked for confirmation once nothing required is missing; or it says
      the task is done when it is not, and is corrected, which asks nothing. */
  datatype Event =
    | Message(text: string, options: seq<Choice>, edit: Edit, deletable: Option<seq<string>>, now: int)
    | OwnQuestion(edit: Edit, now: int)
    | Remark(edit: Edit, now: int)

  datatype Outcome =
    | NoTarget
    | Gone
    | Unspecified
    | NotListed
    | NothingToDelete
    | AskedForOne(target: Entity)
    | AskedForAll(ids: seq<string>)
    | AskedFreely
    | Chatted
    | StillWaiting
    | Ran(ids: seq<string>)

  // ---- Replies ----

  const YES: seq<string> :=
    ["\U{662F}", "\U{597D}", "\U{597D}\U{7684}", "\U{786E}\U{8BA4}", "\U{786E}\U{8BA4}\U{542F}\U{52A8}",
     "\U{786E}\U{8BA4}\U{521B}\U{5EFA}", "\U{8981}", "\U{542F}\U{52A8}", "\U{5F00}\U{59CB}", "yes", "y", "ok",
     "confirm", "go ahead"]

  const ALL_WORDS: seq<string> :=
    ["\U{5168}\U{90E8}", "\U{6240}\U{6709}", "\U{5168}\U{90FD}", "\U{5168}\U{90E8}\U{7B56}\U{7565}",
     "\U{6240}\U{6709}\U{7B56}\U{7565}",
     "\U{5168}\U{90E8}\U{5220}\U{9664}", "\U{5168}\U{90E8}\U{5220}\U{6389}", "\U{5168}\U{90E8}\U{5220}\U{4E86}",
     "\U{5168}\U{5220}",
     "\U{5168}\U{5220}\U{4E86}", "\U{90FD}\U{5220}", "\U{90FD}\U{5220}\U{4E86}", "\U{5168}\U{6E05}",
     "\U{5168}\U{6E05}\U{6389}",
     "all", "all strategies", "every strategy"]

  /** isYesReply */
  predicate IsYes(text: string, lib: Lib) {
    lib.lower(Trim(text)) in YES
  }

  /** textMeansAllTargets */
  predicate MeansAll(text: string, lib: Lib) {
    exists i :: 0 <= i < |ALL_WORDS| && Contains(lib.lower(Trim(text)), ALL_WORDS[i])
  }

  /** A text means all iff one of eight short words occurs in it: every longer word for all has one inside. */
  lemma {:induction false} AllInEightWords(text: string, lib: Lib)
    ensures var s := lib.lower(Trim(text));
            MeansAll(text, lib)
            <==> || Contains(s, "\U{5168}\U{90E8}") || Contains(s, "\U{6240}\U{6709}")
                 || Contains(s, "\U{5168}\U{90FD}")
                  || Contains(s, "\U{5168}\U{5220}") || Contains(s, "\U{90FD}\U{5220}")
                     || Contains(s, "\U{5168}\U{6E05}")
                  || Contains(s, "all") || Contains(s, "every strategy")
  {
    var s := lib.lower(Trim(text));
    ShortWords();
    hide Contains, Trim, ALL_WORDS;
    if MeansAll(text, lib) {
      var i :| 0 <= i < |ALL_WORDS| && Contains(s, ALL_WORDS[i]);
      ContainsBeginning(s, ALL_WORDS[i], ALL_WORDS[ShorterWord(i)]);
    }
  }

  lemma {:induction false} ShortWords()
    ensures |ALL_WORDS| == 17
    ensures ALL_WORDS[0] == "\U{5168}\U{90E8}" && ALL_WORDS[1] == "\U{6240}\U{6709}"
    ensures ALL_WORDS[2] == "\U{5168}\U{90FD}" && ALL_WORDS[8] == "\U{5168}\U{5220}"
    ensures ALL_WORDS[10] == "\U{90FD}\U{5220}" && ALL_WORDS[12] == "\U{5168}\U{6E05}"
    ensures ALL_WORDS[14] == "all" && ALL_WORDS[16] == "every strategy"
  {
  }

  /** The place of the short word that the word at place `i` begins with. */
  function ShorterWord(i: nat): (j: nat)
    requires i < |ALL_WORDS|
    ensures j in {0, 1, 2, 8, 10, 12, 14, 16} && ALL_WORDS[j] <= ALL_WORDS[i]
  {
    if i in {0, 3, 5, 6, 7} then 0 else if i in {1, 4} then 1 else if i in {8, 9} then 8
    else if i in {10, 11} then 10 else if i in {12, 13} then 12 else if i in {14, 15} then 14 else i
  }

  lemma {:induction false} ContainsBeginning(s: string, word: string, start: string)
    requires Contains(s, word) && start <= word
    ensures Contains(s, start)
  {
    var k :| 0 <= k <= |s| && word <= s[k..];
    assert start <= s[k..];
  }

  /** What every word for "all" begins with. */
  predicate AllStart(s: string) {
    && |s| >= 2
    && (s[0] in {'\U{5168}', '\U{6240}', '\U{90FD}'} || (s[0] == 'a' && s[1] == 'l') || (s[0] == 'e' && s[1] == 'v'))
  }

  /** A yes never means all. */
  lemma {:induction false} YesIsNotAll(text: string, lib: Lib)
    requires IsYes(text, lib)
    ensures !MeansAll(text, lib)
  {
    var s := lib.lower(Trim(text));
    forall k | 0 <= k <= |s| ensures !AllStart(s[k..]) {
      YesHasNoStart(s, k);
    }
    forall i | 0 <= i < |ALL_WORDS| ensures AllStart(ALL_WORDS[i]) {
      AllWordsStart(i);
    }
    hide YES, ALL_WORDS;
    forall i, k | 0 <= i < |ALL_WORDS| && 0 <= k <= |s| ensures !(ALL_WORDS[i] <= s[k..]) {
      NotBegun(ALL_WORDS[i], s[k..]);
    }
  }

  lemma {:induction false} NotBegun(w: string, s: string)
    requires AllStart(w) && !AllStart(s)
    ensures !(w <= s)
  {
    assert !(|w| <= |s| && w[0] == s[0] && w[1] == s[1]);
  }

  lemma {:induction false} AllWordsStart(i: nat)
    requires i < |ALL_WORDS|
    ensures AllStart(ALL_WORDS[i])
  {
  }

  lemma {:induction false} YesHasNoStart(s: string, k: nat)
    requires s in YES && k <= |s|
    ensures !AllStart(s[k..])
  {
    var j :| 0 <= j < |YES| && YES[j] == s;
    assert |s| - k >= 1 ==> s[k..][0] == s[k];
    assert |s| - k >= 2 ==> s[k..][1] == s[k + 1];
    assert k < |s| ==> s[k] !in {'\U{5168}', '\U{6240}', '\U{90FD}'};
    assert k + 1 < |s| ==> !(s[k] == 'a' && s[k + 1] == 'l') && !(s[k] == 'e' && s[k + 1] == 'v');
  }

  // ---- One turn ----

  function Begin(stored: Option<Session>): Session {
    if stored == None then NEW_SESSION else stored.value
  }

  function Edited(s: Session, e: Edit, task: Task): Session {
    s.(target := OrElse(e.target, s.target), all := s.all || (e.all && Bulkable(task)))
  }

  /** saveSkillSession normalises what it stores. */
  function Saved(s: Session, now: int): Option<Session> {
    Some(s.(target := NormalEntityRef(s.target, now)))
  }

  /** beginConfirmationIfNeeded, then awaitingConfirmationButNotApproved, then the tool. */
  function Confirm(s: Session, question: Outcome, ids: seq<string>, m: Event, lib: Lib): (Option<Session>, Outcome)
    requires m.Message?
  {
    if !s.awaiting then (Saved(s.(awaiting := true), m.now), question)
    else if !IsYes(m.text, lib) then (Saved(s, m.now), StillWaiting)
    else (None, Ran(ids))
  }

  /** execute…ManagementAction; `before` is what was saved before the handler ran. */
  function Execute(before: Session, s: Session, task: Task, m: Event, lib: Lib): (Option<Session>, Outcome)
    requires m.Message?
  {
    var s1 := if s.step == NoStep then s.(step := AwaitConfirmation) else s;
    if Bulkable(task) && s.all then
      match m.deletable
      case None => (Saved(before, m.now), NotListed)
      case Some(ids) => if ids == [] then (None, NothingToDelete) else Confirm(s1, AskedForAll(ids), ids, m, lib)
    else if s.target == None then (Saved(before, m.now), Unspecified)
    else Confirm(s1, AskedForOne(s.target.value), [s.target.value.id], m, lib)
  }

  /** handleSimpleEntitySkill */
  function Handle(stored: Option<Session>, task: Task, m: Event, lib: Lib): (Option<Session>, Outcome)
    requires m.Message?
  {
    var before := Edited(Begin(stored), m.edit, task);
    var s0 := if Bulkable(task) && MeansAll(m.text, lib) then before.(all := true, target := None) else before;
    var resolving := s0.step != AwaitConfirmation;
    var s1 := if resolving then s0.(target := OrElse(Resolve(m.text, m.options, s0.target, lib), s0.target)) else s0;
    if resolving && s1.target == None && !(Bulkable(task) && s1.all) then
        (Saved(s1.(step := ResolveTarget), m.now), NoTarget)
    else
      Checked(before, if s1.step == ResolveTarget then s1.(step := AwaitConfirmation) else s1, task, m, lib)
  }

  /** The part from ensureLiveTargetReference on. */
  function Checked(before: Session, s: Session, task: Task, m: Event, lib: Lib): (Option<Session>, Outcome)
    requires m.Message?
  {
    var live := if s.target == None then None else EnsureLive(s.target.value, m.options, lib);
    if s.target.Some? && live == None then (Saved(s.(target := None), m.now), Gone)
    else Execute(before, s.(target := live), task, m, lib)
  }

  /** missingRequiredFields finds none: all of them need a target but the deletion of traders. */
  predicate Complete(task: Task, s: Session) {
    task.DeleteTrader? || s.all
        || (s.target.Some? && (Trim(s.target.value.id) != "" || Trim(s.target.value.name) != ""))
  }

  /** The model's own question, in driveActiveSession. */
  function AskOwn(stored: Option<Session>, task: Task, e: Event): (Option<Session>, Outcome)
    requires e.OwnQuestion?
  {
    var s := Edited(Begin(stored), e.edit, task);
    if Complete(task, s) then (Saved(s.(awaiting := true), e.now), AskedFreely) else (Saved(s, e.now), Chatted)
  }

  function Next(stored: Option<Session>, task: Task, e: Event, lib: Lib): (Option<Session>, Outcome) {
    match e
    case Message(_, _, _, _, _) => Handle(stored, task, e, lib)
    case OwnQuestion(_, _) => AskOwn(stored, task, e)
    case Remark(edit, now) => (Saved(Edited(Begin(stored), edit, task), now), Chatted)
  }

  class Flow {
    const task: Task
    var stored: Option<Session>

    constructor (t: Task)
      ensures task == t && stored == None
    {
      task, stored := t, None;
    }

    method Save(s: Session, now: int)
      modifies this
      ensures stored == Saved(s, now)
    {
      stored := Some(s.(target := NormalEntityRef(s.target, now)));
    }

    method HandleMessage(m: Event, lib: Lib) returns (o: Outcome)
      requires m.Message?
      modifies this
      ensures (stored, o) == Handle(old(stored), task, m, lib)
    {
      hide Resolve, EnsureLive, MeansAll, IsYes, NormalEntityRef;
      var session := Edited(Begin(stored), m.edit, task);
      Save(session, m.now);
      ghost var before := session;
      if Bulkable(task) && MeansAll(m.text, lib) {
        session := session.(all := true, target := None);
      }
      if session.step != AwaitConfirmation {
        var resolved := Resolve(m.text, m.options, session.target, lib);
        if resolved.Some? {
          session := session.(target := resolved);
        }
        if session.target == None && !(Bulkable(task) && session.all) {
          Save(session.(step := ResolveTarget), m.now);
          return NoTarget;
        }
        if session.step == ResolveTarget {
          session := session.(step := AwaitConfirmation);
        }
      }
      if session.target.Some? {
        session := session.(target := EnsureLive(session.target.value, m.options, lib));
        if session.target == None {
          Save(session, m.now);
          return Gone;
        }
      }
      o := Act(before, session, m, lib);
    }

    method Act(ghost before: Session, s: Session, m: Event, lib: Lib) returns (o: Outcome)
      requires m.Message? && stored == Saved(before, m.now)
      modifies this
      ensures (stored, o) == Execute(before, s, task, m, lib)
    {
      hide IsYes, NormalEntityRef;
      var session := s;
      var bulk := Bulkable(task) && s.all;
      if s.target == None && !bulk {
        return Unspecified;
      }
      if session.step == NoStep {
        session := session.(step := AwaitConfirmation);
      }
      var ids := [];
      if bulk {
        if m.deletable == None {
          return NotListed;
        }
        ids := m.deletable.value;
        if ids == [] {
          stored := None;
          return NothingToDelete;
        }
      } else {
        ids := [s.target.value.id];
      }
      if !session.awaiting {
        Save(session.(awaiting := true), m.now);
        return if bulk then AskedForAll(ids) else AskedForOne(s.target.value);
      }
      if !IsYes(m.text, lib) {
        Save(session, m.now);
        return StillWaiting;
      }
      stored := None;
      return Ran(ids);
    }
  }

  // ---- Whole conversations ----

  function After(task: Task, events: seq<Event>, lib: Lib): Option<Session> {
    if events == [] then None
    else Next(After(task, events[..|events| - 1], lib), task, events[|events| - 1], lib).0
  }

  /** What the events of a conversation led to, one by one. */
  function Outcomes(task: Task, events: seq<Event>, lib: Lib): (outs: seq<Outcome>)
    ensures |outs| == |events|
  {
    if events == [] then []
    else
      var last := |events| - 1;
      Outcomes(task, events[..last], lib) + [Next(After(task, events[..last], lib), task, events[last], lib).1]
  }

  predicate Asked(o: Outcome) {
    o.AskedForOne? || o.AskedForAll? || o.AskedFreely?
  }

  predicate Ended(o: Outcome) {
    o.Ran? || o.NothingToDelete?
  }

  /** A question was put and the session has not ended since. */
  predicate Pending(outs: seq<Outcome>) {
    exists j :: 0 <= j < |outs| && AskedAt(outs, j)
  }

  predicate AskedAt(outs: seq<Outcome>, j: nat)
    requires j < |outs|
  {
    Asked(outs[j]) && forall k :: j < k < |outs| ==> !Ended(outs[k])
  }

  predicate IsAwaiting(stored: Option<Session>) {
    stored.Some? && stored.value.awaiting
  }

  /** What a turn from a session that waits, or does not, may lead to. */
  predicate StepFrom(waiting: bool, next: Option<Session>, o: Outcome) {
    && (IsAwaiting(next) <==> Asked(o) || (waiting && !Ended(o)))
    && (Ended(o) <==> next == None)
    && (o.Ran? ==> waiting)
  }

  lemma {:induction false} ExecuteSteps(before: Session, s: Session, task: Task, m: Event, lib: Lib)
    requires m.Message? && before.awaiting == s.awaiting
    ensures var (next, o) := Execute(before, s, task, m, lib);
            StepFrom(s.awaiting, next, o) && (o.Ran? ==> IsYes(m.text, lib))
  {
    hide IsYes, NormalEntityRef;
  }

  lemma {:induction false} CheckedSteps(before: Session, s: Session, task: Task, m: Event, lib: Lib)
    requires m.Message? && before.awaiting == s.awaiting
    ensures var (next, o) := Checked(before, s, task, m, lib);
            StepFrom(s.awaiting, next, o) && (o.Ran? ==> IsYes(m.text, lib))
  {
    var live := if s.target == None then None else EnsureLive(s.target.value, m.options, lib);
    ExecuteSteps(before, s.(target := live), task, m, lib);
    hide Execute, EnsureLive, IsYes, NormalEntityRef;
  }

  lemma {:induction false} HandleSteps(stored: Option<Session>, task: Task, m: Event, lib: Lib)
    requires m.Message?
    ensures var (next, o) := Handle(stored, task, m, lib);
            StepFrom(IsAwaiting(stored), next, o) && (o.Ran? ==> IsYes(m.text, lib))
  {
    forall before: Session, s: Session | before.awaiting == s.awaiting
      ensures var (next, o) := Checked(before, s, task, m, lib);
              StepFrom(s.awaiting, next, o) && (o.Ran? ==> IsYes(m.text, lib))
    {
      CheckedSteps(before, s, task, m, lib);
    }
    hide Checked, Resolve, MeansAll, IsYes, NormalEntityRef;
  }

  lemma {:induction false} OneStep(stored: Option<Session>, task: Task, e: Event, lib: Lib)
    ensures var (next, o) := Next(stored, task, e, lib);
            StepFrom(IsAwaiting(stored), next, o) && (o.Ran? ==> e.Message? && IsYes(e.text, lib))
  {
    if e.Message? {
      HandleSteps(stored, task, e, lib);
    }
    hide Handle, IsYes, NormalEntityRef;
  }

  lemma {:induction false} OutcomesOfPrefix(task: Task, events: seq<Event>, n: nat, lib: Lib)
    requires n < |events|
    ensures Outcomes(task, events, lib)[..n] == Outcomes(task, events[..n], lib)
    ensures Outcomes(task, events, lib)[n] == Next(After(task, events[..n], lib), task, events[n], lib).1
    decreases |events|
  {
    hide Next, After;
    var last := |events| - 1;
    if n < last {
      OutcomesOfPrefix(task, events[..last], n, lib);
      assert events[..last][..n] == events[..n];
      assert Outcomes(task, events, lib)[..n] == Outcomes(task, events[..last], lib)[..n];
    }
  }

  lemma {:induction false} PendingStep(outs: seq<Outcome>, o: Outcome)
    ensures Pending(outs + [o]) <==> Asked(o) || (Pending(outs) && !Ended(o))
  {
    var all := outs + [o];
    hide Asked, Ended;
    assert all[|outs|] == o;
    forall j | 0 <= j < |outs| ensures AskedAt(all, j) <==> AskedAt(outs, j) && !Ended(o) {
      assert forall k :: j < k < |outs| ==> all[k] == outs[k];
    }
    if Asked(o) {
      assert AskedAt(all, |outs|);
    }
  }

  /** The saved phase says exactly whether a question is pending. */
  lemma {:induction false} AwaitingIsPending(task: Task, events: seq<Event>, lib: Lib)
    ensures IsAwaiting(After(task, events, lib)) <==> Pending(Outcomes(task, events, lib))
  {
    if events != [] {
      var last := |events| - 1;
      AwaitingIsPending(task, events[..last], lib);
      OneStep(After(task, events[..last], lib), task, events[last], lib);
      PendingStep(Outcomes(task, events[..last], lib),
          Next(After(task, events[..last], lib), task, events[last], lib).1);
      hide Next, Pending, Asked, Ended;
    }
  }

  /** In every conversation, whatever the model reads into the messages, a tool runs only on an exact yes
      to a question put earlier, and one question is good for one run. */
  lemma {:induction false} ConfirmedOnly(task: Task, events: seq<Event>, i: nat, lib: Lib)
    requires i < |events| && Outcomes(task, events, lib)[i].Ran?
    ensures events[i].Message? && IsYes(events[i].text, lib) && Pending(Outcomes(task, events, lib)[..i])
  {
    OutcomesOfPrefix(task, events, i, lib);
    OneStep(After(task, events[..i], lib), task, events[i], lib);
    AwaitingIsPending(task, events[..i], lib);
    hide Next, Pending, IsYes, After;
  }

  predicate AskedByHandler(o: Outcome) {
    o.AskedForOne? || o.AskedForAll?
  }

  /** The question with which the session began to wait. */
  predicate FirstAsked(outs: seq<Outcome>, j: nat)
    requires j < |outs|
  {
    AskedAt(outs, j) && forall k :: 0 <= k < j ==> !AskedAt(outs, k)
  }

  /** In every conversation: the handler has itself asked for the confirmation of a run, in the session that
      runs, if and only if the first question of that session was put on a message, not by the model on its
      own. Later questions of the model's, and those that found something missing, do no harm. */
  lemma {:induction false} HandlerAsked(task: Task, events: seq<Event>, i: nat, lib: Lib)
    requires i < |events| && Outcomes(task, events, lib)[i].Ran?
    ensures var outs := Outcomes(task, events, lib)[..i];
            && (exists j :: 0 <= j < i && FirstAsked(outs, j))
            && (forall j :: 0 <= j < i && FirstAsked(outs, j) ==>
                  ((exists k :: 0 <= k < i && AskedAt(outs, k) && AskedByHandler(outs[k])) <==> events[j].Message?))
  {
    ConfirmedOnly(task, events, i, lib);
    var outs := Outcomes(task, events, lib)[..i];
    hide Ended, IsYes, Asked, AskedByHandler, FirstAsked, AskedAt, Outcomes;
    var first :| 0 <= first < |outs| && AskedAt(outs, first);
    FirstUpTo(outs, first);
    forall j | 0 <= j < i && FirstAsked(outs, j)
      ensures (exists k :: 0 <= k < i && AskedAt(outs, k) && AskedByHandler(outs[k])) <==> events[j].Message?
    {
      FirstByHandler(task, events, i, j, lib);
    }
  }

  lemma {:induction false} FirstUpTo(outs: seq<Outcome>, j: nat)
    requires j < |outs| && AskedAt(outs, j)
    ensures exists f :: 0 <= f < |outs| && FirstAsked(outs, f)
  {
    hide AskedAt;
    if k: nat :| k < j && AskedAt(outs, k) {
      FirstUpTo(outs, k);
    } else {
      assert FirstAsked(outs, j);
    }
  }

  lemma {:induction false} FirstByHandler(task: Task, events: seq<Event>, i: nat, j: nat, lib: Lib)
    requires j < i < |events| && FirstAsked(Outcomes(task, events, lib)[..i], j)
    ensures var outs := Outcomes(task, events, lib)[..i];
            (exists k :: 0 <= k < i && AskedAt(outs, k) && AskedByHandler(outs[k])) <==> events[j].Message?
  {
    var outs := Outcomes(task, events, lib)[..i];
    OutcomesOfPrefix(task, events, j, lib);
    WhoAsks(After(task, events[..j], lib), task, events[j], lib);
    forall k | 0 <= k < i && AskedAt(outs, k) && AskedByHandler(outs[k]) ensures FirstAsked(outs, k) {
      HandlerIsFirst(task, events, i, k, lib);
    }
    hide Next, Ended, After, Outcomes;
    if events[j].Message? {
      assert AskedAt(outs, j) && AskedByHandler(outs[j]);
    }
  }

  /** The handler asks only while no question is open. */
  lemma {:induction false} HandlerIsFirst(task: Task, events: seq<Event>, i: nat, k: nat, lib: Lib)
    requires k < i < |events|
    requires var outs := Outcomes(task, events, lib)[..i]; AskedAt(outs, k) && AskedByHandler(outs[k])
    ensures FirstAsked(Outcomes(task, events, lib)[..i], k)
  {
    var outs := Outcomes(task, events, lib)[..i];
    OutcomesOfPrefix(task, events, k, lib);
    AwaitingIsPending(task, events[..k], lib);
    WhoAsks(After(task, events[..k], lib), task, events[k], lib);
    hide Next, After, Asked, Ended, Outcomes;
    forall m | 0 <= m < k ensures AskedAt(outs, m) ==> AskedAt(outs[..k], m) {
      AskedInPrefix(outs, k, m);
    }
    assert outs[..k] == Outcomes(task, events[..k], lib);
  }

  lemma {:induction false} AskedInPrefix(outs: seq<Outcome>, n: nat, m: nat)
    requires m < n <= |outs|
    ensures AskedAt(outs, m) ==> AskedAt(outs[..n], m)
  {
    hide Asked, Ended;
  }

  /** A message is asked about only by the handler, and only while no question is open; the model's own
      question counts as one exactly when it finds nothing required missing. */
  lemma {:induction false} WhoAsks(stored: Option<Session>, task: Task, e: Event, lib: Lib)
    ensures var o := Next(stored, task, e, lib).1;
            && (AskedByHandler(o) ==> e.Message? && !IsAwaiting(stored))
            && (o.AskedFreely?
                <==> && e.OwnQuestion?
                     && var s := Edited(Begin(stored), e.edit, task);
                     || task == DeleteTrader || s.all
                     || (s.target.Some? && (Trim(s.target.value.id) != "" || Trim(s.target.value.name) != "")))
  {
    if e.Message? {
      MessageAsks(stored, task, e, lib);
    }
    hide Handle, NormalEntityRef, Trim;
  }

  lemma {:induction false} MessageAsks(stored: Option<Session>, task: Task, m: Event, lib: Lib)
    requires m.Message?
    ensures var o := Handle(stored, task, m, lib).1;
            !o.AskedFreely? && (AskedByHandler(o) ==> !IsAwaiting(stored))
  {
    hide Resolve, EnsureLive, MeansAll, IsYes, NormalEntityRef;
  }

  /** A question of the model's own is enough: after it, in whatever words it was put, a yes runs though the
      handler never asked. */
  lemma {:induction false} OwnQuestionSuffices(task: Task, e: Entity, now: int, yes: Event, lib: Lib)
    requires yes.Message? && yes.edit == NO_EDIT && IsYes(yes.text, lib)
    requires Trim(e.id) != "" || Trim(e.name) != ""
    requires Resolve(yes.text, yes.options, NormalEntityRef(Some(e), now), lib).Some?
    requires EnsureLive(Resolve(yes.text, yes.options, NormalEntityRef(Some(e), now), lib).value,
             yes.options, lib).Some?
    ensures var outs := Outcomes(task, [OwnQuestion(Edit(Some(e), false), now), yes], lib);
            && outs[0] == AskedFreely
            && outs[1] == Ran([EnsureLive(Resolve(yes.text, yes.options, NormalEntityRef(Some(e), now), lib).value,
               yes.options, lib).value.id])
  {
    hide Handle, AskOwn, Resolve, EnsureLive, NormalEntityRef, IsYes, MeansAll;
    var events := [OwnQuestion(Edit(Some(e), false), now), yes];
    YesIsNotAll(yes.text, lib);
    OutcomesOfPrefix(task, events, 0, lib);
    OutcomesOfPrefix(task, events, 1, lib);
    assert events[..0] == [] && events[..1] == [events[0]] && [events[0]][..0] == [];
    var s := Session(NormalEntityRef(Some(e), now), NoStep, true, false);
    FreelyAsked(task, e, now, lib);
    assert After(task, events[..1], lib) == Some(s);
    hide Next;
    ResolvedRuns(s, task, yes, lib);
  }

  lemma {:induction false} FreelyAsked(task: Task, e: Entity, now: int, lib: Lib)
    requires Trim(e.id) != "" || Trim(e.name) != ""
    ensures Next(None, task, OwnQuestion(Edit(Some(e), false), now), lib)
            == (Some(Session(NormalEntityRef(Some(e), now), NoStep, true, false)), AskedFreely)
  {
    hide NormalEntityRef;
  }

  lemma {:induction false} ResolvedRuns(s: Session, task: Task, yes: Event, lib: Lib)
    requires yes.Message? && yes.edit == NO_EDIT && IsYes(yes.text, lib) && !MeansAll(yes.text, lib)
    requires s.awaiting && s.step == NoStep && !s.all && Resolve(yes.text, yes.options, s.target, lib).Some?
    requires EnsureLive(Resolve(yes.text, yes.options, s.target, lib).value, yes.options, lib).Some?
    ensures Next(Some(s), task, yes, lib).1
            == Ran([EnsureLive(Resolve(yes.text, yes.options, s.target, lib).value, yes.options, lib).value.id])
  {
    hide Resolve, EnsureLive, MeansAll, IsYes, NormalEntityRef;
  }

  /** One live object, or everything that can be deleted. */
  predicate OnLive(o: Outcome, task: Task, m: Event)
    requires m.Message?
  {
    o.Ran? ==> (|o.ids| == 1 && IdAmong(o.ids[0], m.options))
               || (Bulkable(task) && m.deletable == Some(o.ids) && o.ids != [])
  }

  lemma {:induction false} CheckedOnLive(before: Session, s: Session, task: Task, m: Event, lib: Lib)
    requires m.Message?
    ensures OnLive(Checked(before, s, task, m, lib).1, task, m)
  {
    hide EnsureLive, IsYes, NormalEntityRef, IdAmong;
    if s.target.Some? {
      LiveIsOption(s.target.value, m.options, lib);
    }
  }

  /** A run on one target acts on an object that is there, one on all on what can be deleted there and then. */
  lemma {:induction false} RunsOnLiveTargets(stored: Option<Session>, task: Task, m: Event, lib: Lib)
    requires m.Message? && Next(stored, task, m, lib).1.Ran?
    ensures var ids := Next(stored, task, m, lib).1.ids;
            (|ids| == 1 && IdAmong(ids[0], m.options))
                || ((task == DeleteTrader || task == DeleteStrategy) && m.deletable == Some(ids) && ids != [])
  {
    hide Checked, Resolve, MeansAll, IsYes, NormalEntityRef, IdAmong;
    forall before: Session, s: Session ensures OnLive(Checked(before, s, task, m, lib).1, task, m) {
      CheckedOnLive(before, s, task, m, lib);
    }
  }

  /** While no object is remembered and the model has named none, a text that no option bears and that overlaps
      with two of them names nothing: nothing is asked about and nothing runs. */
  lemma {:induction false} AmbiguousAsksNothing(stored: Option<Session>, task: Task, m: Event, i: nat, j: nat, lib: Lib)
    requires m.Message? && m.edit.target == None && Begin(stored).target == None
    requires Bulkable(task) ==> !Begin(stored).all && !m.edit.all && !MeansAll(m.text, lib)
    requires forall o :: o in m.options ==> !Bears(o, Trim(m.text), lib)
    requires i < j < |m.options| && var q := lib.lower(Trim(m.text));
             Overlaps(m.options[i], q, lib) && Overlaps(m.options[j], q, lib)
    ensures var o := Next(stored, task, m, lib).1;
            o == if Begin(stored).step == AwaitConfirmation then Unspecified else NoTarget
  {
    Ambiguous(m.text, m.options, i, j, lib);
    hide Resolve, MeansAll, IsYes, EnsureLive, NormalEntityRef, Bears, Overlaps, Trim;
  }

  lemma {:induction false} Ambiguous(text: string, options: seq<Choice>, i: nat, j: nat, lib: Lib)
    requires forall o :: o in options ==> !Bears(o, Trim(text), lib)
    requires i < j < |options| && var q := lib.lower(Trim(text));
             Overlaps(options[i], q, lib) && Overlaps(options[j], q, lib)
    ensures Resolve(text, options, None, lib) == None
  {
    ResolvesInOrder(text, options, None, lib);
    forall o ensures !Names(options, text, o, lib) {
      hide Bears, Overlaps, Trim;
    }
    hide Resolve, Names, Trim, Overlaps, Bears;
  }

  // ---- The same target ----

  /** The session waits for a yes to acting on the object with this id, and on that one alone. */
  predicate Holding(stored: Option<Session>, task: Task, id: string) {
    && stored.Some? && stored.value.awaiting && stored.value.step == AwaitConfirmation
       && !(Bulkable(task) && stored.value.all)
    && stored.value.target.Some? && stored.value.target.value.id == Trim(id)
  }

  /** A message the model reads nothing into, that does not say "all" where that means something. */
  predicate Plain(task: Task, m: Event, lib: Lib) {
    m.Message? && m.edit == NO_EDIT && !(Bulkable(task) && MeansAll(m.text, lib))
  }

  lemma {:induction false} QuestionHolds(stored: Option<Session>, task: Task, m: Event, lib: Lib)
    requires m.Message? && Next(stored, task, m, lib).1.AskedForOne?
    requires Trim(Next(stored, task, m, lib).1.target.id) != ""
    ensures Holding(Next(stored, task, m, lib).0, task, Next(stored, task, m, lib).1.target.id)
  {
    hide Resolve, EnsureLive, MeansAll, IsYes, Trim;
  }

  lemma {:induction false} FindTrims(options: seq<Choice>, id: string, lib: Lib)
    ensures Find(options, Trim(id), lib) == Find(options, id, lib)
  {
    assert Trim(Trim(id)) == Trim(id);
    hide Trim, FirstMatch;
  }

  lemma {:induction false} LiveHeld(e: Entity, options: seq<Choice>, id: string, now: int, lib: Lib)
    requires e.id == Trim(id) && Steady(options, id, lib)
    ensures var live := EnsureLive(e, options, lib); live.Some? && live.value.id == id
    ensures var kept := NormalEntityRef(EnsureLive(e, options, lib), now); kept.Some? && kept.value.id == Trim(id)
  {
    FindTrims(options, id, lib);
    assert Trim(id) != "";
    hide Trim, Find, FindContaining;
  }

  /** What a message does to a held session: nothing but looking the target up and asking for the yes. */
  lemma {:induction false} HandleHeld(stored: Option<Session>, task: Task, m: Event, id: string, lib: Lib)
    requires Holding(stored, task, id) && m.Message? && m.edit == NO_EDIT && !(Bulkable(task) && MeansAll(m.text, lib))
    ensures var live := EnsureLive(stored.value.target.value, m.options, lib);
            Next(stored, task, m, lib)
            == if live == None then (Saved(stored.value.(target := None), m.now), Gone)
               else if IsYes(m.text, lib) then (None, Ran([live.value.id]))
               else (Saved(stored.value.(target := live), m.now), StillWaiting)
  {
    hide Resolve, MeansAll, IsYes, Trim, EnsureLive, NormalEntityRef;
  }

  /** Under a steady id the next plain message either waits or runs on exactly the object asked about. */
  lemma {:induction false} HeldTarget(stored: Option<Session>, task: Task, m: Event, id: string, lib: Lib)
    requires Holding(stored, task, id) && m.Message? && m.edit == NO_EDIT && (IsYes(m.text, lib) || Plain(task, m, lib))
    requires Steady(m.options, id, lib)
    ensures var (next, o) := Next(stored, task, m, lib);
            if IsYes(m.text, lib) then o == Ran([id]) && next == None else o == StillWaiting && Holding(next, task, id)
  {
    if IsYes(m.text, lib) {
      YesIsNotAll(m.text, lib);
    }
    LiveHeld(stored.value.target.value, m.options, id, m.now, lib);
    HandleHeld(stored, task, m, id, lib);
    hide Next, MeansAll, IsYes, Trim, EnsureLive, Steady, NormalEntityRef;
  }

  /** From a question about one object, as long as the options stay the same, the model reads nothing into
      the messages and none says "all", every message waits until the first yes, which runs on that object. */
  lemma {:induction false} SameTarget(task: Task, stored: Option<Session>, messages: seq<Event>, options: seq<Choice>,
      id: string, lib: Lib)
    requires Holding(stored, task, id) && Steady(options, id, lib) && messages != []
    requires forall k :: 0 <= k < |messages| ==>
             messages[k].Message? && messages[k].options == options && messages[k].edit == NO_EDIT
    requires forall k :: 0 <= k < |messages| - 1 ==> Plain(task, messages[k], lib) && !IsYes(messages[k].text, lib)
    requires IsYes(messages[|messages| - 1].text, lib)
    ensures forall k :: 0 <= k < |messages| - 1 ==> OutcomeFrom(stored, task, messages, k, lib) == StillWaiting
    ensures OutcomeFrom(stored, task, messages, |messages| - 1, lib) == Ran([id])
  {
    var last := |messages| - 1;
    forall k | 0 <= k <= last ensures Holding(From(stored, task, messages[..k], lib), task, id) {
      StillHolding(task, stored, messages, options, id, k, lib);
    }
    forall k | 0 <= k <= last
      ensures OutcomeFrom(stored, task, messages, k, lib) == if k == last then Ran([id]) else StillWaiting
    {
      HeldTarget(From(stored, task, messages[..k], lib), task, messages[k], id, lib);
      hide Next, Holding, Steady, IsYes, From;
    }
  }

  function From(stored: Option<Session>, task: Task, events: seq<Event>, lib: Lib): Option<Session> {
    if events == [] then stored
    else Next(From(stored, task, events[..|events| - 1], lib), task, events[|events| - 1], lib).0
  }

  function OutcomeFrom(stored: Option<Session>, task: Task, events: seq<Event>, k: nat, lib: Lib): Outcome
    requires k < |events|
  {
    Next(From(stored, task, events[..k], lib), task, events[k], lib).1
  }

  lemma {:induction false} StillHolding(task: Task, stored: Option<Session>, messages: seq<Event>, options: seq<Choice>,
      id: string, k: nat, lib: Lib)
    requires Holding(stored, task, id) && Steady(options, id, lib) && k < |messages|
    requires forall k :: 0 <= k < |messages| ==>
             messages[k].Message? && messages[k].options == options && messages[k].edit == NO_EDIT
    requires forall k :: 0 <= k < |messages| - 1 ==> Plain(task, messages[k], lib) && !IsYes(messages[k].text, lib)
    ensures Holding(From(stored, task, messages[..k], lib), task, id)
  {
    hide Next, Holding, Steady, IsYes, Plain;
    if k > 0 {
      StillHolding(task, stored, messages, options, id, k - 1, lib);
      HeldTarget(From(stored, task, messages[..k - 1], lib), task, messages[k - 1], id, lib);
      assert messages[..k][..k - 1] == messages[..k - 1] && messages[..k][k - 1] == messages[k - 1];
    }
  }

  /** An immediate yes over unchanged options runs on the object asked about exactly when its id is steady. */
  lemma {:induction false} YesRunsAsked(stored: Option<Session>, task: Task, m: Event, id: string, lib: Lib)
    requires Holding(stored, task, id) && Trimmed(id) && id != "" && m.Message? && m.edit == NO_EDIT
             && IsYes(m.text, lib)
    requires IdAmong(id, m.options)
    ensures Next(stored, task, m, lib).1 == Ran([id]) <==> Steady(m.options, id, lib)
  {
    YesIsNotAll(m.text, lib);
    var e := stored.value.target.value;
    LiveById(e, m.options, id, lib);
    HandleHeld(stored, task, m, id, lib);
    hide Next, MeansAll, IsYes, Trim, EnsureLive, Steady, NormalEntityRef;
  }

  lemma {:induction false} LiveById(e: Entity, options: seq<Choice>, id: string, lib: Lib)
    requires e.id == Trim(id) && Trimmed(id) && id != "" && IdAmong(id, options)
    ensures var live := EnsureLive(e, options, lib); live.Some? && (live.value.id == id <==> Steady(options, id, lib))
  {
    FirstMatchIsFirst(options, id, lib);
    assert Trim(id) == id;
    hide Trim, FindContaining, FirstMatch;
  }

  /** Saying "all" while the question about one object is open moves the session to every object: the next
      yes deletes whatever can be deleted then, though nothing but the one object was asked about. */
  lemma {:induction false} AllSwitchesScope(stored: Option<Session>, task: Task, id: string, m: Event,
      yes: Event, lib: Lib)
    requires Holding(stored, task, id) && (task == DeleteTrader || task == DeleteStrategy)
    requires m.Message? && m.edit == NO_EDIT && MeansAll(m.text, lib) && m.deletable.Some? && m.deletable.value != []
    requires yes.Message? && yes.edit == NO_EDIT && IsYes(yes.text, lib) && yes.deletable.Some?
             && yes.deletable.value != []
    ensures var (next, o) := Next(stored, task, m, lib);
            o == StillWaiting && Next(next, task, yes, lib).1 == Ran(yes.deletable.value)
  {
    AllSwitches(stored, task, id, m, yes, lib);
    hide Next, Holding, MeansAll, IsYes;
  }

  lemma {:induction false} AllSwitches(stored: Option<Session>, task: Task, id: string, m: Event,
      yes: Event, lib: Lib)
    requires Holding(stored, task, id) && Bulkable(task)
    requires m.Message? && m.edit == NO_EDIT && MeansAll(m.text, lib) && m.deletable.Some? && m.deletable.value != []
    requires yes.Message? && yes.edit == NO_EDIT && IsYes(yes.text, lib) && yes.deletable.Some?
             && yes.deletable.value != []
    ensures var (next, o) := Next(stored, task, m, lib);
            o == StillWaiting && Next(next, task, yes, lib).1 == Ran(yes.deletable.value)
  {
    if IsYes(m.text, lib) {
      YesIsNotAll(m.text, lib);
    }
    YesIsNotAll(yes.text, lib);
    hide Resolve, MeansAll, IsYes, EnsureLive, Trim;
  }

  const CHAIN := [Choice("c", "b", ""), Choice("b", "a", ""), Choice("a", "x", "")]

  /** Names that are other objects' ids: the model names one object, the question is about a second, and
      the yes deletes a third. */
  lemma {:induction false} ClashFlipsTarget(m: Event, yes: Event, lower: string -> string, task: Task)
    requires var lib := Lib(lower, (a, b) => a == b);
             && m.Message? && m.options == CHAIN && m.edit == Edit(Some(Entity("a", "", "", None)), false)
                && !MeansAll(m.text, lib)
             && yes.Message? && yes.options == CHAIN && yes.edit == NO_EDIT && IsYes(yes.text, lib)
    ensures var lib := Lib(lower, (a, b) => a == b);
            var (next, o) := Next(None, task, m, lib);
            o.AskedForOne? && o.target.id == "b" && Next(next, task, yes, lib).1 == Ran(["c"])
  {
    var lib := Lib(lower, (a, b) => a == b);
    var (next, o) := Next(None, task, m, lib);
    FirstAsk(m, lib, task);
    YesIsNotAll(yes.text, lib);
    HandleHeld(next, task, yes, "b", lib);
    ChainLive(next.value.target.value, "b", "c", lib);
    hide *;
  }

  lemma {:induction false} FirstAsk(m: Event, lib: Lib, task: Task)
    requires lib.fold == ((a: string, b: string) => a == b)
    requires m.Message? && m.options == CHAIN && m.edit == Edit(Some(Entity("a", "", "", None)), false)
             && !MeansAll(m.text, lib)
    ensures var (next, o) := Next(None, task, m, lib); o.AskedForOne? && o.target.id == "b" && Holding(next, task, "b")
  {
    var e := Resolve(m.text, m.options, Some(Entity("a", "", "", None)), lib);
    assert e.Some? && e.value.id == "a" by {
      ChainMatches(lib);
      hide Find, FindContaining;
    }
    ChainLive(e.value, "a", "b", lib);
    FreshQuestion(m, task, lib);
    ChainMatches(lib);
    hide Next, Resolve, MeansAll, EnsureLive, CHAIN, Trim;
  }

  /** A fresh session whose target the model names and the options resolve is asked about at once. */
  lemma {:induction false} FreshQuestion(m: Event, task: Task, lib: Lib)
    requires m.Message? && m.edit.target.Some? && !m.edit.all && !MeansAll(m.text, lib)
    requires Resolve(m.text, m.options, m.edit.target, lib).Some?
    requires EnsureLive(Resolve(m.text, m.options, m.edit.target, lib).value, m.options, lib).Some?
    ensures var live := EnsureLive(Resolve(m.text, m.options, m.edit.target, lib).value, m.options, lib);
            Next(None, task, m, lib) == (Saved(Session(live, AwaitConfirmation, true, false), m.now),
                AskedForOne(live.value))
  {
    hide Resolve, MeansAll, IsYes, EnsureLive, NormalEntityRef;
  }

  lemma {:induction false} ChainLive(e: Entity, id: string, found: string, lib: Lib)
    requires lib.fold == ((a: string, b: string) => a == b)
    requires e.id == id && ((id == "a" && found == "b") || (id == "b" && found == "c"))
    ensures var live := EnsureLive(e, CHAIN, lib); live.Some? && live.value.id == found
  {
    ChainMatches(lib);
    hide CHAIN, FindContaining, FirstMatch, Trim;
  }

  lemma {:induction false} ChainMatches(lib: Lib)
    requires lib.fold == ((a: string, b: string) => a == b)
    ensures FirstMatch(CHAIN, "a", lib) == Some(Choice("b", "a", ""))
            && FirstMatch(CHAIN, "b", lib) == Some(Choice("c", "b", ""))
    ensures FirstId(CHAIN, "a") == Some(Choice("a", "x", ""))
    ensures Trim("a") == "a" && Trim("b") == "b" && "a" != "" && "b" != ""
  {
    assert "a" != "b" && "a" != "c" && "b" != "c" && "x" != "a" && "x" != "b" && "" != "a" && "" != "b";
    assert CHAIN[1..] == [Choice("b", "a", ""), Choice("a", "x", "")] && CHAIN[1..][1..] == [Choice("a", "x", "")];
  }

  /** From the turn that finds the object asked about gone, the handler never brings the task back to life: as
      long as the model names no target and nobody says "all", every reply is that the target is unspecified,
      and the session stays as that turn left it. In a bridged turn the active session still names the object,
      see SessionBridge.GoneTargetReturns. */
  lemma {:induction false} GoneSticks(stored: Option<Session>, task: Task, m: Event,
      messages: seq<Event>, k: nat, lib: Lib)
    requires stored.Some? && stored.value.step == AwaitConfirmation && m.Message?
             && Next(stored, task, m, lib).1 == Gone
    requires Bulkable(task) ==> !stored.value.all && !m.edit.all && !MeansAll(m.text, lib)
    requires k < |messages| && forall j :: 0 <= j < |messages| ==> Plain(task, messages[j], lib)
    ensures var gone := Next(stored, task, m, lib).0;
            From(gone, task, messages[..k], lib) == gone && OutcomeFrom(gone, task, messages, k, lib) == Unspecified
  {
    var gone := Next(stored, task, m, lib).0;
    GoneLeaves(stored, task, m, lib);
    hide Next, Plain;
    StaysGone(gone, task, messages[k], lib);
    if k > 0 {
      GoneSticks(stored, task, m, messages, k - 1, lib);
      StaysGone(gone, task, messages[k - 1], lib);
      assert messages[..k][..k - 1] == messages[..k - 1] && messages[..k][k - 1] == messages[k - 1];
    }
  }

  predicate IsGone(stored: Option<Session>, task: Task) {
    && stored.Some? && stored.value.step == AwaitConfirmation && stored.value.target == None
    && !(Bulkable(task) && stored.value.all)
  }

  lemma {:induction false} GoneLeaves(stored: Option<Session>, task: Task, m: Event, lib: Lib)
    requires stored.Some? && stored.value.step == AwaitConfirmation && m.Message?
             && Next(stored, task, m, lib).1 == Gone
    requires Bulkable(task) ==> !stored.value.all && !m.edit.all && !MeansAll(m.text, lib)
    ensures IsGone(Next(stored, task, m, lib).0, task)
  {
    hide Resolve, MeansAll, IsYes, EnsureLive;
  }

  lemma {:induction false} StaysGone(stored: Option<Session>, task: Task, m: Event, lib: Lib)
    requires IsGone(stored, task) && Plain(task, m, lib)
    ensures Next(stored, task, m, lib) == (stored, Unspecified)
  {
    hide Resolve, MeansAll, IsYes, EnsureLive;
  }
}
