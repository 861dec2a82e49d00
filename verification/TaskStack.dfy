/** agent/execution_state.go: the stored stack of suspended tasks, which forgets what is older than a
    day and what lies under five others. */
module TaskStack {
  import opened Sequences

  /** A normalised suspended task: its snapshot id, the time it was suspended (nanoseconds since the
      epoch, cut to whole seconds by RFC 3339) and the contexts it holds. */
  datatype Task<B> = Task(id: string, at: int, body: B)

  const SECOND := 1_000_000_000
  const DAY := 24 * 3600 * SECOND
  const MAX_DEPTH := 5

  function Stamp(now: int): int {
    now - now % SECOND
  }

  predicate Expired<B>(task: Task<B>, now: int) {
    now - task.at > DAY
  }

  function Live<B>(stack: seq<Task<B>>, now: int): seq<Task<B>> {
    if stack == [] then []
    else if Expired(stack[0], now) then Live(stack[1..], now)
    else [stack[0]] + Live(stack[1..], now)
  }

  function Cap<B>(stack: seq<Task<B>>): seq<Task<B>> {
    if |stack| > MAX_DEPTH then stack[|stack| - MAX_DEPTH..] else stack
  }

  function Normal<B>(stack: seq<Task<B>>, now: int): seq<Task<B>> {
    Cap(Live(stack, now))
  }

  /** normalizeTaskStack, on tasks that are themselves normal. */
  method NormalizeTaskStack<B>(stack: seq<Task<B>>, now: int) returns (out: seq<Task<B>>)
    ensures out == Normal(stack, now)
  {
    out := [];
    ghost var rest := Live(stack, now);
    assert stack[0..] == stack;
    for i := 0 to |stack|
      invariant Live(stack, now) == out + rest
      invariant rest == Live(stack[i..], now)
    {
      DropStep(stack, i);
      rest := Live(stack[i + 1..], now);
      if Expired(stack[i], now) {
        continue;
      }
      Assoc(out, [stack[i]], rest);
      out := out + [stack[i]];
    }
    assert stack[|stack|..] == [];
    if |out| > MAX_DEPTH {
      out := out[|out| - MAX_DEPTH..];
    }
  }

  function Without<T>(s: seq<T>, i: nat): seq<T>
    requires i < |s|
  {
    s[..i] + s[i + 1..]
  }

  /** One stored stack. The readings of the clock an operation makes are its parameters, in order. */
  class TaskStore<B> {
    var stored: seq<Task<B>>

    constructor ()
      ensures stored == []
    {
      stored := [];
    }

    method GetTaskStack(now: int) returns (stack: seq<Task<B>>)
      ensures stack == Normal(stored, now)
    {
      stack := NormalizeTaskStack(stored, now);
    }

    method SaveTaskStack(stack: seq<Task<B>>, now: int)
      modifies this
      ensures stored == Normal(stack, now)
    {
      stored := NormalizeTaskStack(stack, now);
    }

    method PushTaskStack(task: Task<B>, t1: int, t2: int, t3: int)
      modifies this
      ensures stored == Step(old(stored), Push(task, task.at, t1, t2, t3))
    {
      var stack := GetTaskStack(t1);
      stack := stack + [task];
      stack := NormalizeTaskStack(stack, t2);
      SaveTaskStack(stack, t3);
    }

    /** The popped task, or none. */
    method PopTaskStack(t1: int, t2: int) returns (popped: seq<Task<B>>)
      modifies this
      ensures var stack := Normal(old(stored), t1);
              if stack == [] then popped == [] && stored == old(stored)
              else popped == [Top(stack)] && stored == Step(old(stored), Pop(t1, t2))
    {
      var stack := GetTaskStack(t1);
      if |stack| == 0 {
        return [];
      }
      popped := [stack[|stack| - 1]];
      stack := stack[..|stack| - 1];
      assert stack == Without(Normal(stored, t1), |Normal(stored, t1)| - 1);
      SaveTaskStack(stack, t2);
    }

    method RemoveAt(index: int, t1: int, t2: int) returns (removed: seq<Task<B>>)
      modifies this
      ensures var stack := Normal(old(stored), t1);
              if 0 <= index < |stack| then removed == [stack[index]]
                  && stored == Step(old(stored), Remove(index, t1, t2))
              else removed == [] && stored == old(stored)
    {
      var stack := GetTaskStack(t1);
      if index < 0 || index >= |stack| {
        return [];
      }
      removed := [stack[index]];
      stack := stack[..index] + stack[index + 1..];
      SaveTaskStack(stack, t2);
    }

    method ClearTaskStack()
      modifies this
      ensures stored == []
    {
      stored := [];
    }
  }

  // ---- Operations and runs ----

  /** An operation and the clock readings it makes; a pushed task was stamped at reading `built`. */
  datatype Op<B> =
    | Push(task: Task<B>, built: int, t1: int, t2: int, t3: int)
    | Pop(t1: int, t2: int)
    | Remove(index: nat, t1: int, t2: int)
    | Clear(t1: int)

  function Top<T>(s: seq<T>): T
    requires s != []
  {
    s[|s| - 1]
  }

  function Step<B>(stored: seq<Task<B>>, op: Op<B>): seq<Task<B>> {
    match op
    case Push(task, _, t1, t2, t3) => Normal(Normal(Normal(stored, t1) + [task], t2), t3)
    case Pop(t1, t2) =>
      var stack := Normal(stored, t1);
      if stack == [] then stored else Normal(Without(stack, |stack| - 1), t2)
    case Remove(i, t1, t2) =>
      var stack := Normal(stored, t1);
      if i < |stack| then Normal(Without(stack, i), t2) else stored
    case Clear(_) => []
  }

  function First<B>(op: Op<B>): int {
    if op.Push? then op.built else op.t1
  }

  function Last<B>(op: Op<B>): int {
    match op
    case Push(_, _, _, _, t3) => t3
    case Pop(_, t2) => t2
    case Remove(_, _, t2) => t2
    case Clear(t1) => t1
  }

  predicate Orderly<B>(op: Op<B>) {
    match op
    case Push(task, built, t1, t2, t3) => task.at == Stamp(built) && built <= t1 <= t2 <= t3
    case Pop(t1, t2) => t1 <= t2
    case Remove(_, t1, t2) => t1 <= t2
    case Clear(_) => true
  }

  /** The clock never runs backwards, and pushed tasks carry the time at which they were built. */
  predicate OrderlyRun<B>(ops: seq<Op<B>>) {
    && (forall k :: 0 <= k < |ops| ==> Orderly(ops[k]))
    && (forall k :: 0 < k < |ops| ==> Last(ops[k - 1]) <= First(ops[k]))
  }

  function Stored<B>(ops: seq<Op<B>>): seq<Task<B>> {
    if ops == [] then [] else Step(Stored(ops[..|ops| - 1]), Top(ops))
  }

  // ---- The ideal stack: unbounded, nothing ever expires ----

  /** The tasks from the bottom up, and for each the most tasks that have ever lain on top of it at once. */
  datatype IdealStack<B> = IdealStack(tasks: seq<Task<B>>, buried: seq<nat>)

  predicate Wf<B>(ideal: IdealStack<B>) {
    |ideal.tasks| == |ideal.buried|
  }

  predicate Visible<B>(ideal: IdealStack<B>, i: nat, now: int)
    requires Wf(ideal) && i < |ideal.tasks|
  {
    !Expired(ideal.tasks[i], now) && ideal.buried[i] < MAX_DEPTH
  }

  function ViewFrom<B>(ideal: IdealStack<B>, i: nat, now: int): seq<Task<B>>
    requires Wf(ideal) && i <= |ideal.tasks|
    decreases |ideal.tasks| - i
  {
    if i == |ideal.tasks| then []
    else if Visible(ideal, i, now) then [ideal.tasks[i]] + ViewFrom(ideal, i + 1, now)
    else ViewFrom(ideal, i + 1, now)
  }

  /** The visible tasks: at most a day old, and never under five others. */
  function View<B>(ideal: IdealStack<B>, now: int): seq<Task<B>>
    requires Wf(ideal)
  {
    ViewFrom(ideal, 0, now)
  }

  function Max(a: nat, b: nat): nat {
    if a < b then b else a
  }

  function Bury(buried: seq<nat>): (deeper: seq<nat>)
    ensures |deeper| == |buried|
    ensures forall i :: 0 <= i < |buried| ==> deeper[i] == Max(buried[i], |buried| - i)
  {
    seq(|buried|, i requires 0 <= i < |buried| => Max(buried[i], |buried| - i))
  }

  /** What an operation does to the ideal stack: a push buries every other task one deeper, a removal
      takes out the task the caller saw at that position of the view. */
  function IdealStep<B>(ideal: IdealStack<B>, op: Op<B>): (next: IdealStack<B>)
    requires Wf(ideal)
    ensures Wf(next)
  {
    match op
    case Push(task, _, _, _, _) => IdealStack(ideal.tasks + [task], Bury(ideal.buried) + [0])
    case Pop(t1, _) => if View(ideal, t1) == [] then ideal else IdealRemove(ideal, |ideal.tasks| - 1)
    case Remove(i, t1, _) => if i < |View(ideal, t1)| then
        IdealRemove(ideal, |ideal.tasks| - |View(ideal, t1)| + i) else ideal
    case Clear(_) => IdealStack([], [])
  }

  function IdealRemove<B>(ideal: IdealStack<B>, i: int): (next: IdealStack<B>)
    requires Wf(ideal)
    ensures Wf(next)
  {
    if 0 <= i < |ideal.tasks| then IdealStack(Without(ideal.tasks, i), Without(ideal.buried, i)) else ideal
  }

  function Ideal<B>(ops: seq<Op<B>>): (ideal: IdealStack<B>)
    ensures Wf(ideal)
  {
    if ops == [] then IdealStack([], []) else IdealStep(Ideal(ops[..|ops| - 1]), Top(ops))
  }

  // ---- Index calculus: on a sorted stack the day limit and the depth limit both cut a prefix ----

  predicate Sorted<B>(stack: seq<Task<B>>) {
    forall i, j :: 0 <= i < j < |stack| ==> stack[i].at <= stack[j].at
  }

  function Cut<B>(stack: seq<Task<B>>, now: int): (k: nat)
    ensures k <= |stack|
    ensures forall i :: 0 <= i < k ==> Expired(stack[i], now)
    ensures k < |stack| ==> !Expired(stack[k], now)
  {
    if stack == [] || !Expired(stack[0], now) then 0 else 1 + Cut(stack[1..], now)
  }

  function Deep(buried: seq<nat>): (k: nat)
    ensures k <= |buried|
    ensures forall i :: 0 <= i < k ==> buried[i] >= MAX_DEPTH
    ensures k < |buried| ==> buried[k] < MAX_DEPTH
  {
    if buried == [] || buried[0] < MAX_DEPTH then 0 else 1 + Deep(buried[1..])
  }

  function Hidden<B>(ideal: IdealStack<B>, now: int): (k: nat)
    requires Wf(ideal)
    ensures k <= |ideal.tasks|
  {
    Max(Cut(ideal.tasks, now), Deep(ideal.buried))
  }

  function Excess(n: nat): nat {
    if n > MAX_DEPTH then n - MAX_DEPTH else 0
  }

  /** Every task lies deeper than the ones above it, by at least their distance. */
  predicate WellBuried(buried: seq<nat>) {
    forall i, j :: 0 <= i < j < |buried| ==> buried[i] >= buried[j] + (j - i)
  }

  /** On a sorted stack everything from the cut on is live. */
  lemma {:induction false} LiveFromCut<B>(stack: seq<Task<B>>, i: nat, now: int)
    requires Sorted(stack) && i < |stack|
    ensures Expired(stack[i], now) <==> i < Cut(stack, now)
  {
    var c := Cut(stack, now);
    if c < i {
      assert stack[c].at <= stack[i].at;
    }
  }

  lemma {:induction false} ShallowFromDeep(buried: seq<nat>, i: nat)
    requires WellBuried(buried) && i < |buried|
    ensures buried[i] >= MAX_DEPTH <==> i < Deep(buried)
  {
    var d := Deep(buried);
    if d < i {
      assert buried[d] >= buried[i] + (i - d);
    }
  }

  lemma {:induction false} CutIs<B>(stack: seq<Task<B>>, now: int, k: nat)
    requires Sorted(stack) && k <= |stack|
    requires forall i :: 0 <= i < k ==> Expired(stack[i], now)
    requires k < |stack| ==> !Expired(stack[k], now)
    ensures Cut(stack, now) == k
  {
    var c := Cut(stack, now);
  }

  lemma {:induction false} CutLater<B>(stack: seq<Task<B>>, t: int, now: int)
    requires t <= now
    ensures Cut(stack, t) <= Cut(stack, now)
  {
    var c := Cut(stack, now);
  }

  lemma {:induction false} DeepIs(buried: seq<nat>, k: nat)
    requires WellBuried(buried) && k <= |buried|
    requires forall i :: 0 <= i < k ==> buried[i] >= MAX_DEPTH
    requires k < |buried| ==> buried[k] < MAX_DEPTH
    ensures Deep(buried) == k
  {
    var d := Deep(buried);
  }

  lemma {:induction false} ShallowAtMost(buried: seq<nat>)
    requires WellBuried(buried)
    ensures Excess(|buried|) <= Deep(buried)
  {
    var d, n := Deep(buried), |buried|;
    if d < n - 1 {
      assert buried[d] >= buried[n - 1] + (n - 1 - d);
    }
  }

  lemma {:induction false} LiveSuffix<B>(stack: seq<Task<B>>, k: nat, now: int)
    requires Sorted(stack) && k <= |stack|
    ensures Live(stack[k..], now) == stack[Max(k, Cut(stack, now))..]
    decreases |stack| - k
  {
    if k < |stack| {
      DropStep(stack, k);
      LiveSuffix(stack, k + 1, now);
      LiveFromCut(stack, k, now);
    }
  }

  lemma {:induction false} NormalSuffix<B>(stack: seq<Task<B>>, k: nat, now: int)
    requires Sorted(stack) && k <= |stack|
    ensures Normal(stack[k..], now) == stack[Max(Max(k, Cut(stack, now)), Excess(|stack|))..]
  {
    LiveSuffix(stack, k, now);
  }

  lemma {:induction false} LiveLater<B>(stack: seq<Task<B>>, t: int, now: int)
    requires t <= now
    ensures Live(Live(stack, t), now) == Live(stack, now)
  {
    if stack != [] {
      LiveLater(stack[1..], t, now);
      if !Expired(stack[0], t) {
        assert ([stack[0]] + Live(stack[1..], t))[1..] == Live(stack[1..], t);
      }
    }
  }

  lemma {:induction false} ViewSuffix<B>(ideal: IdealStack<B>, i: nat, now: int)
    requires Wf(ideal) && Sorted(ideal.tasks) && WellBuried(ideal.buried) && i <= |ideal.tasks|
    ensures ViewFrom(ideal, i, now) == ideal.tasks[Max(i, Hidden(ideal, now))..]
    decreases |ideal.tasks| - i
  {
    if i < |ideal.tasks| {
      ViewSuffix(ideal, i + 1, now);
      LiveFromCut(ideal.tasks, i, now);
      ShallowFromDeep(ideal.buried, i);
      DropStep(ideal.tasks, i);
    }
  }

  // ---- The refinement ----

  ghost predicate Refines<B>(stored: seq<Task<B>>, ideal: IdealStack<B>, t: int) {
    && Wf(ideal) && Sorted(ideal.tasks) && WellBuried(ideal.buried)
    && Live(stored, t) == ideal.tasks[Hidden(ideal, t)..]
  }

  lemma {:induction false} RefinesLater<B>(stored: seq<Task<B>>, ideal: IdealStack<B>, t: int, now: int)
    requires Refines(stored, ideal, t) && t <= now
    ensures Refines(stored, ideal, now)
  {
    LiveLater(stored, t, now);
    LiveSuffix(ideal.tasks, Hidden(ideal, t), now);
    CutLater(ideal.tasks, t, now);
  }

  lemma {:induction false} RefinesShows<B>(stored: seq<Task<B>>, ideal: IdealStack<B>, now: int)
    requires Refines(stored, ideal, now)
    ensures Normal(stored, now) == ideal.tasks[Hidden(ideal, now)..]
    ensures Normal(stored, now) == View(ideal, now)
  {
    ViewSuffix(ideal, 0, now);
    ShallowAtMost(ideal.buried);
  }

  /** A suffix that starts where the hidden part ends refines. */
  lemma {:induction false} SuffixRefines<B>(ideal: IdealStack<B>, now: int)
    requires Wf(ideal) && Sorted(ideal.tasks) && WellBuried(ideal.buried)
    ensures Refines(ideal.tasks[Hidden(ideal, now)..], ideal, now)
  {
    LiveSuffix(ideal.tasks, Hidden(ideal, now), now);
  }

  lemma {:induction false} BuryShape(buried: seq<nat>)
    requires WellBuried(buried)
    ensures WellBuried(Bury(buried) + [0])
    ensures Deep(Bury(buried) + [0]) == Max(Deep(buried), Excess(|buried| + 1))
  {
    var next := Bury(buried) + [0];
    var k := Max(Deep(buried), Excess(|buried| + 1));
    ShallowAtMost(buried);
    assert WellBuried(next) by {
      forall i, j | 0 <= i < j < |next| ensures next[i] >= next[j] + (j - i) {
        if j < |buried| {
          assert buried[i] >= buried[j] + (j - i);
        }
      }
    }
    if k < |buried| {
      ShallowFromDeep(buried, k);
    }
    DeepIs(next, k);
  }

  /** The two clean-ups of a push, on the suffix of a sorted stack. */
  lemma {:induction false} PushedSuffix<B>(tasks: seq<Task<B>>, k: nat, t2: int, t3: int)
    requires Sorted(tasks) && k <= |tasks| && t2 <= t3
    ensures Normal(Normal(tasks[k..], t2), t3) == tasks[Max(Max(k, Cut(tasks, t3)), Excess(|tasks|))..]
  {
    NormalSuffix(tasks, k, t2);
    NormalSuffix(tasks, Max(Max(k, Cut(tasks, t2)), Excess(|tasks|)), t3);
    CutLater(tasks, t2, t3);
  }

  /** The tasks already expired stay an expired prefix when others come or go above them. */
  lemma {:induction false} CutGrows<B>(tasks: seq<Task<B>>, next: seq<Task<B>>, t: int, now: int)
    requires Sorted(next) && t <= now
    requires Cut(tasks, t) <= |next| && next[..Cut(tasks, t)] == tasks[..Cut(tasks, t)]
    ensures Cut(tasks, t) <= Cut(next, now)
  {
    var c := Cut(next, now);
    assert c < Cut(tasks, t) ==> next[c] == tasks[..Cut(tasks, t)][c] == tasks[c] && Expired(tasks[c], t);
  }

  lemma {:induction false} StampMonotone(a: int, b: int)
    requires a <= b
    ensures Stamp(a) <= Stamp(b) <= b
  {
    assert a / SECOND <= b / SECOND;
    assert Stamp(a) == a / SECOND * SECOND && Stamp(b) == b / SECOND * SECOND;
  }

  lemma {:induction false} SortedSnoc<B>(tasks: seq<Task<B>>, task: Task<B>)
    requires Sorted(tasks)
    requires forall i :: 0 <= i < |tasks| ==> tasks[i].at <= task.at
    ensures Sorted(tasks + [task])
  {
  }

  /** What pushing does to the hidden part. */
  lemma {:induction false} PushHides<B>(ideal: IdealStack<B>, task: Task<B>, t1: int, t3: int)
    requires Wf(ideal) && Sorted(ideal.tasks) && WellBuried(ideal.buried) && t1 <= t3
    requires forall i :: 0 <= i < |ideal.tasks| ==> ideal.tasks[i].at <= task.at
    ensures var next := IdealStack(ideal.tasks + [task], Bury(ideal.buried) + [0]);
            && Sorted(next.tasks) && WellBuried(next.buried)
            && Hidden(next, t3) == Max(Max(Hidden(ideal, t1), Cut(next.tasks, t3)), Excess(|next.tasks|))
  {
    hide Sorted, WellBuried, Cut, Deep, Bury;
    BuryShape(ideal.buried);
    SortedSnoc(ideal.tasks, task);
    CutSnocLater(ideal.tasks, task, t1, t3);
  }

  lemma {:induction false} CutSnocLater<B>(tasks: seq<Task<B>>, task: Task<B>, t: int, now: int)
    requires Sorted(tasks + [task]) && t <= now
    ensures Cut(tasks, t) <= Cut(tasks + [task], now)
  {
    hide Sorted;
    var c := Cut(tasks, t);
    assert (tasks + [task])[..c] == tasks[..c];
    CutGrows(tasks, tasks + [task], t, now);
  }

  lemma {:induction false} PushRefines<B>(stored: seq<Task<B>>, ideal: IdealStack<B>, task: Task<B>, built: int,
      t1: int, t2: int, t3: int)
    requires t1 <= t2 <= t3 && Refines(stored, ideal, t1)
    requires forall i :: 0 <= i < |ideal.tasks| ==> ideal.tasks[i].at <= task.at
    ensures Refines(Step(stored, Push(task, built, t1, t2, t3)), IdealStep(ideal, Push(task, built, t1, t2, t3)), t3)
  {
    hide Sorted, WellBuried, Live, View, Normal, Hidden, Bury;
    var next := IdealStack(ideal.tasks + [task], Bury(ideal.buried) + [0]);
    var k := Hidden(ideal, t1);
    RefinesShows(stored, ideal, t1);
    PushHides(ideal, task, t1, t3);
    assert ideal.tasks[k..] + [task] == next.tasks[k..];
    PushedSuffix(next.tasks, k, t2, t3);
    SuffixRefines(next, t3);
  }

  lemma {:induction false} WithoutShape(buried: seq<nat>, i: nat)
    requires WellBuried(buried) && Deep(buried) <= i < |buried|
    ensures WellBuried(Without(buried, i)) && Deep(Without(buried, i)) == Deep(buried)
  {
    var next, d := Without(buried, i), Deep(buried);
    assert WellBuried(next) by {
      forall p, q | 0 <= p < q < |next| ensures next[p] >= next[q] + (q - p) {
        var p', q' := if p < i then p else p + 1, if q < i then q else q + 1;
        assert buried[p'] >= buried[q'] + (q' - p');
      }
    }
    if d < |next| {
      ShallowFromDeep(buried, if d < i then d else d + 1);
    }
    DeepIs(next, d);
  }

  lemma {:induction false} WithoutSorted<B>(tasks: seq<Task<B>>, i: nat)
    requires Sorted(tasks) && i < |tasks|
    ensures Sorted(Without(tasks, i))
  {
  }

  /** What removing a visible task does to the hidden part: nothing but the passing of time. */
  lemma {:induction false} RemoveHides<B>(ideal: IdealStack<B>, i: nat, t1: int, t2: int)
    requires Wf(ideal) && Sorted(ideal.tasks) && WellBuried(ideal.buried)
    requires t1 <= t2 && Hidden(ideal, t1) <= i < |ideal.tasks|
    ensures var next := IdealRemove(ideal, i);
            && Sorted(next.tasks) && WellBuried(next.buried)
            && Hidden(next, t2) == Max(Max(Hidden(ideal, t1), Cut(next.tasks, t2)), Excess(|next.tasks|))
  {
    hide Sorted, WellBuried;
    var next := IdealRemove(ideal, i);
    WithoutShape(ideal.buried, i);
    WithoutSorted(ideal.tasks, i);
    assert next.tasks[..Cut(ideal.tasks, t1)] == ideal.tasks[..Cut(ideal.tasks, t1)];
    CutGrows(ideal.tasks, next.tasks, t1, t2);
    ShallowAtMost(next.buried);
  }

  lemma {:induction false} RemoveRefines<B>(stored: seq<Task<B>>, ideal: IdealStack<B>, i: nat, t1: int, t2: int)
    requires t1 <= t2 && Refines(stored, ideal, t1) && i < |Normal(stored, t1)|
    ensures Hidden(ideal, t1) + |Normal(stored, t1)| == |ideal.tasks|
    ensures Refines(Normal(Without(Normal(stored, t1), i), t2), IdealRemove(ideal, Hidden(ideal, t1) + i), t2)
  {
    hide Sorted, WellBuried, Live, View, Normal, Hidden;
    var k := Hidden(ideal, t1);
    RefinesShows(stored, ideal, t1);
    RemoveHides(ideal, k + i, t1, t2);
    var next := IdealRemove(ideal, k + i);
    assert Without(ideal.tasks[k..], i) == next.tasks[k..];
    NormalSuffix(next.tasks, k, t2);
    SuffixRefines(next, t2);
  }

  lemma {:induction false} StepRefines<B>(stored: seq<Task<B>>, ideal: IdealStack<B>, op: Op<B>)
    requires Orderly(op) && Refines(stored, ideal, First(op))
    requires op.Push? ==> forall i :: 0 <= i < |ideal.tasks| ==> ideal.tasks[i].at <= op.task.at
    ensures Refines(Step(stored, op), IdealStep(ideal, op), Last(op))
  {
    hide Sorted, WellBuried, Live, View, Normal, Hidden;
    match op
    case Push(task, built, t1, t2, t3) =>
      RefinesLater(stored, ideal, built, t1);
      PushRefines(stored, ideal, task, built, t1, t2, t3);
    case Pop(t1, t2) =>
      RefinesShows(stored, ideal, t1);
      var stack := Normal(stored, t1);
      if stack != [] {
        RemoveRefines(stored, ideal, |stack| - 1, t1, t2);
      } else {
        RefinesLater(stored, ideal, t1, t2);
      }
    case Remove(i, t1, t2) =>
      RefinesShows(stored, ideal, t1);
      if i < |Normal(stored, t1)| {
        RemoveRefines(stored, ideal, i, t1, t2);
      } else {
        RefinesLater(stored, ideal, t1, t2);
      }
    case Clear(t1) =>
      SuffixRefines<B>(IdealStack([], []), t1);
  }

  lemma {:induction false} RunSplit<B>(ops: seq<Op<B>>)
    requires OrderlyRun(ops) && ops != []
    ensures var before := ops[..|ops| - 1];
            && OrderlyRun(before) && Orderly(Top(ops)) && First(Top(ops)) <= Last(Top(ops))
            && (before != [] ==> Last(Top(before)) <= First(Top(ops)))
  {
    assert Orderly(ops[|ops| - 1]);
    if |ops| > 1 {
      assert Last(ops[|ops| - 2]) <= First(ops[|ops| - 1]);
    }
  }

  /** No task carries a stamp later than the clock. */
  lemma {:induction false} StampsOld<B>(ops: seq<Op<B>>, now: int)
    requires OrderlyRun(ops) && (ops != [] ==> Last(Top(ops)) <= now)
    ensures forall i :: 0 <= i < |Ideal(ops).tasks| ==> Ideal(ops).tasks[i].at <= Stamp(now)
  {
    if ops != [] {
      RunSplit(ops);
      StampsOld(ops[..|ops| - 1], now);
      if Top(ops).Push? {
        StampMonotone(Top(ops).built, now);
      }
    }
  }

  lemma {:induction false} RunRefines<B>(ops: seq<Op<B>>, now: int)
    requires OrderlyRun(ops) && (ops != [] ==> Last(Top(ops)) <= now)
    ensures Refines(Stored(ops), Ideal(ops), now)
    decreases |ops|
  {
    if ops == [] {
      SuffixRefines<B>(IdealStack([], []), now);
    } else {
      var before, op := ops[..|ops| - 1], Top(ops);
      RunSplit(ops);
      RunRefines(before, First(op));
      StampsOld(before, First(op));
      StepRefines(Stored(before), Ideal(before), op);
      RefinesLater(Stored(ops), Ideal(ops), Last(op), now);
    }
  }

  /** Over every run, whenever the stack is next read, it shows exactly the tasks of the ideal stack that
      are at most a day old and have never had five others on top of them; these are its top part. */
  lemma {:induction false} StackRefinesIdeal<B>(ops: seq<Op<B>>, now: int)
    requires OrderlyRun(ops) && (ops != [] ==> Last(Top(ops)) <= now)
    ensures Normal(Stored(ops), now) == View(Ideal(ops), now)
    ensures Sorted(Ideal(ops).tasks)
    ensures exists hidden: nat :: hidden <= |Ideal(ops).tasks| && View(Ideal(ops), now) == Ideal(ops).tasks[hidden..]
  {
    hide Sorted, WellBuried, Live, ViewFrom, Normal, Stored, Ideal;
    RunRefines(ops, now);
    RefinesShows(Stored(ops), Ideal(ops), now);
  }

  /** A pop returns the top of the ideal stack, or nothing: nothing exactly when the ideal stack is empty
      or its top is over a day old or has once lain under five others. */
  lemma {:induction false} PopReturnsIdealTop<B>(ops: seq<Op<B>>, now: int)
    requires OrderlyRun(ops) && (ops != [] ==> Last(Top(ops)) <= now)
    ensures var ideal, shown := Ideal(ops), Normal(Stored(ops), now);
            && (shown == [] <==> ideal.tasks == [] || !Visible(ideal, |ideal.tasks| - 1, now))
            && (shown != [] ==> Top(shown) == Top(ideal.tasks))
  {
    hide Sorted, WellBuried, Live, ViewFrom, Normal, Stored, Ideal;
    RunRefines(ops, now);
    RefinesShows(Stored(ops), Ideal(ops), now);
    var ideal := Ideal(ops);
    if ideal.tasks != [] {
      LiveFromCut(ideal.tasks, |ideal.tasks| - 1, now);
      ShallowFromDeep(ideal.buried, |ideal.tasks| - 1);
    }
  }

  /** A task pushed and popped within the day comes back, and the stack shows what it showed before,
      minus its bottom task when there were already five. */
  lemma {:induction false} PushThenPop<B>(ops: seq<Op<B>>, push: Op<B>, now: int)
    requires push.Push? && Orderly(push) && OrderlyRun(ops) && (ops != [] ==> Last(Top(ops)) <= push.built)
    requires push.t3 <= now && now - push.task.at <= DAY
    ensures var below, after := Normal(Stored(ops), now), Normal(Step(Stored(ops), push), now);
            after == (if |below| < MAX_DEPTH then below else below[1..]) + [push.task]
  {
    hide Sorted, WellBuried, Live, ViewFrom, Normal, Stored, Ideal;
    RunRefines(ops, push.built);
    StampsOld(ops, push.built);
    StepRefines(Stored(ops), Ideal(ops), push);
    RefinesLater(Stored(ops), Ideal(ops), push.built, now);
    RefinesShows(Stored(ops), Ideal(ops), now);
    var ideal, next := Ideal(ops), IdealStep(Ideal(ops), push);
    RefinesLater(Step(Stored(ops), push), next, push.t3, now);
    RefinesShows(Step(Stored(ops), push), next, now);
    PushShows(ideal, push.task, now);
  }

  lemma {:induction false} PushShows<B>(ideal: IdealStack<B>, task: Task<B>, now: int)
    requires Wf(ideal) && Sorted(ideal.tasks) && WellBuried(ideal.buried)
    requires !Expired(task, now) && forall i :: 0 <= i < |ideal.tasks| ==> ideal.tasks[i].at <= task.at
    ensures var next, below := IdealStack(ideal.tasks + [task], Bury(ideal.buried) + [0]),
            ideal.tasks[Hidden(ideal, now)..];
            next.tasks[Hidden(next, now)..] == (if |below| < MAX_DEPTH then below else below[1..]) + [task]
  {
    hide Sorted, WellBuried, Expired, Bury;
    var next := IdealStack(ideal.tasks + [task], Bury(ideal.buried) + [0]);
    PushHides(ideal, task, now, now);
    ShallowAtMost(ideal.buried);
    CutSnoc(ideal.tasks, task, now);
    var h, n := Hidden(ideal, now), |ideal.tasks|;
    assert Hidden(next, now) == if n - h < MAX_DEPTH then h else h + 1;
    assert next.tasks[h..] == ideal.tasks[h..] + [task];
  }

  lemma {:induction false} CutSnoc<B>(tasks: seq<Task<B>>, task: Task<B>, now: int)
    requires Sorted(tasks + [task]) && !Expired(task, now)
    ensures Cut(tasks + [task], now) == Cut(tasks, now)
  {
    var c := Cut(tasks, now);
    assert (tasks + [task])[c] == if c < |tasks| then tasks[c] else task;
    CutIs(tasks + [task], now, c);
  }
}
