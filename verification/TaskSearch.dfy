/** agent/planner_runtime.go: finding a suspended task by its snapshot id, over two readings of the stack. */
module TaskSearch {
  import opened Options
  import opened TaskStack
  import opened Text

  function LastWithId<B>(stack: seq<Task<B>>, id: string): (i: Option<nat>)
    ensures i.Some? ==> i.value < |stack| && Trim(stack[i.value].id) == id
  {
    if stack == [] || id == "" then None
    else if Trim(stack[|stack| - 1].id) == id then Some(|stack| - 1)
    else LastWithId(stack[..|stack| - 1], id)
  }

  /** The search of restoreSuspendedTaskByID, from the top down. */
  method FindById<B>(stack: seq<Task<B>>, wanted: string) returns (found: Option<nat>)
    ensures found == LastWithId(stack, wanted)
  {
    hide Trim;
    if wanted == "" {
      return None;
    }
    var i := |stack|;
    assert stack[..|stack|] == stack;
    while i > 0
      invariant 0 <= i <= |stack|
      invariant LastWithId(stack[..i], wanted) == LastWithId(stack, wanted)
    {
      i := i - 1;
      assert stack[..i + 1][..i] == stack[..i];
      if Trim(stack[i].id) == wanted {
        return Some(i);
      }
    }
    return None;
  }

  /** The search finds the topmost snapshot with the id, and none exactly when none has it. */
  lemma {:induction false} LastWithIdIsTopmost<B>(stack: seq<Task<B>>, id: string, j: nat)
    requires id != "" && j < |stack| && Trim(stack[j].id) == id
    ensures var i := LastWithId(stack, id); i.Some? && j <= i.value
  {
    hide Trim;
    if Trim(stack[|stack| - 1].id) != id {
      assert stack[..|stack| - 1][j] == stack[j];
      LastWithIdIsTopmost(stack[..|stack| - 1], id, j);
    }
  }

  /** On a stack that is sorted by time, as every reachable one is, reading again later shows what was shown
      without the tasks that have expired since, which lie at the bottom. */
  lemma {:induction false} ShownLater<B>(stored: seq<Task<B>>, now: int, t1: int)
    requires Sorted(stored) && now <= t1
    ensures Normal(stored, t1) == Normal(stored, now)[Cut(Normal(stored, now), t1)..]
  {
    hide *;
    var (a, b, k) := (Cut(stored, now), Cut(stored, t1), Max(Cut(stored, now), Excess(|stored|)));
    ShownFrom(stored, now);
    ShownFrom(stored, t1);
    LaterCut(stored, now, t1);
    ShownCut(stored, k, t1);
    DropTwice(stored, k, Max(k, b));
  }

  lemma {:induction false} ShownFrom<B>(stored: seq<Task<B>>, now: int)
    requires Sorted(stored)
    ensures var k := Max(Cut(stored, now), Excess(|stored|)); k <= |stored| && Normal(stored, now) == stored[k..]
  {
    assert stored[0..] == stored;
    NormalSuffix(stored, 0, now);
    hide Normal, Sorted;
  }

  lemma {:induction false} LaterCut<B>(stored: seq<Task<B>>, now: int, t1: int)
    requires now <= t1
    ensures var (k, b) := (Max(Cut(stored, now), Excess(|stored|)), Cut(stored, t1));
            Max(b, Excess(|stored|)) == Max(k, b) && k <= Max(k, b) <= |stored|
  {
    CutLater(stored, now, t1);
  }

  lemma {:induction false} DropTwice<T>(s: seq<T>, k: nat, n: nat)
    requires k <= n <= |s|
    ensures s[k..][n - k..] == s[n..]
  {
  }

  lemma {:induction false} ShownCut<B>(stored: seq<Task<B>>, k: nat, t1: int)
    requires Sorted(stored) && k <= |stored|
    ensures Cut(stored[k..], t1) == Max(k, Cut(stored, t1)) - k
  {
    forall i | 0 <= i < |stored| ensures Expired(stored[i], t1) <==> i < Cut(stored, t1) {
      LiveFromCut(stored, i, t1);
    }
    CutIs(stored[k..], t1, Max(k, Cut(stored, t1)) - k);
  }

  /** Where restoreSuspendedTaskByID takes a task from, on the stack as read at `t1`. */
  function TakenById<B>(stored: seq<Task<B>>, id: string, now: int, t1: int): (i: Option<nat>)
    ensures i.Some? ==> i.value < |Normal(stored, t1)|
  {
    var found := LastWithId(Normal(stored, now), id);
    if found.Some? && found.value < |Normal(stored, t1)| then found else None
  }

  predicate SortedBy<B>(stored: seq<Task<B>>, limit: int) {
    Sorted(stored) && forall i :: 0 <= i < |stored| ==> stored[i].at <= limit
  }

  lemma {:induction false} NormalSorted<B>(stored: seq<Task<B>>, now: int, limit: int)
    requires SortedBy(stored, limit)
    ensures SortedBy(Normal(stored, now), limit)
  {
    ShownFrom(stored, now);
    hide Normal, Cut;
  }

  lemma {:induction false} StepSorted<B>(stored: seq<Task<B>>, op: Op<B>, limit: int)
    requires SortedBy(stored, limit) && (op.Push? ==> op.task.at == limit)
    ensures SortedBy(Step(stored, op), limit)
  {
    hide Normal;
    if !op.Clear? {
      NormalSorted(stored, op.t1, limit);
      var stack := Normal(stored, op.t1);
      if op.Push? {
        NormalSorted(stack + [op.task], op.t2, limit);
        NormalSorted(Normal(stack + [op.task], op.t2), op.t3, limit);
      } else {
        var i := if op.Pop? then |stack| - 1 else op.index;
        if 0 <= i < |stack| {
          NormalSorted(Without(stack, i), op.t2, limit);
        }
      }
    }
  }

  /** After every run the stored stack is sorted by time. */
  lemma {:induction false} StoredSorted<B>(ops: seq<Op<B>>, now: int)
    requires OrderlyRun(ops) && (ops != [] ==> Last(Top(ops)) <= now)
    ensures SortedBy(Stored(ops), Stamp(now))
  {
    hide Step, SortedBy, Stamp;
    if ops == [] {
      NothingSorted<B>(Stamp(now));
    } else {
      var before, op := ops[..|ops| - 1], Top(ops);
      RunSplit(ops);
      StoredSorted(before, First(op));
      StepSorted(Stored(before), op, Stamp(First(op)));
      StampMonotone(First(op), now);
      SortedHigher(Stored(ops), Stamp(First(op)), Stamp(now));
    }
  }

  lemma {:induction false} NothingSorted<B>(limit: int)
    ensures SortedBy<B>([], limit)
  {
  }

  lemma {:induction false} SortedHigher<B>(stored: seq<Task<B>>, limit: int, higher: int)
    requires SortedBy(stored, limit) && limit <= higher
    ensures SortedBy(stored, higher)
  {
  }

  /** After every run, by its id the topmost snapshot that bears it is restored, wherever it lies on the
      stack, unless some task has expired between the two readings of the stack: after `c` have, it is the one
      `c` places above it, if there is one. */
  lemma {:induction false} ContinueById<B>(ops: seq<Op<B>>, id: string, now: int, t1: int, t2: int)
    requires OrderlyRun(ops) && (ops != [] ==> Last(Top(ops)) <= now) && now <= t1 && id != ""
    ensures var stored := Stored(ops);
            var shown := Normal(stored, now);
            var c := Cut(shown, t1);
            match LastWithId(shown, id)
            case None => TakenById(stored, id, now, t1) == None
            case Some(i) =>
              if i + c < |shown| then
                && TakenById(stored, id, now, t1) == Some(i)
                && Normal(stored, t1)[i] == shown[i + c]
                && Step(stored, Remove(i, t1, t2)) == Normal(Without(shown[c..], i), t2)
              else TakenById(stored, id, now, t1) == None
  {
    StoredSorted(ops, now);
    ShownLater(Stored(ops), now, t1);
    hide Normal, Cut, Sorted, LastWithId, Stored;
  }
}
