/** agent/memory.go: cleanStringList. */
module StringLists {
  import opened Sequences
  import opened Text

  /** The trimmed non-blank entries of `values`, each kept when no entry with the same key was seen
      before it; `lower` is strings.ToLower. */
  function CleanFrom(values: seq<string>, seen: set<string>, lower: string -> string): seq<string>
    decreases |values|
  {
    if values == [] then []
    else
      var v := Trim(values[0]);
      if v == "" || lower(v) in seen then CleanFrom(values[1..], seen, lower)
      else [v] + CleanFrom(values[1..], seen + {lower(v)}, lower)
  }

  function Clean(values: seq<string>, lower: string -> string): seq<string> {
    CleanFrom(values, {}, lower)
  }

  predicate IsClean(values: seq<string>, lower: string -> string) {
    && (forall i :: 0 <= i < |values| ==> values[i] != "" && Trimmed(values[i]))
    && (forall i, j :: 0 <= i < j < |values| ==> lower(values[i]) != lower(values[j]))
  }

  method CleanStringList(values: seq<string>, lower: string -> string) returns (out: seq<string>)
    ensures out == Clean(values, lower)
  {
    out := [];
    var seen: set<string> := {};
    ghost var rest := Clean(values, lower);
    assert values[0..] == values;
    for i := 0 to |values|
      invariant Clean(values, lower) == out + rest
      invariant rest == CleanFrom(values[i..], seen, lower)
    {
      DropStep(values, i);
      var v := Trim(values[i]);
      if v == "" {
        continue;
      }
      var key := lower(v);
      if key in seen {
        continue;
      }
      seen := seen + {key};
      rest := CleanFrom(values[i + 1..], seen, lower);
      Assoc(out, [v], rest);
      out := out + [v];
    }
    assert values[|values|..] == [];
  }

  lemma {:induction false} CleanFromIsClean(values: seq<string>, seen: set<string>, lower: string -> string)
    ensures IsClean(CleanFrom(values, seen, lower), lower)
    ensures forall i :: 0 <= i < |CleanFrom(values, seen, lower)| ==> lower(CleanFrom(values, seen, lower)[i]) !in seen
    decreases |values|
  {
    if values != [] {
      var v := Trim(values[0]);
      CleanFromIsClean(values[1..], if v == "" || lower(v) in seen then seen else seen + {lower(v)}, lower);
    }
  }

  lemma {:induction false} CleanFromFixed(values: seq<string>, seen: set<string>, lower: string -> string)
    requires IsClean(values, lower)
    requires forall i :: 0 <= i < |values| ==> lower(values[i]) !in seen
    ensures CleanFrom(values, seen, lower) == values
    decreases |values|
  {
    if values != [] {
      CleanFromFixed(values[1..], seen + {lower(values[0])}, lower);
    }
  }

  /** A list is left alone exactly when it is clean; cleaning makes it so. */
  lemma {:induction false} CleanIdempotent(values: seq<string>, lower: string -> string)
    ensures IsClean(Clean(values, lower), lower)
    ensures Clean(Clean(values, lower), lower) == Clean(values, lower)
    ensures Clean(values, lower) == values <==> IsClean(values, lower)
  {
    CleanFromIsClean(values, {}, lower);
    CleanFromFixed(Clean(values, lower), {}, lower);
    if IsClean(values, lower) {
      CleanFromFixed(values, {}, lower);
    }
  }

  /** Nothing is lost: every non-blank entry is represented, up to case, in the cleaned list. */
  lemma {:induction false} CleanKeepsKeys(values: seq<string>, seen: set<string>, lower: string -> string, i: nat)
    requires i < |values| && Trim(values[i]) != "" && lower(Trim(values[i])) !in seen
    ensures exists k :: 0 <= k < |CleanFrom(values, seen, lower)|
                        && lower(CleanFrom(values, seen, lower)[k]) == lower(Trim(values[i]))
    decreases |values|
  {
    var v := Trim(values[0]);
    var skip := v == "" || lower(v) in seen;
    if !skip && lower(v) == lower(Trim(values[i])) {
      assert CleanFrom(values, seen, lower)[0] == v;
    } else {
      var seen' := if skip then seen else seen + {lower(v)};
      CleanKeepsKeys(values[1..], seen', lower, i - 1);
      var rest := CleanFrom(values[1..], seen', lower);
      var k :| 0 <= k < |rest| && lower(rest[k]) == lower(Trim(values[i]));
      assert CleanFrom(values, seen, lower)[if skip then k else k + 1] == rest[k];
    }
  }
}
