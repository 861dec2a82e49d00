/** agent/trade.go: reading the command that confirms a trade. */
module TradeCommands {
  import opened Decimals
  import opened Options
  import opened Text

  /** strings.ToUpper */
  datatype Lib = Lib(upper: string -> string)

  /** What it does to the texts of the commands. */
  ghost predicate Valid(lib: Lib) {
    && (forall a, b :: lib.upper(a + b) == lib.upper(a) + lib.upper(b))
    && lib.upper("confirm ") == CONFIRM && lib.upper("large ") == "LARGE "
    && lib.upper(CONFIRM_ZH) == CONFIRM_ZH && lib.upper(LARGE_ZH) == LARGE_ZH
    && lib.upper("trade_") == "TRADE_"
  }

  const CONFIRM := "CONFIRM "
  const LARGE := "CONFIRM LARGE "
  const CONFIRM_ZH := "\U{786E}\U{8BA4} "
  const LARGE_ZH := "\U{786E}\U{8BA4}\U{5927}\U{989D} "

  /** strings.Fields */
  function Fields(s: string): seq<string>
    decreases |s|
  {
    var t := TrimLeft(s);
    if t == "" then [] else
      var n := WordEnd(t);
      assert |s| >= |t| by { TrimLeftShorter(s); }
      [t[..n]] + Fields(t[n..])
  }

  lemma {:induction false} TrimLeftShorter(s: string)
    ensures |TrimLeft(s)| <= |s|
  {
    if s != "" && IsSpace(s[0]) {
      TrimLeftShorter(s[1..]);
    }
  }

  function WordEnd(s: string): (n: nat)
    ensures n <= |s| && (s != "" && !IsSpace(s[0]) ==> n > 0)
  {
    if s == "" || IsSpace(s[0]) then 0 else 1 + WordEnd(s[1..])
  }

  /** The id a message confirms and whether it does so by the large-order command. */
  function Command(text: string, lib: Lib): Option<(string, bool)> {
    Read(lib.upper(Trim(text)), Fields(text))
  }

  function Read(upper: string, parts: seq<string>): Option<(string, bool)> {
    if LARGE_ZH <= upper || LARGE <= upper then (if |parts| >= 2 then Some((parts[|parts| - 1], true)) else None)
    else if CONFIRM_ZH <= upper || CONFIRM <= upper then (if |parts| >= 2 then Some((parts[1], false)) else None)
    else None
  }

  /** A word: at least one character, none of them space. */
  predicate Word(s: string) {
    s != "" && forall i :: 0 <= i < |s| ==> !IsSpace(s[i])
  }

  lemma {:induction false} WordEndAt(w: string, rest: string)
    requires Word(w) && (rest == "" || IsSpace(rest[0]))
    ensures WordEnd(w + rest) == |w|
  {
    assert (w + rest)[1..] == w[1..] + rest;
    if |w| > 1 {
      WordEndAt(w[1..], rest);
    } else {
      assert w[1..] + rest == rest;
    }
  }

  /** A word, then a space, then more. */
  lemma {:induction false} FieldsCons(w: string, c: char, rest: string)
    requires Word(w) && IsSpace(c)
    ensures Fields(w + [c] + rest) == [w] + Fields(rest)
  {
    var s := w + [c] + rest;
    assert s == w + ([c] + rest);
    assert TrimLeft(s) == s;
    WordEndAt(w, [c] + rest);
    assert s[..|w|] == w && s[|w|..] == [c] + rest;
    assert ([c] + rest)[1..] == rest;
    assert Fields([c] + rest) == Fields(rest);
  }

  lemma {:induction false} FieldsWord(w: string)
    requires Word(w)
    ensures Fields(w) == [w]
  {
    WordEndAt(w, "");
    assert w + "" == w && w[..|w|] == w && w[|w|..] == "";
  }

  /** The ids the proposals are given. */
  function TradeId(n: nat): string {
    "trade_" + Digits(n)
  }

  lemma {:induction false} TradeIdWord(n: nat)
    ensures Word(TradeId(n)) && Trimmed(TradeId(n))
  {
    assert forall c :: IsDigit(c) ==> !IsSpace(c);
    assert Word("trade_");
    hide IsDigit, IsSpace, Digits;
    var d := Digits(n);
    forall i | 0 <= i < |TradeId(n)| ensures !IsSpace(TradeId(n)[i]) {
      assert TradeId(n)[i] == if i < 6 then "trade_"[i] else d[i - 6];
    }
  }

  lemma {:induction false} UpperOf(a: string, b: string, lib: Lib)
    requires Valid(lib)
    ensures lib.upper(a + b) == lib.upper(a) + lib.upper(b)
  {
  }

  lemma {:induction false} UpperId(n: nat, lib: Lib) returns (rest: string)
    requires Valid(lib)
    ensures lib.upper(TradeId(n)) == "TRADE_" + rest
  {
    UpperOf("trade_", Digits(n), lib);
    rest := lib.upper(Digits(n));
  }

  lemma {:induction false} UpperWords(lib: Lib)
    requires Valid(lib)
    ensures lib.upper("confirm ") == CONFIRM && lib.upper("large ") == "LARGE "
    ensures lib.upper(CONFIRM_ZH) == CONFIRM_ZH && lib.upper(LARGE_ZH) == LARGE_ZH
  {
  }

  /** What the prefixes of the four commands are told apart by. */
  lemma {:induction false} Prefixes(rest: string)
    ensures var u := CONFIRM + ("TRADE_" + rest); CONFIRM <= u && !(LARGE <= u) && !(LARGE_ZH <= u)
    ensures var u := CONFIRM_ZH + ("TRADE_" + rest); CONFIRM_ZH <= u && !(LARGE <= u) && !(LARGE_ZH <= u)
    ensures LARGE_ZH <= LARGE_ZH + rest && LARGE <= CONFIRM + ("LARGE " + rest)
  {
    var u, z := CONFIRM + ("TRADE_" + rest), CONFIRM_ZH + ("TRADE_" + rest);
    assert u[0] == 'C' && u[8] == 'T' && z[0] == '\U{786E}' && z[2] == ' ';
    assert LARGE[8] == 'L' && LARGE[0] == 'C' && LARGE_ZH[0] == '\U{786E}' && LARGE_ZH[2] == '\U{5927}';
    var l := CONFIRM + ("LARGE " + rest);
    assert l[..14] == CONFIRM + "LARGE ";
    assert CONFIRM + "LARGE " == LARGE;
  }

  lemma {:induction false} TwoWords(w: string, id: string)
    requires Word(w) && Word(id) && Trimmed(id)
    ensures Fields(w + [' '] + id) == [w, id] && Trim(w + [' '] + id) == w + [' '] + id
  {
    FieldsWord(id);
    FieldsCons(w, ' ', id);
    hide Fields;
    assert [w] + [id] == [w, id];
  }

  lemma {:induction false} ThreeWords(v: string, w: string, id: string)
    requires Word(v) && Word(w) && Word(id) && Trimmed(id)
    ensures Fields(v + [' '] + (w + [' '] + id)) == [v, w, id]
    ensures Trim(v + [' '] + (w + [' '] + id)) == v + [' '] + (w + [' '] + id)
  {
    TwoWords(w, id);
    FieldsCons(v, ' ', w + [' '] + id);
    hide Fields;
    assert [v] + [w, id] == [v, w, id];
  }

  /** Each command the agent tells the owner to send is read as the trade it names, and only the large-order
      ones as large. */
  lemma {:induction false} CommandsRoundTrip(n: nat, lib: Lib)
    requires Valid(lib)
    ensures Command("confirm " + TradeId(n), lib) == Some((TradeId(n), false))
    ensures Command(CONFIRM_ZH + TradeId(n), lib) == Some((TradeId(n), false))
    ensures Command("confirm large " + TradeId(n), lib) == Some((TradeId(n), true))
    ensures Command(LARGE_ZH + TradeId(n), lib) == Some((TradeId(n), true))
  {
    var id := TradeId(n);
    TradeIdWord(n);
    CommandWords();
    hide TradeId, Trim, Fields, Valid, Word, Trimmed, Read;
    TwoWords("confirm", id);
    TwoWords(CONFIRM_ZH[..2], id);
    TwoWords(LARGE_ZH[..4], id);
    ThreeWords("confirm", "large", id);
    UpperCommands(n, lib);
    UpperWords(lib);
    var rest := UpperId(n, lib);
    Prefixes(rest);
    Prefixes("TRADE_" + rest);
    ReadFour(id, rest);
    hide CONFIRM, LARGE, CONFIRM_ZH, LARGE_ZH;
    assert "confirm large " + id == "confirm" + [' '] + ("large" + [' '] + id);
    assert "confirm " + id == "confirm" + [' '] + id;
  }

  lemma {:induction false} ReadFour(id: string, rest: string)
    ensures Read(CONFIRM + ("TRADE_" + rest), ["confirm", id]) == Some((id, false))
    ensures Read(CONFIRM_ZH + ("TRADE_" + rest), [CONFIRM_ZH[..2], id]) == Some((id, false))
    ensures Read(CONFIRM + ("LARGE " + ("TRADE_" + rest)), ["confirm", "large", id]) == Some((id, true))
    ensures Read(LARGE_ZH + ("TRADE_" + rest), [LARGE_ZH[..4], id]) == Some((id, true))
  {
    Prefixes(rest);
    Prefixes("TRADE_" + rest);
    hide CONFIRM, LARGE, CONFIRM_ZH, LARGE_ZH;
  }

  lemma {:induction false} UpperCommands(n: nat, lib: Lib)
    requires Valid(lib)
    ensures lib.upper("confirm " + TradeId(n)) == lib.upper("confirm ") + lib.upper(TradeId(n))
    ensures lib.upper(CONFIRM_ZH + TradeId(n)) == lib.upper(CONFIRM_ZH) + lib.upper(TradeId(n))
    ensures lib.upper(LARGE_ZH + TradeId(n)) == lib.upper(LARGE_ZH) + lib.upper(TradeId(n))
    ensures lib.upper("confirm large " + TradeId(n))
            == lib.upper("confirm ") + (lib.upper("large ") + lib.upper(TradeId(n)))
  {
    hide TradeId, Valid;
    UpperOf("confirm ", TradeId(n), lib);
    UpperOf(CONFIRM_ZH, TradeId(n), lib);
    UpperOf(LARGE_ZH, TradeId(n), lib);
    UpperOf("large ", TradeId(n), lib);
    UpperOf("confirm ", "large " + TradeId(n), lib);
    assert "confirm large " + TradeId(n) == "confirm " + ("large " + TradeId(n));
  }

  lemma {:induction false} CommandWords()
    ensures Word("confirm") && Word("large") && Word(CONFIRM_ZH[..2]) && Word(LARGE_ZH[..4])
    ensures CONFIRM_ZH == CONFIRM_ZH[..2] + [' '] && LARGE_ZH == LARGE_ZH[..4] + [' ']
    ensures "confirm " == "confirm" + [' '] && "confirm large " == "confirm" + [' '] + ("large" + [' '])
  {
  }
}
