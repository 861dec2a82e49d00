/** agent/stream_text.go: cutting a reply into the chunks that are streamed to the user. */
module StreamText {
  import opened Sequences
  import opened Text

  predicate IsBreak(c: char) {
    || c == '。' || c == '！' || c == '？' || c == '.' || c == '!' || c == '?'
    || c == ';' || c == '；' || c == '：' || c == ':' || c == '，' || c == ','
  }

  // ---- Reference: one pass over the text, character by character ----

  function Flush(cur: string): seq<string> {
    var part := Trim(cur);
    if part == "" then [] else [part]
  }

  /** The chunks of `s`, when `cur` is the text read since the last cut. */
  function Scan(s: string, cur: string): seq<string>
    decreases |s|
  {
    if s == "" then Flush(cur)
    else if s[0] == '\n' then Flush(cur) + Scan(s[1..], "")
    else if IsBreak(s[0]) then Flush(cur + [s[0]]) + Scan(s[1..], "")
    else Scan(s[1..], cur + [s[0]])
  }

  function Chunks(text: string): seq<string> {
    Scan(text, "")
  }

  // ---- What Go's code computes: strings.Split, then a scan of each trimmed line ----

  /** strings.Split(s, "\n") */
  function SplitLines(s: string): (lines: seq<string>)
    ensures |lines| >= 1
  {
    if s == "" then [""]
    else
      var rest := SplitLines(s[1..]);
      if s[0] == '\n' then [""] + rest else [[s[0]] + rest[0]] + rest[1..]
  }

  ghost function ScanLines(lines: seq<string>): seq<string> {
    if lines == [] then [] else Scan(lines[0], "") + ScanLines(lines[1..])
  }

  lemma {:induction false} ScanBySplit(s: string, cur: string)
    ensures Scan(s, cur) == Scan(SplitLines(s)[0], cur) + ScanLines(SplitLines(s)[1..])
    decreases |s|
  {
    if s != "" {
      var rest := SplitLines(s[1..]);
      if s[0] == '\n' {
        ScanBySplit(s[1..], "");
        assert SplitLines(s)[1..] == rest;
      } else {
        var first := [s[0]] + rest[0];
        assert SplitLines(s)[0] == first && SplitLines(s)[1..] == rest[1..];
        assert first[0] == s[0] && first[1..] == rest[0];
        ScanBySplit(s[1..], if IsBreak(s[0]) then "" else cur + [s[0]]);
      }
    } else {
      assert SplitLines(s)[1..] == [];
    }
  }

  /** The pending text matters only up to the white space at its left end. */
  lemma {:induction false} ScanPending(s: string, cur: string, cur': string)
    requires TrimLeft(cur) == TrimLeft(cur')
    ensures Scan(s, cur) == Scan(s, cur')
    decreases |s|
  {
    if s != "" {
      TrimLeftSnoc(cur, s[0]);
      TrimLeftSnoc(cur', s[0]);
      if s[0] != '\n' && !IsBreak(s[0]) {
        ScanPending(s[1..], cur + [s[0]], cur' + [s[0]]);
      }
    }
  }

  lemma {:induction false} ScanTrimLeft(s: string)
    ensures Scan(TrimLeft(s), "") == Scan(s, "")
    decreases |s|
  {
    if s != "" && IsSpace(s[0]) {
      ScanTrimLeft(s[1..]);
      if s[0] == '\n' {
        assert Scan(s, "") == Flush("") + Scan(s[1..], "");
      } else {
        TrimLeftSnoc("", s[0]);
        assert [s[0]][1..] == "";
        ScanPending(s[1..], "" + [s[0]], "");
      }
    }
  }

  lemma {:induction false} ScanSnocSpace(s: string, c: char, cur: string)
    requires IsSpace(c)
    ensures Scan(s + [c], cur) == Scan(s, cur)
    decreases |s|
  {
    if s == "" {
      assert s + [c] == [c] && [c][1..] == "";
      TrimSnocSpace(cur, c);
      assert Scan([c][1..], "") == [];
    } else {
      assert (s + [c])[1..] == s[1..] + [c];
      ScanSnocSpace(s[1..], c, if s[0] == '\n' || IsBreak(s[0]) then "" else cur + [s[0]]);
    }
  }

  lemma {:induction false} ScanTrimRight(s: string)
    ensures Scan(TrimRight(s), "") == Scan(s, "")
    decreases |s|
  {
    if s != "" && IsSpace(s[|s| - 1]) {
      ScanTrimRight(s[..|s| - 1]);
      ScanSnocSpace(s[..|s| - 1], s[|s| - 1], "");
      assert s == s[..|s| - 1] + [s[|s| - 1]];
    }
  }

  lemma {:induction false} ScanTrim(s: string)
    ensures Scan(Trim(s), "") == Scan(s, "")
  {
    ScanTrimRight(TrimLeft(s));
    ScanTrimLeft(s);
  }

  // ---- Cut laws: with `OneChunk` they fix Chunks completely ----

  lemma {:induction false} ScanConcat(a: string, b: string, cur: string)
    requires a != "" && (a[|a| - 1] == '\n' || IsBreak(a[|a| - 1]))
    ensures Scan(a + b, cur) == Scan(a, cur) + Scan(b, "")
    decreases |a|
  {
    assert (a + b)[0] == a[0] && (a + b)[1..] == a[1..] + b;
    var next := if a[0] == '\n' || IsBreak(a[0]) then "" else cur + [a[0]];
    if |a| == 1 {
      assert a[1..] == "" && a[1..] + b == b;
      assert Scan("", "") == [];
    } else {
      ScanConcat(a[1..], b, next);
    }
  }

  /** A break character or a newline is always a cut, whatever surrounds it. */
  lemma {:induction false} CutLaw(a: string, c: char, b: string)
    requires c == '\n' || IsBreak(c)
    ensures Chunks(a + [c] + b) == Chunks(a + [c]) + Chunks(b)
    ensures c == '\n' ==> Chunks(a + [c]) == Chunks(a)
  {
    ScanConcat(a + [c], b, "");
    if c == '\n' {
      ScanSnocSpace(a, c, "");
    }
  }

  predicate WellShaped(chunk: string) {
    && chunk != "" && Trimmed(chunk)
    && forall i :: 0 <= i < |chunk| ==> chunk[i] != '\n' && (IsBreak(chunk[i]) ==> i == |chunk| - 1)
  }

  lemma {:induction false} ScanUncut(s: string, cur: string)
    requires forall i :: 0 <= i < |s| ==> s[i] != '\n' && (IsBreak(s[i]) ==> i == |s| - 1)
    ensures Scan(s, cur) == Flush(cur + s)
    decreases |s|
  {
    if s == "" {
      assert cur + s == cur;
    } else {
      assert cur + s == cur + [s[0]] + s[1..];
      if IsBreak(s[0]) {
        assert s == [s[0]] && s[1..] == "";
        assert Scan("", "") == [];
      } else {
        forall i | 0 <= i < |s[1..]| ensures s[1..][i] != '\n' && (IsBreak(s[1..][i]) ==> i == |s[1..]| - 1) {
          assert s[1..][i] == s[i + 1];
        }
        ScanUncut(s[1..], cur + [s[0]]);
      }
    }
  }

  /** There are no other cuts: text shaped like one chunk is one chunk. */
  lemma {:induction false} OneChunk(chunk: string)
    requires WellShaped(chunk)
    ensures Chunks(chunk) == [chunk]
  {
    ScanUncut(chunk, "");
    assert "" + chunk == chunk;
  }

  // ---- Consequences for every reply ----

  lemma {:induction false} ScanShape(s: string, cur: string)
    requires forall i :: 0 <= i < |cur| ==> cur[i] != '\n' && !IsBreak(cur[i])
    ensures forall k :: 0 <= k < |Scan(s, cur)| ==> WellShaped(Scan(s, cur)[k])
    decreases |s|
  {
    FlushShape(cur);
    if s != "" && s[0] == '\n' {
      ScanShape(s[1..], "");
    } else if s != "" && IsBreak(s[0]) {
      FlushShape(cur + [s[0]]);
      ScanShape(s[1..], "");
    } else if s != "" {
      ScanShape(s[1..], cur + [s[0]]);
    }
  }

  /** Every streamed chunk is non-empty, trimmed, on one line, and broken only at its end. */
  lemma {:induction false} ChunksShape(text: string)
    ensures forall k :: 0 <= k < |Chunks(text)| ==> WellShaped(Chunks(text)[k])
  {
    ScanShape(text, "");
  }

  lemma {:induction false} FlushShape(cur: string)
    requires forall i :: 0 <= i < |cur| ==> cur[i] != '\n' && (IsBreak(cur[i]) ==> i == |cur| - 1)
    ensures forall k :: 0 <= k < |Flush(cur)| ==> WellShaped(Flush(cur)[k])
  {
    TrimIsSlice(cur);
  }

  lemma {:induction false} TrimLeftIsSuffix(s: string)
    ensures |TrimLeft(s)| <= |s| && TrimLeft(s) == s[|s| - |TrimLeft(s)|..]
  {
    if s != "" && IsSpace(s[0]) {
      TrimLeftIsSuffix(s[1..]);
    }
  }

  lemma {:induction false} TrimRightIsPrefix(s: string)
    ensures |TrimRight(s)| <= |s| && TrimRight(s) == s[..|TrimRight(s)|]
    ensures forall i :: |TrimRight(s)| <= i < |s| ==> IsSpace(s[i])
  {
    if s != "" && IsSpace(s[|s| - 1]) {
      TrimRightIsPrefix(s[..|s| - 1]);
    }
  }

  lemma {:induction false} TrimIsSlice(cur: string)
    requires forall i :: 0 <= i < |cur| ==> cur[i] != '\n' && (IsBreak(cur[i]) ==> i == |cur| - 1)
    ensures var part := Trim(cur);
            forall i :: 0 <= i < |part| ==> part[i] != '\n' && (IsBreak(part[i]) ==> i == |part| - 1)
  {
    TrimLeftIsSuffix(cur);
    var l := TrimLeft(cur);
    TrimRightIsPrefix(l);
    var d := |cur| - |l|;
    forall i | 0 <= i < |Trim(cur)| ensures Trim(cur)[i] == l[i] == cur[d + i] {}
  }

  /** The text without its white space. */
  function Solid(s: string): string {
    if s == "" then ""
    else if IsSpace(s[0]) then Solid(s[1..])
    else [s[0]] + Solid(s[1..])
  }

  lemma {:induction false} SolidConcat(a: string, b: string)
    ensures Solid(a + b) == Solid(a) + Solid(b)
  {
    if a == "" {
      assert a + b == b;
    } else {
      assert (a + b)[1..] == a[1..] + b;
      SolidConcat(a[1..], b);
    }
  }

  lemma {:induction false} SolidTrimLeft(s: string)
    ensures Solid(TrimLeft(s)) == Solid(s)
  {
    if s != "" && IsSpace(s[0]) {
      SolidTrimLeft(s[1..]);
    }
  }

  lemma {:induction false} SolidTrimRight(s: string)
    ensures Solid(TrimRight(s)) == Solid(s)
  {
    if s != "" && IsSpace(s[|s| - 1]) {
      var c := s[|s| - 1];
      SolidTrimRight(s[..|s| - 1]);
      assert s == s[..|s| - 1] + [c];
      SolidConcat(s[..|s| - 1], [c]);
      assert [c][1..] == "";
    }
  }

  function Concat(parts: seq<string>): string {
    if parts == [] then "" else parts[0] + Concat(parts[1..])
  }

  lemma {:induction false} ConcatAppend(a: seq<string>, b: seq<string>)
    ensures Concat(a + b) == Concat(a) + Concat(b)
  {
    if a == [] {
      assert a + b == b;
    } else {
      assert (a + b)[1..] == a[1..] + b;
      ConcatAppend(a[1..], b);
    }
  }

  lemma {:induction false} FlushConserves(cur: string)
    ensures Solid(Concat(Flush(cur))) == Solid(cur)
  {
    SolidTrimRight(TrimLeft(cur));
    SolidTrimLeft(cur);
    if Flush(cur) != [] {
      assert Concat([Trim(cur)]) == Trim(cur) + Concat([]) == Trim(cur);
    }
  }

  lemma {:induction false} SolidShift(cur: string, s: string)
    requires s != ""
    ensures Solid(cur + [s[0]]) + Solid(s[1..]) == Solid(cur) + Solid(s)
  {
    SolidConcat(cur, [s[0]]);
    SolidConcat([s[0]], s[1..]);
    assert [s[0]] + s[1..] == s;
  }

  lemma {:induction false} ScanConserves(s: string, cur: string)
    ensures Solid(Concat(Scan(s, cur))) == Solid(cur) + Solid(s)
    decreases |s|
  {
    if s == "" {
      FlushConserves(cur);
    } else if s[0] == '\n' {
      ScanConserves(s[1..], "");
      FlushThenScan(cur, s[1..]);
      assert Solid(s) == Solid(s[1..]);
    } else {
      SolidShift(cur, s);
      if IsBreak(s[0]) {
        ScanConserves(s[1..], "");
        FlushThenScan(cur + [s[0]], s[1..]);
      } else {
        ScanConserves(s[1..], cur + [s[0]]);
      }
    }
  }

  lemma {:induction false} FlushThenScan(cur: string, rest: string)
    requires Solid(Concat(Scan(rest, ""))) == Solid(rest)
    ensures Solid(Concat(Flush(cur) + Scan(rest, ""))) == Solid(cur) + Solid(rest)
  {
    FlushConserves(cur);
    ConcatAppend(Flush(cur), Scan(rest, ""));
    SolidConcat(Concat(Flush(cur)), Concat(Scan(rest, "")));
  }

  /** Streaming loses and adds nothing but white space. */
  lemma {:induction false} ChunksConserve(text: string)
    ensures Solid(Concat(Chunks(text))) == Solid(text)
  {
    ScanConserves(text, "");
  }

  function JoinLines(parts: seq<string>): string {
    if parts == [] then "" else parts[0] + "\n" + JoinLines(parts[1..])
  }

  /** Re-streaming a streamed reply, one chunk per line, reproduces it chunk for chunk. */
  lemma {:induction false} Restream(parts: seq<string>)
    requires forall k :: 0 <= k < |parts| ==> WellShaped(parts[k])
    ensures Chunks(JoinLines(parts)) == parts
  {
    if parts != [] {
      forall k | 0 <= k < |parts[1..]| ensures WellShaped(parts[1..][k]) { assert parts[1..][k] == parts[k + 1]; }
      Restream(parts[1..]);
      CutLaw(parts[0], '\n', JoinLines(parts[1..]));
      OneChunk(parts[0]);
      assert parts[0] + "\n" + JoinLines(parts[1..]) == parts[0] + ['\n'] + JoinLines(parts[1..]);
    }
  }

  lemma {:induction false} SolidEmpty(s: string)
    ensures Solid(s) == "" <==> Blank(s)
  {
    if s != "" {
      SolidEmpty(s[1..]);
      assert s == [s[0]] + s[1..];
      if Blank(s) {
        forall i | 0 <= i < |s[1..]| ensures IsSpace(s[1..][i]) { assert s[1..][i] == s[i + 1]; }
      }
    }
  }

  /** A reply streams to nothing exactly when it is blank. */
  lemma {:induction false} NoChunks(text: string)
    ensures Chunks(text) == [] <==> Blank(text)
  {
    ChunksConserve(text);
    ChunksShape(text);
    SolidEmpty(text);
    if Chunks(text) != [] {
      var c := Chunks(text)[0];
      assert WellShaped(c);
      SolidConcat(c, Concat(Chunks(text)[1..]));
      SolidEmpty(c);
      assert !IsSpace(c[0]);
    }
  }

  lemma {:induction false} ScanStep(line: string, start: nat, i: nat)
    requires start <= i < |line| && line[i] != '\n'
    ensures Scan(line[i..], line[start..i]) ==
            if IsBreak(line[i]) then Flush(line[start..i + 1]) + Scan(line[i + 1..], line[i + 1..i + 1])
            else Scan(line[i + 1..], line[start..i + 1])
  {
    assert line[i..][0] == line[i] && line[i..][1..] == line[i + 1..];
    assert line[start..i] + [line[i]] == line[start..i + 1];
    assert line[i + 1..i + 1] == "";
  }

  lemma {:induction false} ScanEnd(line: string, start: nat)
    requires start <= |line|
    ensures Scan(line[|line|..], line[start..|line|]) == Flush(line[start..])
    ensures start == |line| ==> Flush(line[start..]) == []
    ensures Scan(line[0..], line[0..0]) == Scan(line, "")
  {
    assert line[|line|..] == "" && line[start..|line|] == line[start..];
    assert line[0..] == line && line[0..0] == "";
  }

  /** splitStreamText, stream_text.go:30-43: the scan of one trimmed line. */
  method CutLine(line: string, chunks: seq<string>) returns (more: seq<string>)
    requires '\n' !in line
    ensures more == chunks + Scan(line, "")
  {
    hide Scan, Trim;
    ghost var cut: seq<string>, rest := [], Scan(line, "");
    var start := 0;
    more := chunks;
    ScanEnd(line, 0);
    for i := 0 to |line|
      invariant 0 <= start <= i
      invariant more == chunks + cut
      invariant Scan(line, "") == cut + rest
      invariant rest == Scan(line[i..], line[start..i])
    {
      ScanStep(line, start, i);
      if IsBreak(line[i]) {
        rest := Scan(line[i + 1..], line[i + 1..i + 1]);
        Assoc(cut, Flush(line[start..i + 1]), rest);
        cut := cut + Flush(line[start..i + 1]);
        var part := Trim(line[start..i + 1]);
        if part != "" {
          more := more + [part];
        }
        start := i + 1;
      }
    }
    ScanEnd(line, start);
    if start < |line| {
      var part := Trim(line[start..]);
      if part != "" {
        more := more + [part];
      }
    }
  }

  /** splitStreamText */
  method SplitStreamText(text: string) returns (chunks: seq<string>)
    ensures chunks == Chunks(text)
  {
    hide Scan, Trim, SplitLines;
    var body := Trim(text);
    ScanTrim(text);
    ScanNothing();
    if body == "" {
      return [];
    }
    var lines := SplitLines(body);
    LinesOf(body);
    chunks := [];
    ghost var done: seq<string> := [];
    assert lines[0..] == lines;
    for n := 0 to |lines|
      invariant chunks == done
      invariant ScanLines(lines) == done + ScanLines(lines[n..])
    {
      assert lines[n..][0] == lines[n] && lines[n..][1..] == lines[n + 1..];
      done := done + Scan(lines[n], "");
      var line := Trim(lines[n]);
      ScanTrim(lines[n]);
      TrimDropsNoNewline(lines[n]);
      if line != "" {
        chunks := CutLine(line, chunks);
      }
    }
    assert lines[|lines|..] == [];
    if |chunks| == 0 {
      NoChunksAfterTrim(text);
      assert false;
      chunks := [body];
    }
  }

  lemma {:induction false} ScanNothing()
    ensures Scan("", "") == []
  {
  }

  lemma {:induction false} LinesOf(body: string)
    ensures ScanLines(SplitLines(body)) == Chunks(body)
    ensures forall k :: 0 <= k < |SplitLines(body)| ==> '\n' !in SplitLines(body)[k]
  {
    ScanBySplit(body, "");
    SplitHasNoNewline(body);
  }

  lemma {:induction false} NoChunksAfterTrim(text: string)
    ensures Chunks(text) == [] <==> Trim(text) == ""
  {
    TrimBlank(text);
    NoChunks(text);
  }

  lemma {:induction false} SplitHasNoNewline(s: string)
    ensures forall k :: 0 <= k < |SplitLines(s)| ==> '\n' !in SplitLines(s)[k]
  {
    if s != "" {
      SplitHasNoNewline(s[1..]);
      var rest := SplitLines(s[1..]);
      assert '\n' !in rest[0];
    }
  }

  lemma {:induction false} TrimDropsNoNewline(s: string)
    requires '\n' !in s
    ensures '\n' !in Trim(s)
  {
    TrimLeftIsSuffix(s);
    TrimRightIsPrefix(TrimLeft(s));
  }
}
