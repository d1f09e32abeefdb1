/** Unified-diff application on a text file: line splitting, patch parsing and the
    two-index application loop, proved against an alignment of the two files. */
module UnifiedDiff {
  import opened Options

  type Line = string

  // ---------- Splitting a text into lines that keep their endings ----------

  const LINE_SEPARATOR: char := '\U{2028}'
  const PARAGRAPH_SEPARATOR: char := '\U{2029}'

  predicate IsBreak(ch: char) { ch == '\n' || ch == '\r' }

  /** Characters the pattern's dot matches no more than a line break, yet which end no line. */
  predicate IsSeparator(ch: char) { ch == LINE_SEPARATOR || ch == PARAGRAPH_SEPARATOR }

  /** How far the dot runs. */
  function RunLength(text: string): (n: nat)
    ensures n <= |text|
    ensures forall i | 0 <= i < n :: !IsBreak(text[i]) && !IsSeparator(text[i])
    ensures n < |text| ==> IsBreak(text[n]) || IsSeparator(text[n])
  {
    if text == [] || IsBreak(text[0]) || IsSeparator(text[0]) then 0 else 1 + RunLength(text[1..])
  }

  function BreakLength(text: string, at: nat): (n: nat)
    requires at < |text| && IsBreak(text[at])
    ensures 1 <= n && at + n <= |text|
  {
    if text[at] == '\r' && at + 1 < |text| && text[at + 1] == '\n' then 2 else 1
  }

  /** The matches of the line pattern.  A run that stops at a separator matches nowhere up
      to and including the separator, so that part of the text is in no line. */
  function SplitLines(text: string): seq<Line>
    decreases |text|
  {
    if text == [] then []
    else
      var n := RunLength(text);
      if n == |text| then [text]
      else if IsBreak(text[n]) then
        var end := n + BreakLength(text, n);
        [text[..end]] + SplitLines(text[end..])
      else SplitLines(text[n + 1..])
  }

  function Join(lines: seq<Line>): string {
    if lines == [] then [] else lines[0] + Join(lines[1..])
  }

  predicate IsPlain(text: string) { forall i | 0 <= i < |text| :: !IsSeparator(text[i]) }

  /** Where the line starting a text ends. */
  function LineLength(text: string): (n: nat)
    requires text != []
    ensures 1 <= n <= |text|
  {
    var n := RunLength(text);
    if n == |text| then n else if IsBreak(text[n]) then n + BreakLength(text, n) else n + 1
  }

  predicate RunsIntoSeparator(text: string) {
    RunLength(text) < |text| && IsSeparator(text[RunLength(text)])
  }

  lemma SplitStep(text: string)
    requires text != []
    ensures var n := LineLength(text);
            SplitLines(text) == (if RunsIntoSeparator(text) then [] else [text[..n]]) + SplitLines(text[n..])
  {
    var n := LineLength(text);
    var rest := SplitLines(text[n..]);
    assert [] + rest == rest;
    if RunLength(text) == |text| {
      assert text[..n] == text && text[n..] == [];
    }
  }

  /** Splitting and joining restores a text exactly when it holds no separator, and
      otherwise loses some of it. */
  lemma {:induction false} JoinOfSplit(text: string)
    ensures if IsPlain(text) then Join(SplitLines(text)) == text else |Join(SplitLines(text))| < |text|
    decreases |text|
  {
    if text != [] {
      JoinOfSplit(text[LineLength(text)..]);
      JoinStep(text);
    }
  }

  lemma JoinStep(text: string)
    requires text != []
    requires var rest := text[LineLength(text)..];
             if IsPlain(rest) then Join(SplitLines(rest)) == rest else |Join(SplitLines(rest))| < |rest|
    ensures if IsPlain(text) then Join(SplitLines(text)) == text else |Join(SplitLines(text))| < |text|
  {
    var n := LineLength(text);
    var first, rest := text[..n], text[n..];
    var lines := SplitLines(rest);
    assert text == first + rest && |first| == n;
    SplitStep(text);
    if RunsIntoSeparator(text) {
      assert [] + lines == lines;
    }
  }

  /** A run of ordinary characters with at most one line ending, which comes last. */
  predicate IsLine(line: Line) {
    line != [] && var n := RunLength(line); n == |line| || (IsBreak(line[n]) && n + BreakLength(line, n) == |line|)
  }

  predicate IsEnded(line: Line) { IsLine(line) && IsBreak(line[|line| - 1]) }

  /** A carriage return and the line feed after it are one line ending. */
  predicate Merges(line: Line, next: Line) {
    line != [] && next != [] && line[|line| - 1] == '\r' && next[0] == '\n'
  }

  predicate WellSplit(lines: seq<Line>) {
    lines == [] || (IsLine(lines[0]) && (|lines| > 1 ==> IsEnded(lines[0]) && !Merges(lines[0], lines[1])) && WellSplit(lines[1..]))
  }

  predicate StaySeparate(lines: seq<Line>) { SplitLines(Join(lines)) == lines }

  /** The lines of a list are still those lines once joined exactly when all but the last are
      ended, and no ending merges with what follows. */
  lemma SplitOfJoin(lines: seq<Line>)
    ensures StaySeparate(lines) <==> WellSplit(lines)
  {
    if WellSplit(lines) { WellSplitStays(lines); }
    if StaySeparate(lines) {
      JoinOfSplit(Join(lines));
      SplitIsWellSplit(Join(lines));
    }
  }

  lemma {:induction false} WellSplitStays(lines: seq<Line>)
    requires WellSplit(lines)
    ensures StaySeparate(lines)
  {
    if lines != [] {
      var rest := Join(lines[1..]);
      WellSplitStays(lines[1..]);
      if |lines| > 1 {
        assert rest[0] == lines[1][0];
        FirstLineStays(lines[0], rest);
      } else {
        assert lines[0] + rest == lines[0] && lines == [lines[0]];
        LastLineStays(lines[0]);
      }
    }
  }

  lemma FirstLineStays(line: Line, rest: string)
    requires IsEnded(line) && rest != [] && !(line[|line| - 1] == '\r' && rest[0] == '\n')
    ensures SplitLines(line + rest) == [line] + SplitLines(rest)
  {
    var text, n := line + rest, RunLength(line);
    assert forall i | 0 <= i < |line| :: text[i] == line[i];
    RunStops(text, n);
    assert BreakLength(text, n) == BreakLength(line, n) by {
      if n + 1 == |line| { assert text[n + 1] == rest[0]; }
    }
    assert text[..|line|] == line && text[|line|..] == rest;
  }

  lemma LastLineStays(line: Line)
    requires IsLine(line)
    ensures SplitLines(line) == [line]
  {
    if RunLength(line) < |line| { assert line[..|line|] == line && line[|line|..] == [] && SplitLines([]) == []; }
  }

  lemma {:induction false} SplitIsWellSplit(text: string)
    requires IsPlain(text)
    ensures WellSplit(SplitLines(text))
    ensures text != [] ==> SplitLines(text) != [] && SplitLines(text)[0] != [] && SplitLines(text)[0][0] == text[0]
    decreases |text|
  {
    if text != [] {
      var n := LineLength(text);
      SplitIsWellSplit(text[n..]);
      SplitStep(text);
      CutIsLine(text);
      assert SplitLines(text)[1..] == SplitLines(text[n..]);
    }
  }

  lemma CutIsLine(text: string)
    requires text != [] && !RunsIntoSeparator(text)
    ensures var n := LineLength(text);
            && IsLine(text[..n])
            && (n < |text| ==> IsEnded(text[..n]) && !(text[n - 1] == '\r' && text[n] == '\n'))
  {
    var n, run := LineLength(text), RunLength(text);
    if run < |text| { RunStops(text[..n], run); }
  }

  lemma RunStops(text: string, n: nat)
    requires n < |text| && IsBreak(text[n]) && forall i | 0 <= i < n :: !IsBreak(text[i]) && !IsSeparator(text[i])
    ensures RunLength(text) == n
  {}

  // ---------- Patches ----------

  datatype Edit = Keep(line: Line) | Remove(line: Line) | Add(line: Line)

  datatype Hunk = Hunk(oldStart: nat, edits: seq<Edit>)

  predicate StartsWith(line: Line, prefix: string) { prefix <= line }

  predicate IsSpace(ch: char) {
    ch in "\t\n\U{000b}\U{000c}\r \U{00a0}\U{1680}\U{2028}\U{2029}\U{202f}\U{205f}\U{3000}\U{feff}" || '\U{2000}' <= ch <= '\U{200a}'
  }

  predicate IsDigit(ch: char) { '0' <= ch <= '9' }

  function DigitsLength(s: string): (n: nat)
    ensures n <= |s|
    ensures forall i | 0 <= i < n :: IsDigit(s[i])
  {
    if s != [] && IsDigit(s[0]) then 1 + DigitsLength(s[1..]) else 0
  }

  function DecimalValue(s: string): nat
    requires forall i | 0 <= i < |s| :: IsDigit(s[i])
  {
    if s == [] then 0
    else
      assert IsDigit(s[|s| - 1]);
      DecimalValue(s[..|s| - 1]) * 10 + (s[|s| - 1] as int - '0' as int)
  }

  /** `\d+(?:,\d+)?`: the rest of the text after a range, and the number that starts it. */
  function ParseRange(s: string): Option<(nat, string)> {
    var n := DigitsLength(s);
    if n == 0 then None
    else
      var rest := s[n..];
      var m := if rest != [] && rest[0] == ',' then DigitsLength(rest[1..]) else 0;
      Some((DecimalValue(s[..n]), if m > 0 then rest[1 + m..] else rest))
  }

  /** `@@` and spaces alone, or `@@ -range +range @@` with anything after it. */
  function ParseHeader(line: Line): Option<nat>
    requires StartsWith(line, "@@")
  {
    if forall i | 2 <= i < |line| :: IsSpace(line[i]) then Some(1)
    else if !StartsWith(line, "@@ -") then None
    else
      match ParseRange(line[4..])
      case None => None
      case Some((start, rest)) =>
        if !StartsWith(rest, " +") then None
        else
          match ParseRange(rest[2..])
          case None => None
          case Some((_, tail)) => if StartsWith(tail, " @@") then Some(start) else None
  }

  datatype BodyLine = NoNewlineMark | Change(edit: Edit) | Unsupported

  function ParseBodyLine(line: Line): BodyLine {
    if StartsWith(line, "\\ ") then NoNewlineMark
    else if StartsWith(line, " ") then Change(Keep(line[1..]))
    else if StartsWith(line, "-") then Change(Remove(line[1..]))
    else if StartsWith(line, "+") then Change(Add(line[1..]))
    else Unsupported
  }

  /** The edits up to the next header, and the lines from there on. */
  function ParseBody(lines: seq<Line>): (r: Option<(seq<Edit>, seq<Line>)>)
    ensures r.Some? ==> |r.value.1| <= |lines|
  {
    if lines == [] || StartsWith(lines[0], "@@") then Some(([], lines))
    else
      match ParseBodyLine(lines[0])
      case Unsupported => None
      case NoNewlineMark => ParseBody(lines[1..])
      case Change(edit) =>
        match ParseBody(lines[1..])
        case None => None
        case Some((edits, rest)) => Some(([edit] + edits, rest))
  }

  /** Lines outside a hunk are ignored until a header. */
  function ParsePatch(lines: seq<Line>): Option<seq<Hunk>>
    decreases |lines|
  {
    if lines == [] then Some([])
    else if !StartsWith(lines[0], "@@") then ParsePatch(lines[1..])
    else
      match ParseHeader(lines[0])
      case None => None
      case Some(start) =>
        match ParseBody(lines[1..])
        case None => None
        case Some((edits, rest)) =>
          match ParsePatch(rest)
          case None => None
          case Some(hunks) => Some([Hunk(start, edits)] + hunks)
  }

  // ---------- The alignment a patch describes ----------

  function OldLines(script: seq<Edit>): seq<Line> {
    if script == [] then []
    else (if script[0].Add? then [] else [script[0].line]) + OldLines(script[1..])
  }

  function NewLines(script: seq<Edit>): seq<Line> {
    if script == [] then []
    else (if script[0].Remove? then [] else [script[0].line]) + NewLines(script[1..])
  }

  function Kept(lines: seq<Line>): seq<Edit> { seq(|lines|, i requires 0 <= i < |lines| => Keep(lines[i])) }

  function StartOf(index: nat, hunk: Hunk): nat { if index < hunk.oldStart - 1 then hunk.oldStart - 1 else index }

  /** The whole alignment from line `index` on: the lines up to each hunk are kept, each
      hunk contributes its edits, and what is left is kept. */
  function Script(original: seq<Line>, index: nat, hunks: seq<Hunk>): Option<seq<Edit>>
    decreases |hunks|
  {
    if index > |original| then None
    else if hunks == [] then Some(Kept(original[index..]))
    else
      var start := StartOf(index, hunks[0]);
      if start > |original| then None
      else
        match Script(original, start + |OldLines(hunks[0].edits)|, hunks[1..])
        case None => None
        case Some(rest) => Some(Kept(original[index..start]) + hunks[0].edits + rest)
  }

  /** The patch applies when the alignment's old side is the file; the result is its new side. */
  function Patched(original: seq<Line>, index: nat, hunks: seq<Hunk>): Option<seq<Line>> {
    match Script(original, index, hunks)
    case None => None
    case Some(script) => if OldLines(script) == original[index..] then Some(NewLines(script)) else None
  }

  // ---------- What an applied patch has done ----------

  function CountAdds(script: seq<Edit>): nat {
    if script == [] then 0 else (if script[0].Add? then 1 else 0) + CountAdds(script[1..])
  }

  function CountRemoves(script: seq<Edit>): nat {
    if script == [] then 0 else (if script[0].Remove? then 1 else 0) + CountRemoves(script[1..])
  }

  function KeptLines(script: seq<Edit>): seq<Line> {
    if script == [] then []
    else (if script[0].Keep? then [script[0].line] else []) + KeptLines(script[1..])
  }

  function Edits(hunks: seq<Hunk>): seq<Edit> {
    if hunks == [] then [] else hunks[0].edits + Edits(hunks[1..])
  }

  predicate ChangesAnything(hunks: seq<Hunk>) { CountAdds(Edits(hunks)) + CountRemoves(Edits(hunks)) > 0 }

  lemma {:induction false} OldLinesOfParts(a: seq<Edit>, b: seq<Edit>)
    ensures OldLines(a + b) == OldLines(a) + OldLines(b)
  {
    if a == [] {
      assert a + b == b;
    } else {
      assert (a + b)[0] == a[0] && (a + b)[1..] == a[1..] + b;
      OldLinesOfParts(a[1..], b);
    }
  }

  lemma {:induction false} NewLinesOfParts(a: seq<Edit>, b: seq<Edit>)
    ensures NewLines(a + b) == NewLines(a) + NewLines(b)
  {
    if a == [] {
      assert a + b == b;
    } else {
      assert (a + b)[0] == a[0] && (a + b)[1..] == a[1..] + b;
      NewLinesOfParts(a[1..], b);
    }
  }

  lemma {:induction false} CountsOfParts(a: seq<Edit>, b: seq<Edit>)
    ensures CountAdds(a + b) == CountAdds(a) + CountAdds(b)
    ensures CountRemoves(a + b) == CountRemoves(a) + CountRemoves(b)
  {
    if a == [] {
      assert a + b == b;
    } else {
      assert (a + b)[0] == a[0] && (a + b)[1..] == a[1..] + b;
      CountsOfParts(a[1..], b);
    }
  }

  lemma {:induction false} KeptSides(lines: seq<Line>)
    ensures OldLines(Kept(lines)) == lines && NewLines(Kept(lines)) == lines
    ensures CountAdds(Kept(lines)) == 0 && CountRemoves(Kept(lines)) == 0
  {
    if lines != [] {
      assert Kept(lines) == [Keep(lines[0])] + Kept(lines[1..]);
      KeptSides(lines[1..]);
    }
  }

  lemma {:induction false} SideLengths(script: seq<Edit>)
    ensures |NewLines(script)| + CountRemoves(script) == |OldLines(script)| + CountAdds(script)
    ensures CountAdds(script) + CountRemoves(script) == 0 ==> NewLines(script) == OldLines(script)
    ensures |KeptLines(script)| + CountAdds(script) == |NewLines(script)|
  {
    if script != [] { SideLengths(script[1..]); }
  }

  /** The alignment's additions and removals are those of the hunks. */
  lemma {:induction false} ScriptCounts(original: seq<Line>, index: nat, hunks: seq<Hunk>)
    requires Script(original, index, hunks).Some?
    ensures var script := Script(original, index, hunks).value;
            CountAdds(script) == CountAdds(Edits(hunks)) && CountRemoves(script) == CountRemoves(Edits(hunks))
    decreases |hunks|
  {
    if hunks == [] {
      KeptSides(original[index..]);
    } else {
      var start := StartOf(index, hunks[0]);
      var next := start + |OldLines(hunks[0].edits)|;
      ScriptCounts(original, next, hunks[1..]);
      KeptSides(original[index..start]);
      CountsOfParts(Kept(original[index..start]) + hunks[0].edits, Script(original, next, hunks[1..]).value);
      CountsOfParts(Kept(original[index..start]), hunks[0].edits);
      CountsOfParts(hunks[0].edits, Edits(hunks[1..]));
    }
  }

  /** Lengths balance, and a patch that changes nothing returns the file. */
  lemma PatchedLengths(original: seq<Line>, hunks: seq<Hunk>)
    requires Patched(original, 0, hunks).Some?
    ensures var output := Patched(original, 0, hunks).value;
            && |output| + CountRemoves(Edits(hunks)) == |original| + CountAdds(Edits(hunks))
            && (!ChangesAnything(hunks) ==> output == original)
  {
    var script := Script(original, 0, hunks).value;
    ScriptCounts(original, 0, hunks);
    SideLengths(script);
    assert original[0..] == original;
  }

  /** Dropping the added lines from the output and the removed ones from the file leaves
      the same lines, those the alignment keeps. */
  ghost predicate Interleaves(whole: seq<Line>, part: seq<Line>, rest: seq<Line>)
    decreases |whole|
  {
    if whole == [] then part == [] && rest == []
    else
      || (part != [] && whole[0] == part[0] && Interleaves(whole[1..], part[1..], rest))
      || (rest != [] && whole[0] == rest[0] && Interleaves(whole[1..], part, rest[1..]))
  }

  function AddedLines(script: seq<Edit>): seq<Line> {
    if script == [] then [] else (if script[0].Add? then [script[0].line] else []) + AddedLines(script[1..])
  }

  function RemovedLines(script: seq<Edit>): seq<Line> {
    if script == [] then [] else (if script[0].Remove? then [script[0].line] else []) + RemovedLines(script[1..])
  }

  lemma {:induction false} SidesShareKeptLines(script: seq<Edit>)
    ensures Interleaves(OldLines(script), KeptLines(script), RemovedLines(script))
    ensures Interleaves(NewLines(script), KeptLines(script), AddedLines(script))
  {
    if script != [] {
      SidesShareKeptLines(script[1..]);
      var line, kept := script[0].line, KeptLines(script[1..]);
      assert [] + kept == kept;
      assert [] + OldLines(script[1..]) == OldLines(script[1..]) && [] + NewLines(script[1..]) == NewLines(script[1..]);
      assert [] + AddedLines(script[1..]) == AddedLines(script[1..]);
      assert [] + RemovedLines(script[1..]) == RemovedLines(script[1..]);
    }
  }

  lemma PatchedKeepsTheRest(original: seq<Line>, hunks: seq<Hunk>)
    requires Patched(original, 0, hunks).Some?
    ensures var script, output := Script(original, 0, hunks).value, Patched(original, 0, hunks).value;
            && Interleaves(original, KeptLines(script), RemovedLines(script))
            && Interleaves(output, KeptLines(script), AddedLines(script))
  {
    SidesShareKeptLines(Script(original, 0, hunks).value);
    assert original[0..] == original;
  }

  // ---------- The inverse patch ----------

  function Swap(edit: Edit): Edit {
    match edit
    case Keep(line) => Keep(line)
    case Remove(line) => Add(line)
    case Add(line) => Remove(line)
  }

  function SwapAll(script: seq<Edit>): seq<Edit> { seq(|script|, i requires 0 <= i < |script| => Swap(script[i])) }

  /** The hunks with `+` and `-` swapped, each starting where its lines are in the output. */
  function Inverse(index: nat, output: nat, hunks: seq<Hunk>): seq<Hunk>
    decreases |hunks|
  {
    if hunks == [] then []
    else
      var start := StartOf(index, hunks[0]);
      var at := output + (start - index);
      [Hunk(at + 1, SwapAll(hunks[0].edits))]
      + Inverse(start + |OldLines(hunks[0].edits)|, at + |NewLines(hunks[0].edits)|, hunks[1..])
  }

  lemma {:induction false} SwapSides(script: seq<Edit>)
    ensures OldLines(SwapAll(script)) == NewLines(script) && NewLines(SwapAll(script)) == OldLines(script)
  {
    if script != [] {
      assert SwapAll(script) == [Swap(script[0])] + SwapAll(script[1..]);
      SwapSides(script[1..]);
    }
  }

  lemma SwapParts(a: seq<Edit>, b: seq<Edit>)
    ensures SwapAll(a + b) == SwapAll(a) + SwapAll(b)
  {}

  lemma SwapKept(lines: seq<Line>)
    ensures SwapAll(Kept(lines)) == Kept(lines)
  {}

  /** The inverse hunks describe the swapped alignment. */
  lemma {:induction false} InverseScript(original: seq<Line>, index: nat, before: seq<Line>, hunks: seq<Hunk>)
    requires Patched(original, index, hunks).Some?
    ensures var output := before + Patched(original, index, hunks).value;
            Script(output, |before|, Inverse(index, |before|, hunks)) == Some(SwapAll(Script(original, index, hunks).value))
    decreases |hunks|
  {
    if hunks == [] {
      KeptSides(original[index..]);
      SwapKept(original[index..]);
      assert (before + original[index..])[|before|..] == original[index..];
    } else {
      var start, next, rest := PatchedSplits(original, index, hunks);
      var here := before + original[index..start] + NewLines(hunks[0].edits);
      InverseScript(original, next, here, hunks[1..]);
      InverseExtends(original, index, before, hunks, start, next, rest);
    }
  }

  lemma InverseExtends(original: seq<Line>, index: nat, before: seq<Line>, hunks: seq<Hunk>, start: nat, next: nat, rest: seq<Edit>)
    requires hunks != [] && SplitsAt(original, index, hunks, start, next, rest)
    requires Patched(original, index, hunks).Some?
    requires var here := before + original[index..start] + NewLines(hunks[0].edits);
             Script(here + NewLines(rest), |here|, Inverse(next, |here|, hunks[1..])) == Some(SwapAll(rest))
    ensures var output := before + Patched(original, index, hunks).value;
            Script(output, |before|, Inverse(index, |before|, hunks)) == Some(SwapAll(Script(original, index, hunks).value))
  {
    hide Script, OldLines, NewLines, Inverse, SwapAll;
    var gap, edits := original[index..start], hunks[0].edits;
    var here := before + gap + NewLines(edits);
    assert Patched(original, index, hunks) == Some(gap + NewLines(edits) + NewLines(rest)) by {
      SidesOfParts(gap, edits, rest);
    }
    assert before + (gap + NewLines(edits) + NewLines(rest)) == here + NewLines(rest);
    InverseCons(index, |before|, hunks, |gap|, next, |here|);
    InverseStep(before, gap, edits, NewLines(rest), Inverse(next, |here|, hunks[1..]), rest);
  }

  lemma InverseCons(index: nat, output: nat, hunks: seq<Hunk>, gap: nat, next: nat, after: nat)
    requires hunks != [] && index + gap == StartOf(index, hunks[0])
    requires next == index + gap + |OldLines(hunks[0].edits)| && after == output + gap + |NewLines(hunks[0].edits)|
    ensures Inverse(index, output, hunks)
         == [Hunk(output + gap + 1, SwapAll(hunks[0].edits))] + Inverse(next, after, hunks[1..])
  {}

  lemma SidesOfParts(gap: seq<Line>, edits: seq<Edit>, rest: seq<Edit>)
    ensures OldLines(Kept(gap) + edits + rest) == gap + OldLines(edits) + OldLines(rest)
    ensures NewLines(Kept(gap) + edits + rest) == gap + NewLines(edits) + NewLines(rest)
  {
    KeptSides(gap);
    OldLinesOfParts(Kept(gap) + edits, rest);
    OldLinesOfParts(Kept(gap), edits);
    NewLinesOfParts(Kept(gap) + edits, rest);
    NewLinesOfParts(Kept(gap), edits);
  }

  /** What the hunks after the first one have to be, given where the first one ends. */
  ghost predicate SplitsAt(original: seq<Line>, index: nat, hunks: seq<Hunk>, start: nat, next: nat, rest: seq<Edit>)
    requires hunks != []
  {
    && index <= start <= |original| && start == StartOf(index, hunks[0])
    && next == start + |OldLines(hunks[0].edits)|
    && Script(original, next, hunks[1..]) == Some(rest)
    && next <= |original| && OldLines(rest) == original[next..]
    && Script(original, index, hunks) == Some(Kept(original[index..start]) + hunks[0].edits + rest)
  }

  /** An applied patch is its first hunk followed by an applied patch. */
  lemma PatchedSplits(original: seq<Line>, index: nat, hunks: seq<Hunk>) returns (start: nat, next: nat, rest: seq<Edit>)
    requires hunks != [] && Patched(original, index, hunks).Some?
    ensures SplitsAt(original, index, hunks, start, next, rest)
  {
    var edits := hunks[0].edits;
    start := StartOf(index, hunks[0]);
    next := start + |OldLines(edits)|;
    rest := Script(original, next, hunks[1..]).value;
    SidesOfParts(original[index..start], edits, rest);
    OldSideSplits(original, index, start, next, OldLines(edits), OldLines(rest));
  }

  lemma InverseStep(before: seq<Line>, gap: seq<Line>, edits: seq<Edit>, after: seq<Line>, hunks: seq<Hunk>, rest: seq<Edit>)
    requires var output := before + gap + NewLines(edits) + after;
             Script(output, |before + gap + NewLines(edits)|, hunks) == Some(SwapAll(rest))
    ensures var output := before + gap + NewLines(edits) + after;
            Script(output, |before|, [Hunk(|before| + |gap| + 1, SwapAll(edits))] + hunks)
            == Some(SwapAll(Kept(gap) + edits + rest))
  {
    var output := before + gap + NewLines(edits) + after;
    var all := [Hunk(|before| + |gap| + 1, SwapAll(edits))] + hunks;
    assert all[1..] == hunks;
    assert output[|before|..|before| + |gap|] == gap;
    SwapSides(edits);
    SwapParts(Kept(gap) + edits, rest);
    SwapParts(Kept(gap), edits);
    SwapKept(gap);
  }

  lemma OldSideSplits(original: seq<Line>, index: nat, start: nat, next: nat, middle: seq<Line>, rest: seq<Line>)
    requires index <= start <= |original| && next == start + |middle|
    requires original[index..start] + middle + rest == original[index..]
    ensures next <= |original| && rest == original[next..]
  {
    var all := original[index..];
    assert |all| == (start - index) + |middle| + |rest|;
    assert rest == all[next - index..];
  }

  /** Applying the inverse patch to the output restores the file. */
  lemma InverseRestores(original: seq<Line>, hunks: seq<Hunk>)
    requires Patched(original, 0, hunks).Some?
    ensures Patched(Patched(original, 0, hunks).value, 0, Inverse(0, 0, hunks)) == Some(original)
  {
    var output, script := Patched(original, 0, hunks).value, Script(original, 0, hunks).value;
    InverseScript(original, 0, [], hunks);
    assert [] + output == output && output[0..] == output && original[0..] == original;
    SwapSides(script);
  }

  // ---------- The application loop ----------

  datatype TextPatchResult = TextPatchResult(content: string, changed: bool)

  /** What a patch does to a file, as texts: nothing when a header or a body line is
      malformed, or a kept or removed line is not the file's. */
  function Applied(originalContent: string, patchContent: string): Option<TextPatchResult> {
    match ParsePatch(SplitLines(patchContent))
    case None => None
    case Some(hunks) =>
      match Patched(SplitLines(originalContent), 0, hunks)
      case None => None
      case Some(lines) => Some(TextPatchResult(Join(lines), ChangesAnything(hunks)))
  }

  datatype Progress = Progress(lines: seq<Line>, changed: bool)

  ghost function After(done: Progress, remaining: Option<Progress>): Option<Progress> {
    match remaining
    case None => None
    case Some(rest) => Some(Progress(done.lines + rest.lines, done.changed || rest.changed))
  }

  /** What is still to come outside a hunk, from line `index` of the file. */
  ghost function Remaining(original: seq<Line>, index: nat, patch: seq<Line>): Option<Progress> {
    AfterHunks(original, index, ParsePatch(patch))
  }

  ghost function AfterHunks(original: seq<Line>, index: nat, parsed: Option<seq<Hunk>>): Option<Progress> {
    match parsed
    case None => None
    case Some(hunks) =>
      match Patched(original, index, hunks)
      case None => None
      case Some(lines) => Some(Progress(lines, ChangesAnything(hunks)))
  }

  ghost function AfterEdits(original: seq<Line>, index: nat, edits: seq<Edit>, rest: seq<Line>): Option<Progress>
    requires index <= |original|
  {
    if OldLines(edits) <= original[index..] then
      After(Progress(NewLines(edits), CountAdds(edits) + CountRemoves(edits) > 0),
            Remaining(original, index + |OldLines(edits)|, rest))
    else None
  }

  /** What is still to come inside a hunk. */
  ghost function RemainingInHunk(original: seq<Line>, index: nat, patch: seq<Line>): Option<Progress>
    requires index <= |original|
  {
    match ParseBody(patch)
    case None => None
    case Some((edits, rest)) => AfterEdits(original, index, edits, rest)
  }

  lemma AfterNothing(remaining: Option<Progress>)
    ensures After(Progress([], false), remaining) == remaining
  {
    if remaining.Some? { assert [] + remaining.value.lines == remaining.value.lines; }
  }

  lemma AfterAfter(first: Progress, second: Progress, remaining: Option<Progress>)
    ensures After(first, After(second, remaining))
         == After(Progress(first.lines + second.lines, first.changed || second.changed), remaining)
  {
    if remaining.Some? {
      assert first.lines + (second.lines + remaining.value.lines) == first.lines + second.lines + remaining.value.lines;
    }
  }

  lemma PatchedByHunk(original: seq<Line>, index: nat, hunks: seq<Hunk>)
    requires hunks != [] && index <= |original|
    ensures var edits, start := hunks[0].edits, StartOf(index, hunks[0]);
            Patched(original, index, hunks)
            == if start > |original| || !(OldLines(edits) <= original[start..]) then None
               else match Patched(original, start + |OldLines(edits)|, hunks[1..])
                    case None => None
                    case Some(lines) => Some(original[index..start] + NewLines(edits) + lines)
  {
    var edits, start := hunks[0].edits, StartOf(index, hunks[0]);
    var next := start + |OldLines(edits)|;
    if start <= |original| && Script(original, next, hunks[1..]).Some? {
      var gap, rest := original[index..start], Script(original, next, hunks[1..]).value;
      SidesOfParts(gap, edits, rest);
      assert Script(original, index, hunks) == Some(Kept(gap) + edits + rest);
      OldSideMatches(original, index, start, OldLines(edits), OldLines(rest));
      hide Script, OldLines, NewLines, Kept, StartOf;
    }
  }

  /** An old side agrees with the file exactly when its parts do. */
  lemma OldSideMatches(original: seq<Line>, index: nat, start: nat, middle: seq<Line>, rest: seq<Line>)
    requires index <= start <= |original|
    ensures original[index..start] + middle + rest == original[index..]
            <==> middle <= original[start..] && rest == original[start + |middle|..]
  {
    if original[index..start] + middle + rest == original[index..] {
      OldSideSplits(original, index, start, start + |middle|, middle, rest);
      var all := original[index..];
      assert all[start - index..][..|middle|] == middle && all[start - index..] == original[start..];
    }
  }

  /** Reaching a well-formed header copies the lines before the hunk and enters it. */
  lemma EnterHunk(original: seq<Line>, index: nat, patch: seq<Line>)
    requires index <= |original| && patch != [] && StartsWith(patch[0], "@@") && ParseHeader(patch[0]).Some?
    ensures var start := StartOf(index, Hunk(ParseHeader(patch[0]).value, []));
            Remaining(original, index, patch)
            == if start > |original| then None
               else After(Progress(original[index..start], false), RemainingInHunk(original, start, patch[1..]))
  {
    hide ParsePatch, ParseBody, ParseHeader, AfterEdits, Patched, StartsWith;
    HunkParses(patch);
    if ParsePatch(patch).Some? {
      var (edits, rest) := ParseBody(patch[1..]).value;
      EnterParsedHunk(original, index, Hunk(ParseHeader(patch[0]).value, edits), rest);
    } else if ParseBody(patch[1..]).Some? {
      var (edits, rest) := ParseBody(patch[1..]).value;
      UnparsedRest(original, StartOf(index, Hunk(ParseHeader(patch[0]).value, edits)), edits, rest);
    }
  }

  lemma UnparsedRest(original: seq<Line>, index: nat, edits: seq<Edit>, rest: seq<Line>)
    requires ParsePatch(rest).None?
    ensures index <= |original| ==> AfterEdits(original, index, edits, rest).None?
  {}

  lemma HunkParses(patch: seq<Line>)
    requires patch != [] && StartsWith(patch[0], "@@") && ParseHeader(patch[0]).Some?
    ensures ParsePatch(patch) == match ParseBody(patch[1..])
                                 case None => None
                                 case Some((edits, rest)) =>
                                   match ParsePatch(rest)
                                   case None => None
                                   case Some(hunks) => Some([Hunk(ParseHeader(patch[0]).value, edits)] + hunks)
  {}

  lemma EnterParsedHunk(original: seq<Line>, index: nat, hunk: Hunk, rest: seq<Line>)
    requires index <= |original| && ParsePatch(rest).Some?
    ensures var edits, start := hunk.edits, StartOf(index, hunk);
            AfterHunks(original, index, Some([hunk] + ParsePatch(rest).value))
            == if start > |original| then None
               else After(Progress(original[index..start], false), AfterEdits(original, start, edits, rest))
  {
    hide Patched, ParsePatch, OldLines, NewLines, CountAdds, CountRemoves;
    var edits, start := hunk.edits, StartOf(index, hunk);
    var later := ParsePatch(rest).value;
    var hunks := [hunk] + later;
    assert hunks[1..] == later;
    PatchedByHunk(original, index, hunks);
    CountsOfParts(edits, Edits(later));
    if start <= |original| && OldLines(edits) <= original[start..] {
      AfterAfter(Progress(original[index..start], false),
                 Progress(NewLines(edits), CountAdds(edits) + CountRemoves(edits) > 0),
                 Remaining(original, start + |OldLines(edits)|, rest));
    }
  }

  lemma LeaveHunk(original: seq<Line>, index: nat, patch: seq<Line>)
    requires index <= |original| && (patch == [] || StartsWith(patch[0], "@@"))
    ensures RemainingInHunk(original, index, patch) == Remaining(original, index, patch)
  {
    AfterNothing(Remaining(original, index, patch));
  }

  /** One body line of a hunk: the file's line it consumes, and what it adds. */
  lemma BodyStep(original: seq<Line>, index: nat, patch: seq<Line>)
    requires index <= |original| && patch != [] && !StartsWith(patch[0], "@@") && ParseBodyLine(patch[0]).Change?
    ensures var edit := ParseBodyLine(patch[0]).edit;
            var consumed := if edit.Add? then 0 else 1;
            RemainingInHunk(original, index, patch)
            == if consumed == 1 && (index == |original| || original[index] != edit.line) then None
               else After(Progress(if edit.Remove? then [] else [edit.line], !edit.Keep?),
                          RemainingInHunk(original, index + consumed, patch[1..]))
  {
    if ParseBody(patch[1..]).Some? {
      var (edits, rest) := ParseBody(patch[1..]).value;
      EditStep(original, index, ParseBodyLine(patch[0]).edit, edits, rest);
    }
  }

  lemma EditStep(original: seq<Line>, index: nat, edit: Edit, edits: seq<Edit>, rest: seq<Line>)
    requires index <= |original|
    ensures var consumed := if edit.Add? then 0 else 1;
            AfterEdits(original, index, [edit] + edits, rest)
            == if consumed == 1 && (index == |original| || original[index] != edit.line) then None
               else After(Progress(if edit.Remove? then [] else [edit.line], !edit.Keep?),
                          AfterEdits(original, index + consumed, edits, rest))
  {
    hide OldLines, NewLines, Remaining, CountAdds, CountRemoves;
    OldLinesOfOne(edit, edits);
    var consumed := if edit.Add? then 0 else 1;
    if !edit.Add? {
      if index < |original| { assert original[index..][1..] == original[index + 1..]; }
    }
    if OldLines([edit] + edits) <= original[index..] {
      BodyAfter(original, index + consumed, edits, rest, edit);
    }
  }

  lemma OldLinesOfOne(edit: Edit, edits: seq<Edit>)
    ensures OldLines([edit] + edits) == (if edit.Add? then [] else [edit.line]) + OldLines(edits)
    ensures NewLines([edit] + edits) == (if edit.Remove? then [] else [edit.line]) + NewLines(edits)
    ensures edit.Add? ==> OldLines([edit] + edits) == OldLines(edits)
  {
    assert ([edit] + edits)[1..] == edits;
  }

  lemma CountsOfOne(edit: Edit, edits: seq<Edit>)
    ensures CountAdds([edit] + edits) == (if edit.Add? then 1 else 0) + CountAdds(edits)
    ensures CountRemoves([edit] + edits) == (if edit.Remove? then 1 else 0) + CountRemoves(edits)
  {
    assert ([edit] + edits)[1..] == edits;
  }

  lemma BodyAfter(original: seq<Line>, index: nat, edits: seq<Edit>, rest: seq<Line>, edit: Edit)
    requires index <= |original| && OldLines(edits) <= original[index..]
    ensures var remaining := Remaining(original, index + |OldLines(edits)|, rest);
            After(Progress(NewLines([edit] + edits), CountAdds([edit] + edits) + CountRemoves([edit] + edits) > 0), remaining)
            == After(Progress(if edit.Remove? then [] else [edit.line], !edit.Keep?),
                     After(Progress(NewLines(edits), CountAdds(edits) + CountRemoves(edits) > 0), remaining))
  {
    hide OldLines, NewLines, Remaining, After;
    CountsOfOne(edit, edits);
    OldLinesOfOne(edit, edits);
    AfterAfter(Progress(if edit.Remove? then [] else [edit.line], !edit.Keep?),
               Progress(NewLines(edits), CountAdds(edits) + CountRemoves(edits) > 0),
               Remaining(original, index + |OldLines(edits)|, rest));
  }

  /** The lines before a hunk, copied as they are. */
  method CopyLinesBefore(oldStart: nat, originalLines: seq<Line>, index: nat) returns (copied: Option<(seq<Line>, nat)>)
    requires index <= |originalLines|
    ensures var start := StartOf(index, Hunk(oldStart, []));
            copied == if start > |originalLines| then None else Some((originalLines[index..start], start))
  {
    var outputLines: seq<Line>, originalIndex := [], index;
    while originalIndex < oldStart - 1
      invariant index <= originalIndex <= StartOf(index, Hunk(oldStart, [])) && originalIndex <= |originalLines|
      invariant outputLines == originalLines[index..originalIndex]
    {
      if originalIndex >= |originalLines| { return None; }
      outputLines := outputLines + [originalLines[originalIndex]];
      originalIndex := originalIndex + 1;
    }
    copied := Some((outputLines, originalIndex));
  }

  function Head(line: Line): string { if line == [] then [] else line[..1] }

  function Tail(line: Line): string { if line == [] then [] else line[1..] }

  /** What the prefix of a body line decides. */
  lemma HunkLineStep(original: seq<Line>, index: nat, patch: seq<Line>, before: Progress)
    requires index <= |original| && patch != [] && !StartsWith(patch[0], "@@") && !StartsWith(patch[0], "\\ ")
    ensures var prefix, body := Head(patch[0]), Tail(patch[0]);
            var matches := index < |original| && original[index] == body;
            After(before, RemainingInHunk(original, index, patch))
            == if prefix == " " && matches then
                 After(Progress(before.lines + [body], before.changed), RemainingInHunk(original, index + 1, patch[1..]))
               else if prefix == "-" && matches then
                 After(Progress(before.lines, true), RemainingInHunk(original, index + 1, patch[1..]))
               else if prefix == "+" then
                 After(Progress(before.lines + [body], true), RemainingInHunk(original, index, patch[1..]))
               else None
  {
    hide RemainingInHunk, ParseBodyLine, Head, Tail;
    var body := Tail(patch[0]);
    PrefixDecides(patch[0]);
    assert before.lines + [] == before.lines;
    match ParseBodyLine(patch[0])
    case Unsupported => UnsupportedFails(original, index, patch);
    case Change(edit) =>
      BodyStep(original, index, patch);
      if edit.Add? {
        AfterAfter(before, Progress([body], true), RemainingInHunk(original, index, patch[1..]));
      } else if index < |original| {
        AfterAfter(before, Progress(if edit.Remove? then [] else [body], edit.Remove?), RemainingInHunk(original, index + 1, patch[1..]));
      }
  }

  lemma PrefixDecides(line: Line)
    requires !StartsWith(line, "@@") && !StartsWith(line, "\\ ")
    ensures ParseBodyLine(line)
         == if Head(line) == " " then Change(Keep(Tail(line)))
            else if Head(line) == "-" then Change(Remove(Tail(line)))
            else if Head(line) == "+" then Change(Add(Tail(line)))
            else Unsupported
  {
    if line != [] { assert Head(line) == [line[0]]; }
  }

  lemma UnsupportedFails(original: seq<Line>, index: nat, patch: seq<Line>)
    requires index <= |original| && patch != [] && !StartsWith(patch[0], "@@") && ParseBodyLine(patch[0]).Unsupported?
    ensures RemainingInHunk(original, index, patch).None?
  {
    hide AfterEdits;
  }

  /** So the branch for file headers inside a hunk is never taken. */
  lemma HeadersAreChanges(line: Line)
    ensures StartsWith(line, "--- ") ==> Head(line) == "-"
    ensures StartsWith(line, "+++ ") ==> Head(line) == "+"
  {
    if line != [] { assert Head(line) == [line[0]]; }
  }

  lemma SkipMark(original: seq<Line>, index: nat, patch: seq<Line>)
    requires index <= |original| && patch != [] && StartsWith(patch[0], "\\ ") && !StartsWith(patch[0], "@@")
    ensures RemainingInHunk(original, index, patch) == RemainingInHunk(original, index, patch[1..])
  {
    assert ParseBody(patch) == ParseBody(patch[1..]);
  }

  /** The body lines of one hunk, up to the next header. */
  method ApplyHunkBody(originalLines: seq<Line>, index: nat, patchLines: seq<Line>, patchStart: nat)
    returns (applied: Option<Progress>, originalIndex: nat, patchIndex: nat)
    requires index <= |originalLines| && patchStart <= |patchLines|
    ensures originalIndex <= |originalLines| && patchStart <= patchIndex <= |patchLines|
    ensures RemainingInHunk(originalLines, index, patchLines[patchStart..])
            == if applied.None? then None
               else After(applied.value, Remaining(originalLines, originalIndex, patchLines[patchIndex..]))
  {
    hide RemainingInHunk, Remaining;
    var outputLines: seq<Line>, changed := [], false;
    originalIndex, patchIndex := index, patchStart;
    ghost var goal := RemainingInHunk(originalLines, index, patchLines[patchStart..]);
    AfterNothing(goal);
    while patchIndex < |patchLines| && !StartsWith(patchLines[patchIndex], "@@")
      invariant patchStart <= patchIndex <= |patchLines| && originalIndex <= |originalLines|
      invariant After(Progress(outputLines, changed), RemainingInHunk(originalLines, originalIndex, patchLines[patchIndex..])) == goal
      decreases |patchLines| - patchIndex
    {
      var hunkLine := patchLines[patchIndex];
      ghost var patch, before := patchLines[patchIndex..], Progress(outputLines, changed);
      assert patch[1..] == patchLines[patchIndex + 1..];
      if StartsWith(hunkLine, "\\ ") {
        SkipMark(originalLines, originalIndex, patch);
        patchIndex := patchIndex + 1;
        continue;
      }
      HeadersAreChanges(hunkLine);
      var prefix, body := Head(hunkLine), Tail(hunkLine);
      HunkLineStep(originalLines, originalIndex, patch, before);
      if prefix == " " {
        if originalIndex >= |originalLines| || originalLines[originalIndex] != body { return None, originalIndex, patchIndex; }
        outputLines := outputLines + [body];
        originalIndex := originalIndex + 1;
      } else if prefix == "-" {
        if originalIndex >= |originalLines| || originalLines[originalIndex] != body { return None, originalIndex, patchIndex; }
        originalIndex := originalIndex + 1;
        changed := true;
      } else if prefix == "+" {
        outputLines := outputLines + [body];
        changed := true;
      } else if StartsWith(hunkLine, "--- ") || StartsWith(hunkLine, "+++ ") {
        assert false;
        break;
      } else {
        return None, originalIndex, patchIndex;
      }
      patchIndex := patchIndex + 1;
    }
    LeaveHunk(originalLines, originalIndex, patchLines[patchIndex..]);
    applied := Some(Progress(outputLines, changed));
  }

  lemma SkipLine(original: seq<Line>, index: nat, patch: seq<Line>)
    requires patch != [] && !StartsWith(patch[0], "@@")
    ensures Remaining(original, index, patch) == Remaining(original, index, patch[1..])
  {}

  lemma BadHeader(original: seq<Line>, index: nat, patch: seq<Line>)
    requires patch != [] && StartsWith(patch[0], "@@") && ParseHeader(patch[0]).None?
    ensures Remaining(original, index, patch).None?
  {}

  lemma PatchEnds(original: seq<Line>, index: nat, patch: seq<Line>)
    requires index <= |original| && patch == []
    ensures Remaining(original, index, patch) == Some(Progress(original[index..], false))
  {
    KeptSides(original[index..]);
  }

  lemma Whole(originalContent: string, patchContent: string)
    ensures Applied(originalContent, patchContent)
            == match Remaining(SplitLines(originalContent), 0, SplitLines(patchContent))
               case None => None
               case Some(progress) => Some(TextPatchResult(Join(progress.lines), progress.changed))
  {}

  method ApplyUnifiedDiff(originalContent: string, patchContent: string) returns (result: Option<TextPatchResult>)
    ensures result == Applied(originalContent, patchContent)
  {
    hide RemainingInHunk, Remaining, Applied, ParseHeader;
    var originalLines, patchLines := SplitLines(originalContent), SplitLines(patchContent);
    var outputLines: seq<Line>, originalIndex: nat, patchIndex: nat, changed := [], 0, 0, false;
    ghost var goal := Remaining(originalLines, 0, patchLines);
    AfterNothing(goal);
    assert patchLines[0..] == patchLines;
    while patchIndex < |patchLines|
      invariant patchIndex <= |patchLines| && originalIndex <= |originalLines|
      invariant After(Progress(outputLines, changed), Remaining(originalLines, originalIndex, patchLines[patchIndex..])) == goal
    {
      var line := patchLines[patchIndex];
      ghost var patch, before := patchLines[patchIndex..], Progress(outputLines, changed);
      assert patch[1..] == patchLines[patchIndex + 1..];
      if !StartsWith(line, "@@") {
        SkipLine(originalLines, originalIndex, patch);
        patchIndex := patchIndex + 1;
        continue;
      }
      var header := ParseHeader(line);
      if header.None? {
        BadHeader(originalLines, originalIndex, patch);
        Whole(originalContent, patchContent);
        return None;
      }
      EnterHunk(originalLines, originalIndex, patch);
      var copied := CopyLinesBefore(header.value, originalLines, originalIndex);
      if copied.None? {
        Whole(originalContent, patchContent);
        return None;
      }
      ghost var gap := Progress(copied.value.0, false);
      AfterAfter(before, gap, RemainingInHunk(originalLines, copied.value.1, patch[1..]));
      outputLines, originalIndex := outputLines + copied.value.0, copied.value.1;
      ghost var entered := Progress(outputLines, changed);
      var body: Option<Progress>;
      body, originalIndex, patchIndex := ApplyHunkBody(originalLines, originalIndex, patchLines, patchIndex + 1);
      if body.None? {
        Whole(originalContent, patchContent);
        return None;
      }
      AfterAfter(entered, body.value, Remaining(originalLines, originalIndex, patchLines[patchIndex..]));
      outputLines, changed := outputLines + body.value.lines, changed || body.value.changed;
    }
    ghost var matched: seq<Line>, from: nat := outputLines, originalIndex;
    PatchEnds(originalLines, from, patchLines[patchIndex..]);
    Whole(originalContent, patchContent);
    while originalIndex < |originalLines|
      invariant from <= originalIndex <= |originalLines|
      invariant outputLines == matched + originalLines[from..originalIndex]
    {
      outputLines := outputLines + [originalLines[originalIndex]];
      originalIndex := originalIndex + 1;
    }
    assert originalLines[from..originalIndex] == originalLines[from..];
    result := Some(TextPatchResult(Join(outputLines), changed));
  }

  // ---------- Patches as text ----------

  function Decimal(n: nat): (s: string)
    ensures s != [] && forall i | 0 <= i < |s| :: IsDigit(s[i])
  {
    (if n < 10 then [] else Decimal(n / 10)) + [('0' as int + n % 10) as char]
  }

  lemma {:induction false} DecimalRoundTrip(n: nat)
    ensures DecimalValue(Decimal(n)) == n
  {
    var last := ('0' as int + n % 10) as char;
    if n >= 10 {
      DecimalRoundTrip(n / 10);
      assert Decimal(n)[..|Decimal(n)| - 1] == Decimal(n / 10);
    } else {
      assert Decimal(n) == [last] && Decimal(n)[..0] == [];
    }
  }

  lemma {:induction false} DigitsStop(digits: string, rest: string)
    requires forall i | 0 <= i < |digits| :: IsDigit(digits[i])
    requires rest == [] || !IsDigit(rest[0])
    ensures DigitsLength(digits + rest) == |digits|
  {
    if digits == [] {
      assert digits + rest == rest;
    } else {
      assert (digits + rest)[0] == digits[0] && (digits + rest)[1..] == digits[1..] + rest;
      DigitsStop(digits[1..], rest);
    }
  }

  predicate IsDigits(s: string) { s != [] && forall i | 0 <= i < |s| :: IsDigit(s[i]) }

  /** A range of a hunk header: where it starts and, where given, how many lines it has. */
  datatype Range = Range(start: string, count: Option<string>)

  predicate IsRange(r: Range) { IsDigits(r.start) && (r.count.Some? ==> IsDigits(r.count.value)) }

  function RangeText(r: Range): string { r.start + if r.count.Some? then "," + r.count.value else "" }

  /** What follows a range in a header starts with a space. */
  lemma RangeParses(r: Range, rest: string)
    requires IsRange(r) && rest != [] && rest[0] == ' '
    ensures ParseRange(RangeText(r) + rest) == Some((DecimalValue(r.start), rest))
  {
    hide DecimalValue, DigitsLength;
    var s := RangeText(r) + rest;
    var after := s[|r.start|..];
    DigitsStop(r.start, after);
    assert s == r.start + after && s[..|r.start|] == r.start;
    if r.count.Some? {
      DigitsStop(r.count.value, rest);
      assert after[1..] == r.count.value + rest && after[1 + |r.count.value|..] == rest;
    } else {
      assert after == rest;
    }
  }

  lemma RangeForms(s: string) returns (r: Range)
    requires ParseRange(s).Some?
    ensures IsRange(r) && s == RangeText(r) + ParseRange(s).value.1 && ParseRange(s).value.0 == DecimalValue(r.start)
  {
    hide DecimalValue, DigitsLength, IsDigit;
    var n := DigitsLength(s);
    var rest := s[n..];
    var m := if rest != [] && rest[0] == ',' then DigitsLength(rest[1..]) else 0;
    if m == 0 {
      r := Range(s[..n], None);
      assert s[..n] + "" == s[..n] && s == s[..n] + rest;
    } else {
      r := Range(s[..n], Some(rest[1..][..m]));
      CountFollows(s, n, m);
    }
  }

  lemma CountFollows(s: string, n: nat, m: nat)
    requires n < |s| && s[n] == ',' && n + 1 + m <= |s|
    ensures s == s[..n] + ("," + s[n..][1..][..m]) + s[n..][1 + m..]
  {}

  function HeaderLine(removed: Range, added: Range, heading: string): Line {
    "@@ -" + (RangeText(removed) + (" +" + (RangeText(added) + (" @@" + heading))))
  }

  lemma HeaderParses(removed: Range, added: Range, heading: string)
    requires IsRange(removed) && IsRange(added)
    ensures StartsWith(HeaderLine(removed, added, heading), "@@")
    ensures ParseHeader(HeaderLine(removed, added, heading)) == Some(DecimalValue(removed.start))
  {
    hide ParseRange, RangeText;
    var tail := " @@" + heading;
    var rest := " +" + (RangeText(added) + tail);
    var line := HeaderLine(removed, added, heading);
    assert line[3] == '-' && !IsSpace(line[3]);
    assert line[4..] == RangeText(removed) + rest;
    assert rest[2..] == RangeText(added) + tail;
    RangeParses(removed, rest);
    RangeParses(added, tail);
    assert line[..2] == "@@" && line[..4] == "@@ -" && rest[..2] == " +" && tail[..3] == " @@";
  }

  lemma HeaderForms(line: Line) returns (removed: Range, added: Range, heading: string)
    requires StartsWith(line, "@@") && ParseHeader(line).Some? && !IsBare(line)
    ensures IsRange(removed) && IsRange(added) && line == HeaderLine(removed, added, heading)
    ensures ParseHeader(line) == Some(DecimalValue(removed.start))
  {
    hide ParseRange, RangeText;
    var rest := ParseRange(line[4..]).value.1;
    var tail := ParseRange(rest[2..]).value.1;
    removed := RangeForms(line[4..]);
    added := RangeForms(rest[2..]);
    heading := tail[3..];
    assert tail == " @@" + heading && rest == " +" + rest[2..] && line == "@@ -" + line[4..];
  }

  predicate IsBare(line: Line) { forall i | 2 <= i < |line| :: IsSpace(line[i]) }

  predicate IsHeader(line: Line, removed: Range, added: Range, heading: string) {
    IsRange(removed) && IsRange(added) && line == HeaderLine(removed, added, heading)
  }

  /** A header is read exactly when it is bare, and then as line 1, or has the form of two
      ranges with or without counts and anything after the closing signs, and then as the start
      of the first range. */
  lemma HeadersAreRead(line: Line, start: nat)
    requires StartsWith(line, "@@")
    ensures ParseHeader(line) == Some(start)
            <==> if IsBare(line) then start == 1
                 else exists removed, added, heading :: IsHeader(line, removed, added, heading) && DecimalValue(removed.start) == start
  {
    if !IsBare(line) {
      if ParseHeader(line) == Some(start) {
        var removed, added, heading := HeaderForms(line);
        assert IsHeader(line, removed, added, heading);
      }
      forall removed, added, heading | IsHeader(line, removed, added, heading)
        ensures ParseHeader(line) == Some(DecimalValue(removed.start))
      {
        HeaderParses(removed, added, heading);
      }
    }
  }

  function RenderHeader(oldStart: nat, newStart: nat): Line {
    HeaderLine(Range(Decimal(oldStart), None), Range(Decimal(newStart), None), "\n")
  }

  lemma HeaderRoundTrip(oldStart: nat, newStart: nat)
    ensures StartsWith(RenderHeader(oldStart, newStart), "@@")
    ensures ParseHeader(RenderHeader(oldStart, newStart)) == Some(oldStart)
  {
    HeaderParses(Range(Decimal(oldStart), None), Range(Decimal(newStart), None), "\n");
    DecimalRoundTrip(oldStart);
  }

  function RenderEdit(edit: Edit): Line {
    (match edit case Keep(_) => " " case Remove(_) => "-" case Add(_) => "+") + edit.line
  }

  function RenderBody(edits: seq<Edit>): seq<Line> {
    if edits == [] then [] else [RenderEdit(edits[0])] + RenderBody(edits[1..])
  }

  /** Patch lines for the hunks, the second position of each header being free. */
  function Render(hunks: seq<Hunk>, newStarts: seq<nat>): seq<Line>
    requires |newStarts| == |hunks|
  {
    if hunks == [] then []
    else [RenderHeader(hunks[0].oldStart, newStarts[0])] + RenderBody(hunks[0].edits) + Render(hunks[1..], newStarts[1..])
  }

  lemma EditRoundTrip(edit: Edit)
    ensures ParseBodyLine(RenderEdit(edit)) == Change(edit) && !StartsWith(RenderEdit(edit), "@@")
  {
    var line := RenderEdit(edit);
    assert line[1..] == edit.line && line[..1] == [line[0]];
  }

  /** A body line as diff tools write it: an edit, or a remark about a missing line ending. */
  datatype Part = Edited(edit: Edit) | Mark(text: string)

  function PartLine(part: Part): Line { if part.Edited? then RenderEdit(part.edit) else "\\ " + part.text }

  function PartLines(parts: seq<Part>): seq<Line> { if parts == [] then [] else [PartLine(parts[0])] + PartLines(parts[1..]) }

  function EditsOf(parts: seq<Part>): seq<Edit> {
    if parts == [] then []
    else if parts[0].Mark? then EditsOf(parts[1..])
    else [parts[0].edit] + EditsOf(parts[1..])
  }

  /** A hunk with any header that is read. */
  datatype Written = Written(header: Line, start: nat, parts: seq<Part>)

  predicate IsWritten(w: Written) { StartsWith(w.header, "@@") && ParseHeader(w.header) == Some(w.start) }

  function WrittenLines(hunks: seq<Written>): seq<Line> {
    if hunks == [] then [] else [hunks[0].header] + PartLines(hunks[0].parts) + WrittenLines(hunks[1..])
  }

  function HunksOf(hunks: seq<Written>): seq<Hunk> {
    if hunks == [] then [] else [Hunk(hunks[0].start, EditsOf(hunks[0].parts))] + HunksOf(hunks[1..])
  }

  lemma NoParts()
    ensures PartLines([]) == [] && EditsOf([]) == []
  {}

  lemma PartsAppend(part: Part, parts: seq<Part>)
    ensures PartLines([part] + parts) == [PartLine(part)] + PartLines(parts)
    ensures EditsOf([part] + parts) == if part.Mark? then EditsOf(parts) else [part.edit] + EditsOf(parts)
  {
    hide PartLine;
    assert ([part] + parts)[1..] == parts;
  }

  lemma {:induction false} PartsParse(parts: seq<Part>, rest: seq<Line>)
    requires rest == [] || StartsWith(rest[0], "@@")
    ensures ParseBody(PartLines(parts) + rest) == Some((EditsOf(parts), rest))
  {
    hide ParseBody, PartLine, PartLines, EditsOf, StartsWith;
    if parts == [] {
      NoParts();
      assert [] + rest == rest;
      BodyEnds(rest);
    } else {
      PartsParse(parts[1..], rest);
      PartParses(parts[0], PartLines(parts[1..]) + rest, EditsOf(parts[1..]), rest);
      PartsAppend(parts[0], parts[1..]);
      assert [parts[0]] + parts[1..] == parts;
      assert PartLines(parts) + rest == [PartLine(parts[0])] + (PartLines(parts[1..]) + rest);
    }
  }

  lemma BodyEnds(rest: seq<Line>)
    requires rest == [] || StartsWith(rest[0], "@@")
    ensures ParseBody(rest) == Some(([], rest))
  {}

  lemma PartParses(part: Part, lines: seq<Line>, edits: seq<Edit>, rest: seq<Line>)
    requires ParseBody(lines) == Some((edits, rest))
    ensures ParseBody([PartLine(part)] + lines) == Some((if part.Mark? then edits else [part.edit] + edits, rest))
  {
    hide RenderEdit;
    assert ([PartLine(part)] + lines)[1..] == lines;
    if part.Edited? {
      EditRoundTrip(part.edit);
    } else {
      assert PartLine(part)[..2] == "\\ " && PartLine(part)[0] == '\\';
    }
  }

  lemma SkippedPreamble(line: Line, lines: seq<Line>)
    requires !StartsWith(line, "@@")
    ensures ParsePatch([line] + lines) == ParsePatch(lines)
  {
    assert ([line] + lines)[1..] == lines;
  }

  /** A patch is read back from its lines, whatever its hunks hold: with any lines before the
      first header, any headers that are read, and remarks anywhere between the edits. */
  lemma {:induction false} PatchRoundTrip(preamble: seq<Line>, hunks: seq<Written>)
    requires (forall line | line in preamble :: !StartsWith(line, "@@")) && forall w | w in hunks :: IsWritten(w)
    ensures ParsePatch(preamble + WrittenLines(hunks)) == Some(HunksOf(hunks))
    decreases |hunks|, |preamble|
  {
    hide ParsePatch, ParseBody, StartsWith, ParseHeader, PartLines;
    if preamble != [] {
      PatchRoundTrip(preamble[1..], hunks);
      SkippedPreamble(preamble[0], preamble[1..] + WrittenLines(hunks));
      assert preamble + WrittenLines(hunks) == [preamble[0]] + (preamble[1..] + WrittenLines(hunks));
    } else if hunks == [] {
      assert preamble + WrittenLines(hunks) == [];
      NoHunks();
    } else {
      PatchRoundTrip([], hunks[1..]);
      var rest := WrittenLines(hunks[1..]);
      assert [] + rest == rest && preamble + WrittenLines(hunks) == WrittenLines(hunks);
      assert hunks[1..] != [] ==> rest[0] == hunks[1].header && hunks[1] in hunks;
      WrittenHunkParses(hunks[0], rest, HunksOf(hunks[1..]));
    }
  }

  lemma NoHunks()
    ensures ParsePatch([]) == Some([])
  {}

  lemma WrittenHunkParses(w: Written, rest: seq<Line>, hunks: seq<Hunk>)
    requires IsWritten(w) && (rest == [] || StartsWith(rest[0], "@@")) && ParsePatch(rest) == Some(hunks)
    ensures ParsePatch([w.header] + PartLines(w.parts) + rest) == Some([Hunk(w.start, EditsOf(w.parts))] + hunks)
  {
    hide ParsePatch, ParseHeader, ParseBody, PartLines, StartsWith;
    var lines := [w.header] + PartLines(w.parts) + rest;
    PartsParse(w.parts, rest);
    assert lines[1..] == PartLines(w.parts) + rest;
    HunkParses(lines);
  }

  /** What is read of a patch that begins with a header. */
  lemma PatchHead(lines: seq<Line>)
    requires ParsePatch(lines).Some? && lines != [] && StartsWith(lines[0], "@@")
    ensures ParseHeader(lines[0]).Some? && ParseBody(lines[1..]).Some? && ParsePatch(ParseBody(lines[1..]).value.1).Some?
    ensures ParsePatch(lines) == Some([Hunk(ParseHeader(lines[0]).value, ParseBody(lines[1..]).value.0)]
                                      + ParsePatch(ParseBody(lines[1..]).value.1).value)
  {}

  lemma PatchSkips(line: Line, preamble: seq<Line>)
    requires !StartsWith(line, "@@") && forall l | l in preamble :: !StartsWith(l, "@@")
    ensures forall l | l in [line] + preamble :: !StartsWith(l, "@@")
  {}

  lemma WrittenAppends(w: Written, hunks: seq<Written>)
    requires IsWritten(w) && forall v | v in hunks :: IsWritten(v)
    ensures forall v | v in [w] + hunks :: IsWritten(v)
    ensures WrittenLines([w] + hunks) == [w.header] + PartLines(w.parts) + WrittenLines(hunks)
    ensures HunksOf([w] + hunks) == [Hunk(w.start, EditsOf(w.parts))] + HunksOf(hunks)
  {
    hide IsWritten, PartLines, EditsOf;
    assert ([w] + hunks)[1..] == hunks;
  }

  /** And every patch that is read has that form. */
  lemma {:induction false} PatchForms(lines: seq<Line>) returns (preamble: seq<Line>, hunks: seq<Written>)
    requires ParsePatch(lines).Some?
    ensures (forall line | line in preamble :: !StartsWith(line, "@@")) && (forall w | w in hunks :: IsWritten(w))
    ensures lines == preamble + WrittenLines(hunks) && ParsePatch(lines) == Some(HunksOf(hunks))
    decreases |lines|
  {
    hide ParsePatch, ParseBody, StartsWith, ParseHeader, PartLines, EditsOf;
    if lines == [] {
      NoHunks();
      preamble, hunks := [], [];
    } else if !StartsWith(lines[0], "@@") {
      assert lines == [lines[0]] + lines[1..];
      SkippedPreamble(lines[0], lines[1..]);
      preamble, hunks := PatchForms(lines[1..]);
      PatchSkips(lines[0], preamble);
      preamble := [lines[0]] + preamble;
    } else {
      PatchHead(lines);
      var (edits, rest) := ParseBody(lines[1..]).value;
      var parts := BodyForms(lines[1..]);
      var none, later := PatchForms(rest);
      assert none == [] by { BodyStops(lines[1..]); NoPreamble(none, later); }
      var w := Written(lines[0], ParseHeader(lines[0]).value, parts);
      HeaderIsWritten(w);
      WrittenAppends(w, later);
      preamble, hunks := [], [w] + later;
      assert [] + WrittenLines(later) == rest && lines == [lines[0]] + lines[1..];
      assert [] + WrittenLines(hunks) == lines;
    }
  }

  lemma HeaderIsWritten(w: Written)
    requires StartsWith(w.header, "@@") && ParseHeader(w.header) == Some(w.start)
    ensures IsWritten(w)
  {}

  lemma NoPreamble(preamble: seq<Line>, hunks: seq<Written>)
    requires (forall line | line in preamble :: !StartsWith(line, "@@"))
    ensures preamble != [] ==> !StartsWith((preamble + WrittenLines(hunks))[0], "@@")
  {
    hide StartsWith;
    if preamble != [] {
      var first := preamble[0];
      assert first in preamble;
    }
  }

  lemma {:induction false} BodyStops(lines: seq<Line>)
    requires ParseBody(lines).Some?
    ensures ParseBody(lines).value.1 != [] ==> StartsWith(ParseBody(lines).value.1[0], "@@")
  {
    if lines != [] && !StartsWith(lines[0], "@@") { BodyStops(lines[1..]); }
  }

  lemma BodyHead(lines: seq<Line>)
    requires ParseBody(lines).Some? && lines != [] && !StartsWith(lines[0], "@@")
    ensures ParseBody(lines[1..]).Some? && ParseBody(lines).value.1 == ParseBody(lines[1..]).value.1
    ensures !ParseBodyLine(lines[0]).Unsupported?
    ensures var edits := ParseBody(lines[1..]).value.0;
            ParseBody(lines).value.0 == if ParseBodyLine(lines[0]).Change? then [ParseBodyLine(lines[0]).edit] + edits else edits
  {
    hide ParseBodyLine;
  }

  lemma {:induction false} BodyForms(lines: seq<Line>) returns (parts: seq<Part>)
    requires ParseBody(lines).Some?
    ensures lines == PartLines(parts) + ParseBody(lines).value.1 && EditsOf(parts) == ParseBody(lines).value.0
  {
    hide ParseBody, ParseBodyLine, PartLine, PartLines, EditsOf, StartsWith;
    if lines == [] || StartsWith(lines[0], "@@") {
      parts := [];
      NoParts();
      BodyEnds(lines);
    } else {
      BodyHead(lines);
      var later := BodyForms(lines[1..]);
      var part := PartForms(lines[0]);
      PartsAppend(part, later);
      parts := [part] + later;
      assert lines == [lines[0]] + (PartLines(later) + ParseBody(lines).value.1);
    }
  }

  lemma PartForms(line: Line) returns (part: Part)
    requires !ParseBodyLine(line).Unsupported?
    ensures PartLine(part) == line
    ensures if ParseBodyLine(line).Change? then part == Edited(ParseBodyLine(line).edit) else part.Mark?
  {
    match ParseBodyLine(line)
    case NoNewlineMark => part := Mark(line[2..]);
    case Change(edit) => part := Edited(edit);
  }

  function PlainParts(edits: seq<Edit>): seq<Part> { seq(|edits|, i requires 0 <= i < |edits| => Edited(edits[i])) }

  lemma {:induction false} PlainPartsAre(edits: seq<Edit>)
    ensures PartLines(PlainParts(edits)) == RenderBody(edits) && EditsOf(PlainParts(edits)) == edits
  {
    if edits != [] {
      PlainPartsAre(edits[1..]);
      assert PlainParts(edits)[1..] == PlainParts(edits[1..]);
    }
  }

  lemma {:induction false} RenderIsWritten(hunks: seq<Hunk>, newStarts: seq<nat>) returns (written: seq<Written>)
    requires |newStarts| == |hunks|
    ensures (forall w | w in written :: IsWritten(w)) && Render(hunks, newStarts) == WrittenLines(written) && HunksOf(written) == hunks
    decreases |hunks|
  {
    if hunks == [] {
      written := [];
    } else {
      var later := RenderIsWritten(hunks[1..], newStarts[1..]);
      HeaderRoundTrip(hunks[0].oldStart, newStarts[0]);
      PlainPartsAre(hunks[0].edits);
      written := [Written(RenderHeader(hunks[0].oldStart, newStarts[0]), hunks[0].oldStart, PlainParts(hunks[0].edits))] + later;
      assert [hunks[0]] + hunks[1..] == hunks;
    }
  }

  lemma RenderRoundTrip(hunks: seq<Hunk>, newStarts: seq<nat>)
    requires |newStarts| == |hunks|
    ensures ParsePatch(Render(hunks, newStarts)) == Some(hunks)
  {
    var written := RenderIsWritten(hunks, newStarts);
    PatchRoundTrip([], written);
    assert [] + WrittenLines(written) == WrittenLines(written);
  }

  // ---------- The inverse patch on texts ----------

  lemma {:induction false} InverseCounts(index: nat, output: nat, hunks: seq<Hunk>)
    ensures |Inverse(index, output, hunks)| == |hunks|
    ensures CountAdds(Edits(Inverse(index, output, hunks))) == CountRemoves(Edits(hunks))
    ensures CountRemoves(Edits(Inverse(index, output, hunks))) == CountAdds(Edits(hunks))
    decreases |hunks|
  {
    if hunks != [] {
      var gap := StartOf(index, hunks[0]) - index;
      var edits := hunks[0].edits;
      var next, after := index + gap + |OldLines(edits)|, output + gap + |NewLines(edits)|;
      InverseCounts(next, after, hunks[1..]);
      InverseCons(index, output, hunks, gap, next, after);
      var all := Inverse(index, output, hunks);
      assert all[1..] == Inverse(next, after, hunks[1..]);
      SwapCounts(edits);
      CountsOfParts(edits, Edits(hunks[1..]));
      CountsOfParts(SwapAll(edits), Edits(all[1..]));
    }
  }

  lemma {:induction false} SwapCounts(script: seq<Edit>)
    ensures CountAdds(SwapAll(script)) == CountRemoves(script) && CountRemoves(SwapAll(script)) == CountAdds(script)
  {
    if script != [] {
      assert SwapAll(script) == [Swap(script[0])] + SwapAll(script[1..]);
      SwapCounts(script[1..]);
    }
  }

  /** Writing the patched text and then applying the inverse patch gives the text back.
      Three things about texts are needed: the file holds no separator, and the lines of
      the output and of the inverse patch are still those lines once joined. */
  lemma InversePatchRestoresText(originalContent: string, hunks: seq<Hunk>, newStarts: seq<nat>)
    requires IsPlain(originalContent) && Patched(SplitLines(originalContent), 0, hunks).Some?
    requires |newStarts| == |hunks| == |Inverse(0, 0, hunks)|
    requires StaySeparate(Patched(SplitLines(originalContent), 0, hunks).value)
    requires StaySeparate(Render(Inverse(0, 0, hunks), newStarts))
    ensures var output := Join(Patched(SplitLines(originalContent), 0, hunks).value);
            var inverse := Join(Render(Inverse(0, 0, hunks), newStarts));
            Applied(output, inverse) == Some(TextPatchResult(originalContent, ChangesAnything(hunks)))
  {
    hide Inverse, Patched, Render, ParsePatch, Join, SplitLines;
    RenderRoundTrip(Inverse(0, 0, hunks), newStarts);
    InverseRestores(SplitLines(originalContent), hunks);
    InverseCounts(0, 0, hunks);
    JoinOfSplit(originalContent);
  }

  predicate AllLines(ok: Line -> bool, lines: seq<Line>) { forall i | 0 <= i < |lines| :: ok(lines[i]) }

  predicate AllEdits(ok: Line -> bool, edits: seq<Edit>) { forall i | 0 <= i < |edits| :: ok(edits[i].line) }

  predicate AllHunks(ok: Line -> bool, hunks: seq<Hunk>) { forall i | 0 <= i < |hunks| :: AllEdits(ok, hunks[i].edits) }

  predicate NothingMerges(lines: seq<Line>) { forall i | 0 <= i < |lines| - 1 :: !Merges(lines[i], lines[i + 1]) }

  /** Ended by a line feed, with or without a carriage return before it. */
  predicate IsFed(line: Line) { IsEnded(line) && line[|line| - 1] == '\n' }

  /** When every line of the file and of the patch is ended, the inverse patch stays separate,
      and the output does exactly when no line ended by a carriage return comes before one
      that starts with a line feed; so it does when all lines are ended by a line feed. */
  lemma EndedLinesStaySeparate(original: seq<Line>, hunks: seq<Hunk>, newStarts: seq<nat>)
    requires AllLines(IsEnded, original) && AllHunks(IsEnded, hunks) && Patched(original, 0, hunks).Some?
    requires |newStarts| == |hunks| == |Inverse(0, 0, hunks)|
    ensures var output := Patched(original, 0, hunks).value;
            && StaySeparate(Render(Inverse(0, 0, hunks), newStarts))
            && (StaySeparate(output) <==> NothingMerges(output))
            && (AllLines(IsFed, original) && AllHunks(IsFed, hunks) ==> StaySeparate(output))
  {
    var output := Patched(original, 0, hunks).value;
    var inverse := Render(Inverse(0, 0, hunks), newStarts);
    InverseHolds(IsEnded, 0, 0, hunks);
    RenderedLines(Inverse(0, 0, hunks), newStarts);
    EndedLinesSplit(inverse);
    SplitOfJoin(inverse);
    PatchedHolds(IsEnded, original, hunks);
    EndedLinesSplit(output);
    SplitOfJoin(output);
    if AllLines(IsFed, original) && AllHunks(IsFed, hunks) { PatchedHolds(IsFed, original, hunks); }
  }

  lemma {:induction false} EndedLinesSplit(lines: seq<Line>)
    requires AllLines(IsEnded, lines)
    ensures WellSplit(lines) <==> NothingMerges(lines)
  {
    if lines != [] {
      EndedLinesSplit(lines[1..]);
      NothingMergesTail(lines);
    }
  }

  lemma NothingMergesTail(lines: seq<Line>)
    requires lines != []
    ensures NothingMerges(lines) <==> NothingMerges(lines[1..]) && (|lines| > 1 ==> !Merges(lines[0], lines[1]))
  {
    var rest := lines[1..];
    if NothingMerges(rest) && (|lines| > 1 ==> !Merges(lines[0], lines[1])) {
      forall i | 0 <= i < |lines| - 1 ensures !Merges(lines[i], lines[i + 1]) {
        if i > 0 { assert !Merges(rest[i - 1], rest[i]); }
      }
    }
    if NothingMerges(lines) {
      forall i | 0 <= i < |rest| - 1 ensures !Merges(rest[i], rest[i + 1]) {
        assert !Merges(lines[i + 1], lines[i + 2]);
      }
    }
  }

  lemma PatchedHolds(ok: Line -> bool, original: seq<Line>, hunks: seq<Hunk>)
    requires AllLines(ok, original) && AllHunks(ok, hunks) && Patched(original, 0, hunks).Some?
    ensures AllLines(ok, Patched(original, 0, hunks).value)
  {
    ScriptHolds(ok, original, 0, hunks);
    NewLinesHold(ok, Script(original, 0, hunks).value);
  }

  lemma {:induction false} ScriptHolds(ok: Line -> bool, original: seq<Line>, index: nat, hunks: seq<Hunk>)
    requires AllLines(ok, original) && AllHunks(ok, hunks) && Script(original, index, hunks).Some?
    ensures AllEdits(ok, Script(original, index, hunks).value)
    decreases |hunks|
  {
    if hunks != [] {
      ScriptHolds(ok, original, StartOf(index, hunks[0]) + |OldLines(hunks[0].edits)|, hunks[1..]);
    }
  }

  lemma {:induction false} NewLinesHold(ok: Line -> bool, script: seq<Edit>)
    requires AllEdits(ok, script)
    ensures AllLines(ok, NewLines(script))
  {
    if script != [] { NewLinesHold(ok, script[1..]); }
  }

  lemma {:induction false} InverseHolds(ok: Line -> bool, index: nat, output: nat, hunks: seq<Hunk>)
    requires AllHunks(ok, hunks)
    ensures AllHunks(ok, Inverse(index, output, hunks))
    decreases |hunks|
  {
    if hunks != [] {
      var gap, edits := StartOf(index, hunks[0]) - index, hunks[0].edits;
      var next, after := index + gap + |OldLines(edits)|, output + gap + |NewLines(edits)|;
      InverseHolds(ok, next, after, hunks[1..]);
      InverseCons(index, output, hunks, gap, next, after);
    }
  }

  /** A line of a patch: ended, and merging with nothing before it. */
  predicate IsPatchLine(line: Line) { IsEnded(line) && line[0] != '\n' }

  lemma RenderedEdit(edit: Edit)
    requires IsEnded(edit.line)
    ensures IsPatchLine(RenderEdit(edit))
  {
    hide IsEnded;
    var line := RenderEdit(edit);
    assert line == [line[0]] + edit.line;
    PrefixedLine(line[0], edit.line);
  }

  lemma PrefixedLine(prefix: char, rest: Line)
    requires IsEnded(rest) && !IsBreak(prefix) && !IsSeparator(prefix)
    ensures IsEnded([prefix] + rest)
  {
    var line, n := [prefix] + rest, RunLength(rest);
    assert forall i | 0 <= i < |rest| :: line[i + 1] == rest[i];
    forall i | 0 <= i < n + 1 ensures !IsBreak(line[i]) && !IsSeparator(line[i]) {
      if i > 0 { assert line[i] == rest[i - 1]; }
    }
    RunStops(line, n + 1);
    assert BreakLength(line, n + 1) == BreakLength(rest, n);
  }

  lemma RenderedHeader(oldStart: nat, newStart: nat)
    ensures IsPatchLine(RenderHeader(oldStart, newStart))
  {
    var line := RenderHeader(oldStart, newStart);
    var head := "@@ -" + (Decimal(oldStart) + (" +" + (Decimal(newStart) + " @@")));
    assert line == head + "\n";
    assert forall i | 0 <= i < |head| :: !IsBreak(head[i]) && !IsSeparator(head[i]) && head[i] == line[i];
    RunStops(line, |head|);
  }

  lemma {:induction false} RenderedBody(edits: seq<Edit>)
    requires AllEdits(IsEnded, edits)
    ensures AllLines(IsPatchLine, RenderBody(edits))
  {
    if edits != [] {
      RenderedEdit(edits[0]);
      RenderedBody(edits[1..]);
    }
  }

  lemma {:induction false} RenderHolds(hunks: seq<Hunk>, newStarts: seq<nat>)
    requires |newStarts| == |hunks| && AllHunks(IsEnded, hunks)
    ensures AllLines(IsPatchLine, Render(hunks, newStarts))
    decreases |hunks|
  {
    if hunks != [] {
      RenderedHeader(hunks[0].oldStart, newStarts[0]);
      RenderedBody(hunks[0].edits);
      RenderHolds(hunks[1..], newStarts[1..]);
    }
    hide RenderHeader, RenderBody, IsPatchLine;
  }

  lemma RenderedLines(hunks: seq<Hunk>, newStarts: seq<nat>)
    requires |newStarts| == |hunks| && AllHunks(IsEnded, hunks)
    ensures AllLines(IsEnded, Render(hunks, newStarts)) && NothingMerges(Render(hunks, newStarts))
  {
    RenderHolds(hunks, newStarts);
    var lines := Render(hunks, newStarts);
    assert forall i | 0 <= i < |lines| :: IsPatchLine(lines[i]);
    hide Render, IsLine;
  }
}
