/** The clean-up of console output (transport/ssh/output.go). A char is a rune here. */
module ConsoleOutput {
  import opened Text

  const LF := '\n'
  const CR := '\r'

  // ----- newlines -----

  /** `ReplaceAll(s, "\r\n", "\n")`. */
  function DropCrLf(s: string): string {
    if s == [] then []
    else if s[0] == CR && |s| > 1 && s[1] == LF then [LF] + DropCrLf(s[2..])
    else [s[0]] + DropCrLf(s[1..])
  }

  /** `ReplaceAll(s, "\r", "\n")`. */
  function CrToLf(s: string): string {
    if s == [] then [] else [if s[0] == CR then LF else s[0]] + CrToLf(s[1..])
  }

  /** Both at once. */
  function Normalize(s: string): string {
    if s == [] then []
    else if s[0] == CR && |s| > 1 && s[1] == LF then [LF] + Normalize(s[2..])
    else [if s[0] == CR then LF else s[0]] + Normalize(s[1..])
  }

  lemma {:induction false} TwoPassesNormalize(s: string)
    ensures CrToLf(DropCrLf(s)) == Normalize(s)
    decreases |s|
  {
    if s == [] {
    } else if s[0] == CR && |s| > 1 && s[1] == LF {
      TwoPassesNormalize(s[2..]);
      assert ([LF] + DropCrLf(s[2..]))[1..] == DropCrLf(s[2..]);
    } else {
      TwoPassesNormalize(s[1..]);
      assert ([s[0]] + DropCrLf(s[1..]))[1..] == DropCrLf(s[1..]);
    }
  }

  lemma {:induction false} NormalizedHasNoCr(s: string)
    ensures Free(Normalize(s), CR)
    ensures Free(s, CR) ==> Normalize(s) == s
    decreases |s|
  {
    if s == [] {
    } else if s[0] == CR && |s| > 1 && s[1] == LF {
      NormalizedHasNoCr(s[2..]);
    } else {
      NormalizedHasNoCr(s[1..]);
      assert s == [s[0]] + s[1..];
      if Free(s, CR) {
        assert s[0] != CR && Free(s[1..], CR);
      }
    }
  }

  // ----- lines -----

  /** `TrimRight(line, " \t")`. */
  function TrimRight(line: string): string {
    if line != [] && (line[|line| - 1] == ' ' || line[|line| - 1] == '\t') then TrimRight(line[..|line| - 1]) else line
  }

  lemma {:induction false} TrimRightMeaning(line: string)
    ensures TrimRight(line) <= line
    ensures forall i :: |TrimRight(line)| <= i < |line| ==> line[i] == ' ' || line[i] == '\t'
    ensures var t := TrimRight(line); t != [] ==> t[|t| - 1] != ' ' && t[|t| - 1] != '\t'
    ensures TrimRight(TrimRight(line)) == TrimRight(line)
    ensures Blank(TrimRight(line)) <==> Blank(line)
  {
    if line != [] && (line[|line| - 1] == ' ' || line[|line| - 1] == '\t') {
      var init := line[..|line| - 1];
      TrimRightMeaning(init);
      assert Blank(init) <==> Blank(line) by {
        assert forall i :: 0 <= i < |init| ==> init[i] == line[i];
        assert IsSpace(line[|line| - 1]);
      }
    }
  }

  function TrimLines(lines: seq<string>): seq<string> {
    if lines == [] then [] else [TrimRight(lines[0])] + TrimLines(lines[1..])
  }

  function DropBlankFront(lines: seq<string>): seq<string> {
    if lines != [] && Blank(lines[0]) then DropBlankFront(lines[1..]) else lines
  }

  function DropBlankBack(lines: seq<string>): seq<string> {
    if lines != [] && Blank(lines[|lines| - 1]) then DropBlankBack(lines[..|lines| - 1]) else lines
  }

  /** The lines between the blank ones at both ends. */
  function Kept(lines: seq<string>): seq<string> {
    DropBlankBack(DropBlankFront(lines))
  }

  function Clean(s: string): string {
    Join(TrimLines(Kept(Split(Normalize(s), LF))), [LF])
  }

  // ----- the program -----

  lemma {:induction false} DropBlankFrontIs(lines: seq<string>, start: nat)
    requires start <= |lines|
    requires forall i :: 0 <= i < start ==> Blank(lines[i])
    requires start < |lines| ==> !Blank(lines[start])
    ensures DropBlankFront(lines) == lines[start..]
    decreases |lines|
  {
    if start > 0 {
      assert forall i :: 0 <= i < start - 1 ==> lines[1..][i] == lines[i + 1];
      DropBlankFrontIs(lines[1..], start - 1);
    }
  }

  lemma {:induction false} DropBlankBackIs(lines: seq<string>, end: nat)
    requires end <= |lines|
    requires forall i :: end <= i < |lines| ==> Blank(lines[i])
    requires end > 0 ==> !Blank(lines[end - 1])
    ensures DropBlankBack(lines) == lines[..end]
    decreases |lines|
  {
    if end < |lines| {
      DropBlankBackIs(lines[..|lines| - 1], end);
      assert lines[..|lines| - 1][..end] == lines[..end];
    } else {
      assert lines[..end] == lines;
    }
  }

  lemma TrimLinesAt(lines: seq<string>)
    ensures |TrimLines(lines)| == |lines|
    ensures forall i :: 0 <= i < |lines| ==> TrimLines(lines)[i] == TrimRight(lines[i])
  {
  }

  lemma {:induction false} JoinSnoc(ss: seq<string>, s: string, sep: string)
    requires ss != []
    ensures Join(ss + [s], sep) == Join(ss, sep) + sep + s
    decreases |ss|
  {
    if |ss| == 1 {
      assert (ss + [s])[1..] == [s];
    } else {
      assert (ss + [s])[1..] == ss[1..] + [s];
      JoinSnoc(ss[1..], s, sep);
    }
  }

  lemma Bounds(lines: seq<string>, start: nat, end: nat)
    requires start <= end <= |lines|
    requires forall i :: 0 <= i < start ==> Blank(lines[i])
    requires start < |lines| ==> !Blank(lines[start])
    requires forall i :: end <= i < |lines| ==> Blank(lines[i])
    requires end > start ==> !Blank(lines[end - 1])
    ensures Kept(lines) == lines[start..end]
  {
    DropBlankFrontIs(lines, start);
    var rest := lines[start..];
    assert forall i :: end - start <= i < |rest| ==> rest[i] == lines[i + start];
    DropBlankBackIs(rest, end - start);
    assert rest[..end - start] == lines[start..end];
  }

  /** `CleanConsoleOutput`. */
  method CleanConsoleOutput(stdout: string) returns (out: string)
    ensures out == Clean(stdout)
  {
    hide Normalize, DropCrLf, CrToLf, Split, Blank, TrimRight, Kept;
    var normalized := CrToLf(DropCrLf(stdout));
    TwoPassesNormalize(stdout);
    var lines := Split(normalized, LF);
    var start := 0;
    while start < |lines| && Blank(lines[start])
      invariant start <= |lines| && forall i :: 0 <= i < start ==> Blank(lines[i])
    {
      start := start + 1;
    }
    var end := |lines|;
    while end > start && Blank(lines[end - 1])
      invariant start <= end <= |lines| && forall i :: end <= i < |lines| ==> Blank(lines[i])
    {
      end := end - 1;
    }
    Bounds(lines, start, end);
    var kept := TrimLines(lines[start..end]);
    TrimLinesAt(lines[start..end]);
    out := "";
    var i := start;
    while i < end
      invariant start <= i <= end
      invariant out == Join(kept[..i - start], [LF]) + (if start < i < end then [LF] else [])
    {
      var k := i - start;
      assert kept[..k + 1] == kept[..k] + [kept[k]];
      if k > 0 {
        JoinSnoc(kept[..k], kept[k], [LF]);
      }
      out := out + TrimRight(lines[i]);
      if i < end - 1 {
        out := out + [LF];
      }
      i := i + 1;
    }
    assert kept[..i - start] == kept;
  }

  // ----- what the result looks like -----

  lemma {:induction false} FrontIsSuffix(lines: seq<string>) returns (a: nat)
    ensures a <= |lines| && DropBlankFront(lines) == lines[a..]
    ensures forall i :: 0 <= i < a ==> Blank(lines[i])
    ensures a < |lines| ==> !Blank(lines[a])
  {
    a := 0;
    if lines != [] && Blank(lines[0]) {
      var rest := lines[1..];
      var x := FrontIsSuffix(rest);
      a := x + 1;
      assert rest[x..] == lines[a..];
      forall i | 0 < i < a ensures Blank(lines[i]) {
        assert lines[i] == rest[i - 1];
      }
    }
  }

  lemma {:induction false} BackIsPrefix(lines: seq<string>) returns (b: nat)
    ensures b <= |lines| && DropBlankBack(lines) == lines[..b]
    ensures forall i :: b <= i < |lines| ==> Blank(lines[i])
    ensures b > 0 ==> !Blank(lines[b - 1])
  {
    b := |lines|;
    if lines != [] && Blank(lines[|lines| - 1]) {
      b := BackIsPrefix(lines[..|lines| - 1]);
      assert lines[..|lines| - 1][..b] == lines[..b];
    }
  }

  /** All lines before `a` and from `b` on are blank. */
  ghost predicate BlankOutside(lines: seq<string>, a: nat, b: nat) {
    && a <= b <= |lines|
    && (forall i :: 0 <= i < a ==> Blank(lines[i]))
    && (forall i :: b <= i < |lines| ==> Blank(lines[i]))
  }

  /** The kept lines are all lines but blank ones at the ends, and neither end is blank. */
  lemma KeptMeaning(lines: seq<string>) returns (a: nat, b: nat)
    ensures BlankOutside(lines, a, b) && Kept(lines) == lines[a..b]
    ensures a < b ==> !Blank(lines[a]) && !Blank(lines[b - 1])
  {
    a := FrontIsSuffix(lines);
    var front := lines[a..];
    var n := BackIsPrefix(front);
    b := a + n;
    assert front[..n] == lines[a..b];
    forall i | b <= i < |lines| ensures Blank(lines[i]) {
      assert lines[i] == front[i - a];
    }
    if n > 0 {
      assert lines[b - 1] == front[n - 1];
    }
  }

  lemma FreeOfTrim(lines: seq<string>, c: char)
    requires AllFree(lines, c)
    ensures AllFree(TrimLines(lines), c)
  {
    TrimLinesAt(lines);
    forall k | 0 <= k < |lines| ensures Free(TrimLines(lines)[k], c) {
      TrimRightMeaning(lines[k]);
      assert Free(lines[k], c);
    }
  }

  /** The lines of a cleaned text. */
  function CleanLines(s: string): seq<string> {
    TrimLines(Kept(Split(Normalize(s), LF)))
  }

  lemma CleanLinesFree(s: string)
    ensures AllFree(CleanLines(s), CR) && AllFree(CleanLines(s), LF)
  {
    var lines := Split(Normalize(s), LF);
    NormalizedHasNoCr(s);
    JoinOfSplit(Normalize(s), LF);
    SplitFree(Normalize(s), LF, CR);
    var a, b := KeptMeaning(lines);
    forall k | 0 <= k < b - a ensures Free(Kept(lines)[k], CR) && Free(Kept(lines)[k], LF) {
      assert Free(lines[a + k], CR) && Free(lines[a + k], LF);
    }
    FreeOfTrim(Kept(lines), CR);
    FreeOfTrim(Kept(lines), LF);
  }

  /** The cleaned text has no carriage return; its lines are those of the normalised input without
      the blank ones at either end, in order, each without the spaces and tabs at its end; none
      ends in a space or tab, and the first and last are not blank. */
  lemma CleanMeaning(s: string) returns (a: nat, b: nat)
    ensures Free(Clean(s), CR)
    ensures var lines := Split(Normalize(s), LF);
            BlankOutside(lines, a, b) && CleanLines(s) == TrimLines(lines[a..b])
    ensures forall k :: 0 <= k < |CleanLines(s)| ==> TrimRight(CleanLines(s)[k]) == CleanLines(s)[k]
    ensures var ls := CleanLines(s);
            ls != [] ==> Split(Clean(s), LF) == ls && !Blank(ls[0]) && !Blank(ls[|ls| - 1])
  {
    hide Normalize, Split, Kept, TrimLines, TrimRight, Join, Blank, Free;
    var lines := Split(Normalize(s), LF);
    var kept := Kept(lines);
    a, b := KeptMeaning(lines);
    CleanLinesFree(s);
    JoinFree(CleanLines(s), [LF], CR);
    TrimLinesAt(kept);
    forall k | 0 <= k < |kept|
      ensures TrimRight(CleanLines(s)[k]) == CleanLines(s)[k] && (Blank(CleanLines(s)[k]) <==> Blank(kept[k]))
    {
      TrimRightMeaning(kept[k]);
    }
    if CleanLines(s) != [] {
      SplitOfJoin(CleanLines(s), LF);
    }
  }

  lemma {:induction false} TrimmedStay(lines: seq<string>)
    requires forall k :: 0 <= k < |lines| ==> TrimRight(lines[k]) == lines[k]
    ensures TrimLines(lines) == lines
  {
    if lines != [] {
      TrimmedStay(lines[1..]);
    }
  }

  /** Cleaning a cleaned text changes nothing. */
  lemma CleanIdempotent(s: string)
    ensures Clean(Clean(s)) == Clean(s)
  {
    var _, _ := CleanMeaning(s);
    var ls := CleanLines(s);
    NormalizedHasNoCr(Clean(s));
    if ls == [] {
      assert Split(Clean(s), LF) == [""];
      assert DropBlankFront([""]) == DropBlankFront([""][1..]);
    } else {
      assert DropBlankFront(ls) == ls && DropBlankBack(ls) == ls;
      TrimmedStay(ls);
    }
  }
}
