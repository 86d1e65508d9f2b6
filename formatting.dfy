/** The formatting engine of CodeGenerator: the line cleaner `clean`, the
    indentation builder `generateTabs` and the block re-indenter `indent`,
    with the two constants that size an indentation unit. */
module Formatting {
  import opened Text

  /** CodeGenerator.numSpacesPerTab */
  const NumSpacesPerTab: int := 4
  /** CodeGenerator.numTabs, the one nesting width every `indent` applies */
  const NumTabs: int := 1

  const Terminator: char := ';'

  /** s has no two consecutive statement terminators. */
  predicate NoDoubledTerminator(s: string) {
    forall i :: 0 <= i < |s| - 1 ==> !(s[i] == Terminator && s[i + 1] == Terminator)
  }

  /** The number of terminators s starts with. */
  function LeadingTerminators(s: string): (k: nat)
    ensures k <= |s|
    decreases |s|
  {
    if s != [] && s[0] == Terminator then 1 + LeadingTerminators(s[1..]) else 0
  }

  /** The leading run is all terminators, and what follows it is not one. */
  lemma {:induction false} LeadingRun(s: string)
    ensures forall i :: 0 <= i < LeadingTerminators(s) ==> s[i] == Terminator
    ensures LeadingTerminators(s) < |s| ==> s[LeadingTerminators(s)] != Terminator
    decreases |s|
  {
    if s != [] && s[0] == Terminator {
      LeadingRun(s[1..]);
    }
  }

  /** `line.replace(/;{2,}/g, ";")`: scanning left to right, a run of two or
      more terminators is replaced by a single one; every other character is
      copied. */
  function Clean(line: string): string
    decreases |line|
  {
    if line == [] then []
    else if LeadingTerminators(line) >= 2 then
      [Terminator] + Clean(line[LeadingTerminators(line)..])
    else [line[0]] + Clean(line[1..])
  }

  /** A reference reading of the same cleaning, one character at a time: a
      terminator is dropped exactly when the next character is one too. */
  function DropDoubled(s: string): string
    decreases |s|
  {
    if s == [] then []
    else if |s| >= 2 && s[0] == Terminator && s[1] == Terminator then DropDoubled(s[1..])
    else [s[0]] + DropDoubled(s[1..])
  }

  /** s with every terminator deleted. */
  function WithoutTerminators(s: string): string
    decreases |s|
  {
    if s == [] then [] else (if s[0] == Terminator then [] else [s[0]]) + WithoutTerminators(s[1..])
  }

  /** Inside a run of terminators, dropping the doubled ones leaves the
      result of the run's last terminator onward. */
  lemma {:induction false} DropDoubledRun(s: string, j: nat)
    requires 1 <= LeadingTerminators(s) && j < LeadingTerminators(s)
    ensures DropDoubled(s[j..]) == DropDoubled(s[LeadingTerminators(s) - 1..])
    decreases LeadingTerminators(s) - j
  {
    var k := LeadingTerminators(s);
    LeadingRun(s);
    if j < k - 1 {
      var t := s[j..];
      assert t[0] == Terminator && t[1] == Terminator;
      assert t[1..] == s[j + 1..];
      DropDoubledRun(s, j + 1);
    }
  }

  /** The regular-expression replacement and the character-by-character
      reading agree on every line. */
  lemma {:induction false} CleanIsDropDoubled(s: string)
    ensures Clean(s) == DropDoubled(s)
    decreases |s|
  {
    if s != [] {
      var k := LeadingTerminators(s);
      LeadingRun(s);
      if k >= 2 {
        CleanIsDropDoubled(s[k..]);
        DropDoubledRun(s, 0);
        var t := s[k - 1..];
        assert t[0] == Terminator;
        assert t[1..] == s[k..];
        assert |t| >= 2 ==> t[1] != Terminator;
      } else {
        CleanIsDropDoubled(s[1..]);
        assert k == 1 ==> |s| < 2 || s[1] != Terminator;
      }
    }
  }

  /** The first character of a cleaned line is the line's first character. */
  lemma {:induction false} DropDoubledHead(s: string)
    requires s != []
    ensures DropDoubled(s) != [] && DropDoubled(s)[0] == s[0]
    decreases |s|
  {
    if |s| >= 2 && s[0] == Terminator && s[1] == Terminator {
      DropDoubledHead(s[1..]);
    }
  }

  /** A cleaned line never holds two consecutive terminators. */
  lemma {:induction false} CleanNoDoubled(s: string)
    ensures NoDoubledTerminator(Clean(s))
    decreases |s|
  {
    CleanIsDropDoubled(s);
    DropDoubledNoDoubled(s);
  }

  lemma {:induction false} DropDoubledNoDoubled(s: string)
    ensures NoDoubledTerminator(DropDoubled(s))
    decreases |s|
  {
    if s != [] {
      DropDoubledNoDoubled(s[1..]);
      if !(|s| >= 2 && s[0] == Terminator && s[1] == Terminator) {
        var r := [s[0]] + DropDoubled(s[1..]);
        if |s| >= 2 {
          DropDoubledHead(s[1..]);
        }
        forall i | 0 <= i < |r| - 1
          ensures !(r[i] == Terminator && r[i + 1] == Terminator)
        {
          if i > 0 {
            assert r[i] == DropDoubled(s[1..])[i - 1];
          }
        }
      }
    }
  }

  /** Cleaning leaves a line alone exactly when it has no doubled
      terminator. */
  lemma {:induction false} CleanFixedPoint(s: string)
    ensures Clean(s) == s <==> NoDoubledTerminator(s)
  {
    CleanNoDoubled(s);
    if NoDoubledTerminator(s) {
      CleanIsDropDoubled(s);
      DropDoubledUnchanged(s);
    }
  }

  lemma {:induction false} DropDoubledUnchanged(s: string)
    requires NoDoubledTerminator(s)
    ensures DropDoubled(s) == s
    decreases |s|
  {
    if s != [] {
      assert NoDoubledTerminator(s[1..]) by {
        forall i | 0 <= i < |s[1..]| - 1
          ensures !(s[1..][i] == Terminator && s[1..][i + 1] == Terminator)
        {
          assert s[1..][i] == s[i + 1] && s[1..][i + 1] == s[i + 2];
        }
      }
      DropDoubledUnchanged(s[1..]);
      assert [s[0]] + s[1..] == s;
    }
  }

  /** Cleaning twice is cleaning once. */
  lemma {:induction false} CleanIdempotent(s: string)
    ensures Clean(Clean(s)) == Clean(s)
  {
    CleanNoDoubled(s);
    CleanFixedPoint(Clean(s));
  }

  /** Cleaning deletes terminators only: every other character survives, in
      order. */
  lemma {:induction false} CleanDeletesOnlyTerminators(s: string)
    ensures WithoutTerminators(Clean(s)) == WithoutTerminators(s)
    ensures |Clean(s)| <= |s|
  {
    CleanIsDropDoubled(s);
    DropDoubledKeepsOthers(s);
  }

  lemma {:induction false} WithoutTerminatorsAppend(a: string, b: string)
    ensures WithoutTerminators(a + b) == WithoutTerminators(a) + WithoutTerminators(b)
    decreases |a|
  {
    if a == [] {
      assert a + b == b;
    } else {
      assert (a + b)[1..] == a[1..] + b;
      WithoutTerminatorsAppend(a[1..], b);
    }
  }

  lemma {:induction false} DropDoubledKeepsOthers(s: string)
    ensures WithoutTerminators(DropDoubled(s)) == WithoutTerminators(s)
    ensures |DropDoubled(s)| <= |s|
    decreases |s|
  {
    if s != [] {
      DropDoubledKeepsOthers(s[1..]);
      if !(|s| >= 2 && s[0] == Terminator && s[1] == Terminator) {
        WithoutTerminatorsAppend([s[0]], DropDoubled(s[1..]));
        assert ([s[0]] + DropDoubled(s[1..]))[1..] == DropDoubled(s[1..]);
      }
    }
  }

  /** A cleaned line holds exactly the characters of the original. */
  lemma {:induction false} CleanSameCharacters(s: string, c: char)
    ensures c in Clean(s) <==> c in s
    decreases |s|
  {
    CleanIsDropDoubled(s);
    DropDoubledSameCharacters(s, c);
  }

  lemma {:induction false} DropDoubledSameCharacters(s: string, c: char)
    ensures c in DropDoubled(s) <==> c in s
    decreases |s|
  {
    if s != [] {
      DropDoubledSameCharacters(s[1..], c);
      assert s == [s[0]] + s[1..];
      if |s| >= 2 && s[0] == Terminator && s[1] == Terminator {
        assert s[0] in s[1..];
      }
    }
  }

  /** Cleaning works piece by piece as long as no terminator run spans the
      seam. */
  lemma {:induction false} CleanAppend(a: string, b: string)
    requires a == [] || b == [] || a[|a| - 1] != Terminator || b[0] != Terminator
    ensures Clean(a + b) == Clean(a) + Clean(b)
    decreases |a|
  {
    CleanIsDropDoubled(a + b);
    CleanIsDropDoubled(a);
    CleanIsDropDoubled(b);
    DropDoubledAppend(a, b);
  }

  lemma {:induction false} DropDoubledAppend(a: string, b: string)
    requires a == [] || b == [] || a[|a| - 1] != Terminator || b[0] != Terminator
    ensures DropDoubled(a + b) == DropDoubled(a) + DropDoubled(b)
    decreases |a|
  {
    if a == [] {
      assert a + b == b;
    } else {
      assert (a + b)[1..] == a[1..] + b;
      assert (a + b)[0] == a[0];
      if |a| == 1 {
        assert a[1..] == [];
        assert a[1..] + b == b;
      } else {
        assert (a + b)[1] == a[1];
        DropDoubledAppend(a[1..], b);
      }
    }
  }

  /** k spaces. */
  function Spaces(k: nat): string
    decreases k
  {
    if k == 0 then "" else " " + Spaces(k - 1)
  }

  /** Spaces(k) is k characters, all of them spaces. */
  lemma {:induction false} SpacesShape(k: nat)
    ensures |Spaces(k)| == k && forall i :: 0 <= i < k ==> Spaces(k)[i] == ' '
    decreases k
  {
    if k > 0 {
      SpacesShape(k - 1);
    }
  }

  lemma {:induction false} SpacesAdd(a: nat, b: nat)
    ensures Spaces(a) + Spaces(b) == Spaces(a + b)
    decreases a
  {
    if a > 0 {
      SpacesAdd(a - 1, b);
      assert Spaces(a) + Spaces(b) == " " + (Spaces(a - 1) + Spaces(b));
    }
  }

  /** The indentation for numTabs tab levels, as a value: NumSpacesPerTab
      spaces per level, nothing for a level of zero or less. */
  function Tabs(numTabs: int): string {
    if NumSpacesPerTab * numTabs <= 0 then "" else Spaces(NumSpacesPerTab * numTabs)
  }

  /** `generateTabs(numTabs)`: appends one space per iteration while the
      counter is below numSpacesPerTab * numTabs. */
  method GenerateTabs(numTabs: int) returns (tabs: string)
    ensures |tabs| == if numTabs <= 0 then 0 else NumSpacesPerTab * numTabs
    ensures forall i :: 0 <= i < |tabs| ==> tabs[i] == ' '
    ensures tabs == Tabs(numTabs)
  {
    tabs := "";
    var i := 0;
    while i < NumSpacesPerTab * numTabs
      invariant 0 <= i
      invariant numTabs > 0 ==> i <= NumSpacesPerTab * numTabs
      invariant numTabs <= 0 ==> i == 0
      invariant |tabs| == i
      invariant forall j :: 0 <= j < i ==> tabs[j] == ' '
    {
      tabs := tabs + " ";
      i := i + 1;
    }
    SpacesShape(i);
    assert tabs == Spaces(i);
  }

  /** One indentation unit, `generateTabs(numTabs)` under the default
      constants: four spaces. */
  lemma UnitIsFourSpaces()
    ensures Tabs(NumTabs) == "    "
  {
    assert Spaces(4) == " " + Spaces(3);
  }

  /** Indentation levels add up: one unit in front of d levels is d + 1
      levels. */
  lemma {:induction false} TabsAdd(d: nat)
    ensures Tabs(NumTabs) + Tabs(d) == Tabs(d + 1)
  {
    SpacesAdd(4, 4 * d);
  }

  /** Indentation is spaces only. */
  lemma {:induction false} TabsHaveNoTerminatorOrBreak(d: int)
    ensures Terminator !in Tabs(d) && Newline !in Tabs(d)
    ensures Tabs(d) == [] || Tabs(d)[|Tabs(d)| - 1] != Terminator
  {
    if d > 0 {
      SpacesShape(4 * d);
    }
  }

  /** The prefix `indent` gives line i of n lines: none for the first and the
      last, one unit for the others. */
  function LinePrefix(i: nat, n: nat): string {
    if i == 0 || i == n - 1 then Tabs(0) else Tabs(NumTabs)
  }

  /** The line-by-line map inside `indent`. */
  function IndentLines(lines: seq<string>): seq<string> {
    seq(|lines|, i requires 0 <= i < |lines| => LinePrefix(i, |lines|) + Clean(lines[i]))
  }

  /** `indent(code)`: split on line breaks, prefix and clean every line,
      join again. */
  function Indent(code: string): string {
    Join(IndentLines(Split(code)))
  }

  /** An indented, cleaned line introduces no line break. */
  lemma {:induction false} PrefixedCleanIsSingle(prefix: string, line: string)
    requires SingleLine(prefix) && SingleLine(line)
    ensures SingleLine(prefix + Clean(line))
  {
    CleanSameCharacters(line, Newline);
  }

  /** The lines of `indent(code)` are the lines of code, each cleaned, with
      one unit in front of every line strictly between the first and the
      last. */
  lemma {:induction false} IndentedLines(code: string)
    ensures Split(Indent(code)) == IndentLines(Split(code))
  {
    SplitLinesAreSingle(code);
    IndentLinesSingle(Split(code));
    SplitJoin(IndentLines(Split(code)));
  }

  lemma {:induction false} IndentLinesSingle(lines: seq<string>)
    requires forall i :: 0 <= i < |lines| ==> SingleLine(lines[i])
    ensures forall i :: 0 <= i < |lines| ==> SingleLine(IndentLines(lines)[i])
  {
    forall i | 0 <= i < |lines| ensures SingleLine(IndentLines(lines)[i]) {
      PrefixedCleanIsSingle(LinePrefix(i, |lines|), lines[i]);
    }
  }

  /** `indent` keeps the number of lines. */
  lemma {:induction false} IndentLineCount(code: string)
    ensures |Split(Indent(code))| == |Split(code)|
  {
    IndentedLines(code);
  }

  /** The first and the last line come out cleaned and without any added
      indentation. */
  lemma {:induction false} IndentBoundaryLines(code: string)
    ensures |Split(Indent(code))| == |Split(code)|
    ensures Split(Indent(code))[0] == Clean(Split(code)[0])
    ensures Last(Split(Indent(code))) == Clean(Last(Split(code)))
  {
    IndentedLines(code);
    IndentLinesBoundary(Split(Indent(code)), Split(code));
  }

  lemma {:induction false} IndentLinesBoundary(r: seq<string>, lines: seq<string>)
    requires |lines| >= 1 && r == IndentLines(lines)
    ensures |r| == |lines|
    ensures r[0] == Clean(lines[0])
    ensures Last(r) == Clean(Last(lines))
  {
    assert Tabs(0) == "";
  }

  /** Every line strictly between the first and the last comes out as four
      spaces followed by the cleaned original line. */
  lemma {:induction false} IndentInteriorLines(code: string, i: int)
    requires 0 < i < |Split(code)| - 1
    ensures |Split(Indent(code))| == |Split(code)|
    ensures Split(Indent(code))[i] == "    " + Clean(Split(code)[i])
  {
    IndentedLines(code);
    IndentLinesInterior(Split(Indent(code)), Split(code), i);
  }

  lemma {:induction false} IndentLinesInterior(r: seq<string>, lines: seq<string>, i: int)
    requires 0 < i < |lines| - 1 && r == IndentLines(lines)
    ensures |r| == |lines|
    ensures r[i] == "    " + Clean(lines[i])
  {
    UnitIsFourSpaces();
  }

  /** A single line is only cleaned. */
  lemma {:induction false} IndentSingleLine(code: string)
    requires SingleLine(code)
    ensures Indent(code) == Clean(code)
  {
    SplitSingle(code);
    var out := IndentLines([code]);
    assert |out| == 1;
    assert out[0] == Tabs(0) + Clean(code);
    assert Tabs(0) == "";
    assert Join(out) == out[0];
  }

  /** Every line of an indented block is free of doubled terminators. */
  lemma {:induction false} IndentNoDoubled(code: string, i: int)
    requires 0 <= i < |Split(code)|
    ensures |Split(Indent(code))| == |Split(code)|
    ensures NoDoubledTerminator(Split(Indent(code))[i])
  {
    IndentedLines(code);
    IndentLinesNoDoubled(Split(Indent(code)), Split(code), i);
  }

  lemma {:induction false} IndentLinesNoDoubled(r: seq<string>, lines: seq<string>, i: int)
    requires 0 <= i < |lines| && r == IndentLines(lines)
    ensures |r| == |lines|
    ensures NoDoubledTerminator(r[i])
  {
    TabsHaveNoTerminatorOrBreak(0);
    TabsHaveNoTerminatorOrBreak(NumTabs);
    PrefixedCleanNoDoubled(LinePrefix(i, |lines|), lines[i]);
  }

  /** Indentation in front of a cleaned line brings in no doubled
      terminator. */
  lemma {:induction false} PrefixedCleanNoDoubled(prefix: string, line: string)
    requires Terminator !in prefix
    ensures NoDoubledTerminator(prefix + Clean(line))
  {
    CleanNoDoubled(line);
    var r := prefix + Clean(line);
    forall j | 0 <= j < |r| - 1 ensures !(r[j] == Terminator && r[j + 1] == Terminator) {
      if j >= |prefix| {
        assert r[j] == Clean(line)[j - |prefix|];
      } else {
        assert r[j] in prefix;
      }
    }
  }

  /** A line without terminators is left alone by cleaning. */
  lemma {:induction false} CleanWithoutTerminator(s: string)
    requires Terminator !in s
    ensures Clean(s) == s
  {
    assert NoDoubledTerminator(s) by {
      forall i | 0 <= i < |s| - 1 ensures s[i] != Terminator {
        assert s[i] in s;
      }
    }
    CleanFixedPoint(s);
  }

  /** The last character of a line survives cleaning. */
  lemma {:induction false} CleanKeepsLast(s: string)
    requires s != []
    ensures Clean(s) != [] && Clean(s)[|Clean(s)| - 1] == s[|s| - 1]
  {
    CleanIsDropDoubled(s);
    DropDoubledKeepsLast(s);
  }

  lemma {:induction false} DropDoubledKeepsLast(s: string)
    requires s != []
    ensures DropDoubled(s) != [] && DropDoubled(s)[|DropDoubled(s)| - 1] == s[|s| - 1]
    decreases |s|
  {
    if |s| >= 2 {
      DropDoubledKeepsLast(s[1..]);
    }
  }

  /** s ends in a terminator and holds no doubled one: a statement closed by
      exactly one terminator. */
  predicate Terminated(s: string) {
    s != [] && s[|s| - 1] == Terminator && NoDoubledTerminator(s)
  }

  /** Cleaning a line that ends in a terminator gives a terminated
      statement. */
  lemma {:induction false} CleanTerminates(s: string)
    requires s != [] && s[|s| - 1] == Terminator
    ensures Terminated(Clean(s))
  {
    CleanKeepsLast(s);
    CleanNoDoubled(s);
  }

  /** Lines moved in by one unit and cleaned: the interior of a block. */
  function Shifted(lines: seq<string>): seq<string> {
    seq(|lines|, i requires 0 <= i < |lines| => Tabs(NumTabs) + Clean(lines[i]))
  }

  /** The shape every block emitter relies on: for a one-line header and a
      one-line footer around a body, `indent` gives the cleaned header, the
      body's own lines cleaned and moved in by one unit, and the cleaned
      footer. */
  lemma {:induction false} IndentBlock(header: string, body: string, footer: string)
    ensures SingleLine(header) && SingleLine(footer) ==>
      Split(Indent(header + "\n" + body + "\n" + footer)) == [Clean(header)] + Shifted(Split(body)) + [Clean(footer)]
  {
    if SingleLine(header) && SingleLine(footer) {
      var code := header + "\n" + body + "\n" + footer;
      IndentedLines(code);
      FrameLines(header, body, footer);
      IndentFrame(header, Split(body), footer);
    }
  }

  /** A one-line header and a one-line footer around a body split into the
      header, the body's lines and the footer. */
  lemma {:induction false} FrameLines(header: string, body: string, footer: string)
    requires SingleLine(header) && SingleLine(footer)
    ensures Split(header + "\n" + body + "\n" + footer) == [header] + Split(body) + [footer]
  {
    assert header + "\n" + body + "\n" + footer == header + [Newline] + (body + [Newline] + footer);
    SplitAtBreak(header, body + [Newline] + footer);
    SplitAtBreak(body, footer);
    SplitSingle(header);
    SplitSingle(footer);
  }

  /** The line map of `indent` on a header, interior lines and a footer. */
  lemma {:induction false} IndentFrame(header: string, inner: seq<string>, footer: string)
    ensures IndentLines([header] + inner + [footer]) == [Clean(header)] + Shifted(inner) + [Clean(footer)]
  {
    var lines := [header] + inner + [footer];
    var out := IndentLines(lines);
    var expected := [Clean(header)] + Shifted(inner) + [Clean(footer)];
    assert |out| == |expected|;
    forall i | 0 <= i < |out| ensures out[i] == expected[i] {
      if i == 0 {
        assert Tabs(0) == "";
      } else if i == |out| - 1 {
        assert Tabs(0) == "";
      } else {
        assert lines[i] == inner[i - 1];
      }
    }
  }

  /** IndentBlock for a template whose footer is fixed text that cleaning
      leaves alone. */
  lemma {:induction false} IndentClosedBlock(header: string, body: string, footer: string)
    requires NoDoubledTerminator(footer)
    ensures SingleLine(header) && SingleLine(footer) ==>
      Split(Indent(header + "\n" + body + "\n" + footer)) == [Clean(header)] + Shifted(Split(body)) + [footer]
  {
    IndentBlock(header, body, footer);
    CleanFixedPoint(footer);
  }

  /** IndentBlock for a template whose header is fixed text that cleaning
      leaves alone. */
  lemma {:induction false} IndentOpenedBlock(header: string, body: string, footer: string)
    requires NoDoubledTerminator(header)
    ensures SingleLine(header) && SingleLine(footer) ==>
      Split(Indent(header + "\n" + body + "\n" + footer)) == [header] + Shifted(Split(body)) + [Clean(footer)]
  {
    IndentBlock(header, body, footer);
    CleanFixedPoint(header);
  }

  /** IndentBlock for a template whose header and footer are both fixed
      text that cleaning leaves alone. */
  lemma {:induction false} IndentFixedBlock(header: string, body: string, footer: string)
    requires NoDoubledTerminator(header) && NoDoubledTerminator(footer)
    ensures SingleLine(header) && SingleLine(footer) ==>
      Split(Indent(header + "\n" + body + "\n" + footer)) == [header] + Shifted(Split(body)) + [footer]
  {
    IndentBlock(header, body, footer);
    CleanFixedPoint(header);
    CleanFixedPoint(footer);
  }

  /** Moving lines in twice puts them two units in: a block nested in a
      block has its interior lines at depth two. */
  lemma {:induction false} ShiftedTwice(lines: seq<string>)
    ensures Shifted(Shifted(lines)) == seq(|lines|, i requires 0 <= i < |lines| => Tabs(2) + Clean(lines[i]))
  {
    forall i | 0 <= i < |lines|
      ensures Shifted(Shifted(lines))[i] == Tabs(2) + Clean(lines[i])
    {
      ShiftOfIndented(1, lines[i]);
    }
  }

  /** Re-indenting a line that already sits d units in, as the enclosing
      block does with its body, adds exactly one unit and changes nothing
      else. */
  lemma {:induction false} ShiftOfIndented(d: nat, line: string)
    ensures Tabs(NumTabs) + Clean(Tabs(d) + Clean(line)) == Tabs(d + 1) + Clean(line)
  {
    CleanAfterTabs(d, line);
    TabsAdd(d);
    PrefixMerge(Tabs(NumTabs), Tabs(d), Clean(line), Tabs(d + 1));
  }

  lemma {:induction false} PrefixMerge(u: string, t: string, c: string, ut: string)
    requires u + t == ut
    ensures u + (t + c) == ut + c
  {
  }

  /** A cleaned line behind indentation is left alone by cleaning again. */
  lemma {:induction false} CleanAfterTabs(d: nat, line: string)
    ensures Clean(Tabs(d) + Clean(line)) == Tabs(d) + Clean(line)
  {
    var t, c := Tabs(d), Clean(line);
    TabsHaveNoTerminatorOrBreak(d);
    CleanAppend(t, c);
    CleanWithoutTerminator(t);
    CleanIdempotent(line);
  }

  /** The line `a;;;;b`: a run of four terminators collapses into one. */
  lemma CollapseExample()
    ensures Clean("a;;;;b") == "a;b"
  {
    assert LeadingTerminators("a;;;;b") == 0;
    assert "a;;;;b"[1..] == ";;;;b";
    assert LeadingTerminators(";;;;b") == 4 by {
      assert ";;;;b"[1..] == ";;;b";
      assert ";;;b"[1..] == ";;b";
      assert ";;b"[1..] == ";b";
      assert ";b"[1..] == "b";
    }
    assert ";;;;b"[4..] == "b";
    assert Clean("b") == "b" by {
      assert "b"[1..] == [];
    }
  }
}
