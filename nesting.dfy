/** How CodeGenerator's blocks compose: an outer emitter splices the rendered
    text of inner emitters into its body and runs `indent` over the whole.
    Because `indent` moves only the interior lines of its own block, every
    line of a nested construct ends up exactly one unit further in per
    enclosing block, without any emitter knowing its depth. */
module Nesting {
  import opened Text
  import opened Formatting
  import Emitters

  /** A generated fragment: a one-line statement, or a block with a header
      line, the fragments of its body (joined by line breaks) and a footer
      line. */
  datatype Snippet =
    | Statement(text: string)
    | Block(header: string, body: seq<Snippet>, footer: string)

  /** Every header, footer and statement is a single line. */
  predicate WellFormed(s: Snippet)
    decreases s
  {
    match s
    case Statement(t) => SingleLine(t)
    case Block(h, b, f) => SingleLine(h) && SingleLine(f) && AllWellFormed(b)
  }

  predicate AllWellFormed(b: seq<Snippet>)
    decreases b
  {
    b == [] || (WellFormed(b[0]) && AllWellFormed(b[1..]))
  }

  /** The text emitters produce for a fragment: a statement is cleaned, a
      block is indented around the joined text of its body. */
  function Render(s: Snippet): string
    decreases s
  {
    match s
    case Statement(t) => Clean(t)
    case Block(h, b, f) => Indent(h + "\n" + RenderAll(b) + "\n" + f)
  }

  /** The rendered fragments of a body, one after the other on their own
      lines. */
  function RenderAll(b: seq<Snippet>): string
    decreases b
  {
    if b == [] then ""
    else if |b| == 1 then Render(b[0])
    else Render(b[0]) + "\n" + RenderAll(b[1..])
  }

  /** The intended layout of a fragment placed at depth d: every line
      cleaned and d units in, a block's body one unit deeper than its header
      and footer (an empty body leaves one blank line one unit deeper). */
  function Layout(s: Snippet, d: nat): seq<string>
    decreases s
  {
    match s
    case Statement(t) => [Tabs(d) + Clean(t)]
    case Block(h, b, f) =>
      [Tabs(d) + Clean(h)]
      + (if b == [] then [Tabs(d + 1)] else LayoutAll(b, d + 1))
      + [Tabs(d) + Clean(f)]
  }

  function LayoutAll(b: seq<Snippet>, d: nat): seq<string>
    decreases b
  {
    if b == [] then [] else Layout(b[0], d) + LayoutAll(b[1..], d)
  }

  /** Moving lines in distributes over putting them one after the other. */
  lemma {:induction false} ShiftedAppend(a: seq<string>, b: seq<string>)
    ensures Shifted(a + b) == Shifted(a) + Shifted(b)
  {
    assert |Shifted(a + b)| == |Shifted(a) + Shifted(b)|;
    forall i | 0 <= i < |a + b| ensures Shifted(a + b)[i] == (Shifted(a) + Shifted(b))[i] {
      if i >= |a| {
        assert (a + b)[i] == b[i - |a|];
      }
    }
  }

  /** Shifting a header line, a body and a footer line shifts each. */
  lemma {:induction false} ShiftedFrame(x: string, inner: seq<string>, y: string)
    ensures Shifted([x] + inner + [y]) == [Tabs(NumTabs) + Clean(x)] + Shifted(inner) + [Tabs(NumTabs) + Clean(y)]
  {
    ShiftedAppend([x] + inner, [y]);
    ShiftedAppend([x], inner);
    assert Shifted([x]) == [Tabs(NumTabs) + Clean(x)];
    assert Shifted([y]) == [Tabs(NumTabs) + Clean(y)];
  }

  /** The one-line shift of a fragment laid out at depth d is its layout at
      depth d + 1. */
  lemma {:induction false} ShiftedLayout(s: Snippet, d: nat)
    ensures Shifted(Layout(s, d)) == Layout(s, d + 1)
    decreases s
  {
    match s
    case Statement(t) =>
      ShiftOfIndented(d, t);
    case Block(h, b, f) =>
      var inner := if b == [] then [Tabs(d + 1)] else LayoutAll(b, d + 1);
      var inner' := if b == [] then [Tabs(d + 2)] else LayoutAll(b, d + 2);
      ShiftedFrame(Tabs(d) + Clean(h), inner, Tabs(d) + Clean(f));
      ShiftOfIndented(d, h);
      ShiftOfIndented(d, f);
      if b == [] {
        ShiftOfIndented(d + 1, "");
        assert Tabs(d + 1) + Clean("") == Tabs(d + 1);
        assert Tabs(d + 2) + Clean("") == Tabs(d + 2);
        assert Shifted(inner) == inner';
      } else {
        ShiftedLayoutAll(b, d + 1);
      }
      assert Layout(s, d + 1) == [Tabs(d + 1) + Clean(h)] + inner' + [Tabs(d + 1) + Clean(f)];
  }

  lemma {:induction false} ShiftedLayoutAll(b: seq<Snippet>, d: nat)
    ensures Shifted(LayoutAll(b, d)) == LayoutAll(b, d + 1)
    decreases b
  {
    if b != [] {
      ShiftedAppend(Layout(b[0], d), LayoutAll(b[1..], d));
      ShiftedLayout(b[0], d);
      ShiftedLayoutAll(b[1..], d);
    }
  }

  /** Composition theorem: the lines of a rendered fragment are its layout at
      depth zero. Each construct is indented once, by its own emitter, and
      the re-indentation by every enclosing block adds exactly one unit per
      level and leaves the already-cleaned text alone. */
  lemma {:induction false} RenderedLayout(s: Snippet)
    requires WellFormed(s)
    ensures Split(Render(s)) == Layout(s, 0)
    decreases s
  {
    match s
    case Statement(t) =>
      CleanSameCharacters(t, Newline);
      SplitSingle(Clean(t));
      assert Tabs(0) + Clean(t) == Clean(t);
    case Block(h, b, f) =>
      if b == [] {
        EmptyBlockLayout(h, f);
      } else {
        RenderedLayoutAll(b);
        ShiftedLayoutAll(b, 0);
        BlockLayout(h, b, f);
      }
  }

  /** A block with nothing in its body keeps one blank interior line. */
  lemma {:induction false} EmptyBlockLayout(h: string, f: string)
    requires SingleLine(h) && SingleLine(f)
    ensures Split(Render(Block(h, [], f))) == Layout(Block(h, [], f), 0)
  {
    IndentBlock(h, "", f);
    assert Split("") == [""];
    assert Clean("") == "";
    assert Tabs(NumTabs) + Clean("") == Tabs(1);
    assert Shifted([""]) == [Tabs(1)];
    assert Tabs(0) + Clean(h) == Clean(h) && Tabs(0) + Clean(f) == Clean(f);
  }

  /** A block whose body already renders to its layout renders to its own
      layout. */
  lemma {:induction false} BlockLayout(h: string, b: seq<Snippet>, f: string)
    requires SingleLine(h) && SingleLine(f) && b != []
    requires Shifted(Split(RenderAll(b))) == LayoutAll(b, 1)
    ensures Split(Render(Block(h, b, f))) == Layout(Block(h, b, f), 0)
  {
    IndentBlock(h, RenderAll(b), f);
    assert Tabs(0) + Clean(h) == Clean(h) && Tabs(0) + Clean(f) == Clean(f);
  }

  lemma {:induction false} RenderedLayoutAll(b: seq<Snippet>)
    requires b != [] && AllWellFormed(b)
    ensures Split(RenderAll(b)) == LayoutAll(b, 0)
    decreases b
  {
    RenderedLayout(b[0]);
    if |b| == 1 {
      assert LayoutAll(b[1..], 0) == [];
    } else {
      RenderedLayoutAll(b[1..]);
      SplitAtBreak(Render(b[0]), RenderAll(b[1..]));
    }
  }

  /** With the real emitters: a one-statement `if` inside a `for` loop. The
      loop's header and brace sit at the outer level, the `if` header and
      brace one unit in, the statement two units in. */
  lemma {:induction false} IfInsideFor(start: string, stop: string, incr: string, condition: string, stmt: string)
    requires SingleLine(start + stop + incr) && SingleLine(condition) && SingleLine(stmt)
    ensures Split(Emitters.ForLoop(start, stop, incr, Emitters.IfStatement(condition, stmt))) ==
      [ Clean("for (" + start + "; " + stop + "; " + incr + ") {"),
        Tabs(NumTabs) + Clean("if (" + condition + ") {"),
        Tabs(2 * NumTabs) + Clean(stmt),
        Tabs(NumTabs) + "}",
        "}" ]
  {
    var h := "if (" + condition + ") {";
    var mid := Tabs(NumTabs) + Clean(stmt);
    SplitSingle(stmt);
    ShiftedSingle(stmt);
    CleanWithoutTerminator("}");
    CleanIdempotent(h);
    ShiftOfIndented(NumTabs, stmt);
    assert NumTabs + 1 == 2 * NumTabs;
    var inner := Emitters.IfStatement(condition, stmt);
    ShiftedThree(Clean(h), mid, "}");
    var f := "for (" + start + "; " + stop + "; " + incr + ") {";
    FiveLines(Split(Emitters.ForLoop(start, stop, incr, inner)), Clean(f), Shifted(Split(inner)), "}",
      Tabs(NumTabs) + Clean(h), Tabs(2 * NumTabs) + Clean(stmt), Tabs(NumTabs) + "}");
  }

  lemma {:induction false} FiveLines(lines: seq<string>, a: string, mid: seq<string>, e: string, x: string, y: string, z: string)
    requires lines == [a] + mid + [e] && mid == [x, y, z]
    ensures lines == [a, x, y, z, e]
  {
  }

  /** One line shifted. */
  lemma {:induction false} ShiftedSingle(line: string)
    ensures Shifted([line]) == [Tabs(NumTabs) + Clean(line)]
  {
  }

  /** Three lines shifted. */
  lemma {:induction false} ShiftedThree(a: string, b: string, c: string)
    ensures Shifted([a] + [b] + [c]) == [Tabs(NumTabs) + Clean(a), Tabs(NumTabs) + Clean(b), Tabs(NumTabs) + Clean(c)]
  {
  }
}
