/** Lines of text as JavaScript's String.prototype.split("\n") and
    Array.prototype.join("\n") see them: the two halves of the pipeline that
    CodeGenerator.indent runs every rendered block through. */
module Text {

  const Newline: char := '\n'

  /** No line break inside s. */
  predicate SingleLine(s: string) {
    Newline !in s
  }

  /** `s.split("\n")`: the pieces between line breaks, always at least one
      (the empty string splits into one empty line). */
  function Split(s: string): (lines: seq<string>)
    ensures |lines| >= 1
    decreases |s|
  {
    if s == [] then [""]
    else
      var rest := Split(s[1..]);
      if s[0] == Newline then [""] + rest
      else [[s[0]] + rest[0]] + rest[1..]
  }

  /** `lines.join("\n")`. */
  function Join(lines: seq<string>): string
    decreases |lines|
  {
    if lines == [] then ""
    else if |lines| == 1 then lines[0]
    else lines[0] + [Newline] + Join(lines[1..])
  }

  /** The last of a non-empty list of lines. */
  function Last(lines: seq<string>): string
    requires |lines| >= 1
  {
    lines[|lines| - 1]
  }

  /** Number of line breaks in s. */
  function Breaks(s: string): nat
    decreases |s|
  {
    if s == [] then 0 else (if s[0] == Newline then 1 else 0) + Breaks(s[1..])
  }

  /** Every piece of a split is free of line breaks. */
  lemma {:induction false} SplitLinesAreSingle(s: string)
    ensures forall i :: 0 <= i < |Split(s)| ==> SingleLine(Split(s)[i])
    decreases |s|
  {
    if s != [] {
      SplitLinesAreSingle(s[1..]);
    }
  }

  /** A split has one more line than the text has line breaks. */
  lemma {:induction false} SplitCount(s: string)
    ensures |Split(s)| == Breaks(s) + 1
    decreases |s|
  {
    if s != [] {
      SplitCount(s[1..]);
    }
  }

  /** Splitting distributes over a line break: the lines of `a + "\n" + b`
      are the lines of a followed by the lines of b. */
  lemma {:induction false} SplitAtBreak(a: string, b: string)
    ensures Split(a + [Newline] + b) == Split(a) + Split(b)
    decreases |a|
  {
    if a == [] {
      assert a + [Newline] + b == [Newline] + b;
      assert ([Newline] + b)[1..] == b;
    } else {
      var x := a + [Newline] + b;
      assert x[0] == a[0];
      assert x[1..] == a[1..] + [Newline] + b;
      SplitAtBreak(a[1..], b);
    }
  }

  /** A text without line breaks is a single line. */
  lemma {:induction false} SplitSingle(s: string)
    requires SingleLine(s)
    ensures Split(s) == [s]
    decreases |s|
  {
    if s != [] {
      assert SingleLine(s[1..]) by {
        forall c | c in s[1..] ensures c in s { }
      }
      SplitSingle(s[1..]);
      assert [s[0]] + s[1..] == s;
    }
  }

  /** Joining the pieces of a split gives back the text. */
  lemma {:induction false} JoinSplit(s: string)
    ensures Join(Split(s)) == s
    decreases |s|
  {
    if s != [] {
      JoinSplit(s[1..]);
      var rest := Split(s[1..]);
      if s[0] == Newline {
        assert Join([""] + rest) == "" + [Newline] + Join(rest) by {
          assert ([""] + rest)[1..] == rest;
        }
        assert [s[0]] + s[1..] == s;
      } else {
        var lines := [[s[0]] + rest[0]] + rest[1..];
        if |rest| == 1 {
          assert [s[0]] + s[1..] == s;
        } else {
          assert lines[1..] == rest[1..];
          assert Join(rest) == rest[0] + [Newline] + Join(rest[1..]);
          assert [s[0]] + s[1..] == s;
        }
      }
    }
  }

  /** Splitting a join of single lines gives back the lines. */
  lemma {:induction false} SplitJoin(lines: seq<string>)
    requires |lines| >= 1
    requires forall i :: 0 <= i < |lines| ==> SingleLine(lines[i])
    ensures Split(Join(lines)) == lines
    decreases |lines|
  {
    if |lines| == 1 {
      SplitSingle(lines[0]);
    } else {
      SplitJoin(lines[1..]);
      SplitSingle(lines[0]);
      SplitAtBreak(lines[0], Join(lines[1..]));
      assert [lines[0]] + lines[1..] == lines;
    }
  }
}
