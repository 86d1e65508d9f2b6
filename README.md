# CodeGenerator: verified model of the formatting engine, the iterator-name allocator and the snippet emitters

`CodeGenerator.js` is a static JavaScript class that builds fragments of
curly-brace source code as strings. The Dafny project models its three parts:

- **Formatting engine** (`formatting.dfy`, with `text.dfy` for JavaScript's
  `split("\n")` and `join("\n")`). `clean` collapses every run of two or more
  `;` into one. `generateTabs(n)` builds `numSpacesPerTab * n` spaces in a
  counted loop. `indent` splits a block into lines and cleans each one. It
  puts one unit (`generateTabs(numTabs)`, four spaces) in front of every line
  strictly between the first and the last, then joins the lines again.
- **Iterator-name allocator** (`iterators.dfy`). The static cursor
  `iteratorPos` starts at 8, and `resetIteratorPos` sets it back to 8. Each
  call to `uniqueIteratorName` returns the letter at `iteratorPos % 26`,
  repeated `iteratorPos / 26 + 1` times, then advances the cursor by one. The
  cursor is the field of a class, `IteratorAllocator`. A ghost history of the
  names issued since the last reset carries the collision-freedom
  invariant.
- **Snippet emitters** (`emitters.dfy`). There are 22 template functions,
  from `variable` to `comment`. Each splices its inputs into a fixed template
  and passes the result to `clean` (statements) or `indent` (blocks). A few
  return it untouched. A body that the code obtains by calling
  `data.body()` is an already-rendered string here.
- **Composition** (`nesting.dfy`). A tree of statements and blocks,
  rendered the way the emitters nest, comes out with every line at exactly
  four spaces per enclosing block. This holds because each `indent` moves
  only its own interior lines, by one unit.

Behaviour as coded, where a reader might expect otherwise:

- The comment above `indent` (CodeGenerator.js:380) speaks of "lines 2
  through (n - 2)". The code indents every line at indices 1 to n - 2, which
  means every line except the first and the last. The model follows the code.
- The repeat count at CodeGenerator.js:440-443 divides as JavaScript numbers
  do, so it can be fractional. The loop at :448 then runs `pos / 26 + 1`
  times (integer division) in every case. Position 26 therefore gives `"aa"`:
  after a reset, only eighteen single-letter names (`"i"` to `"z"`) come
  before `"aa"`, `"bb"`, and so on.
- `newInstance`, `returnStatement`, `consoleLog`, `chainFunction` and the
  line form of `comment` do not call `clean`. A doubled `;` can therefore
  survive in their output. `Emitters.UncleanedEmittersKeepDoubledTerminators`
  exhibits it for each of the five.
- The doc comments of `doStatement`, `whileStatement`, `ifStatement`,
  `elseIfStatement` and `elseStatement` (CodeGenerator.js:139, 154, 169, 184,
  198) declare `body` as a function. Their code splices `data.body` into the
  template without calling it (:144, :159, :173, :189, :202), so a function
  passed there would appear as its own source text. The model takes these
  bodies as strings, as the code uses them. `firstClassFunction`,
  `objectFunction`, `forLoop`, `tryBlock` and `catchBlock` do call the body
  (:84, :127, :221, :258, :275); `forEachLoop` documents and splices a
  string (:235, :242).

## Model

| member | source | states |
|---|---|---|
| `Text.SplitCount` | CodeGenerator.js:387 | `split("\n")` yields one more line than the text has line breaks, and at least one line |
| `Text.SplitLinesAreSingle` | CodeGenerator.js:387 | no piece of a split contains a line break |
| `Text.SplitAtBreak` | CodeGenerator.js:387 | the lines of `a + "\n" + b` are the lines of `a` followed by the lines of `b` |
| `Text.JoinSplit` | CodeGenerator.js:386-398 | `join("\n")` after `split("\n")` gives the text back |
| `Text.SplitJoin` | CodeGenerator.js:386-398 | `split("\n")` after `join("\n")` of single lines gives the lines back |
| `Text.SplitSingle` | CodeGenerator.js:387 | a text without line breaks splits into itself alone |
| `Formatting.CleanIsDropDoubled` | CodeGenerator.js:420-422 | the left-to-right replacement of `/;{2,}/g` by `;` equals the reference "drop a `;` exactly when the next character is `;`" |
| `Formatting.CleanNoDoubled` | CodeGenerator.js:420-422 | a cleaned line never contains two consecutive `;` |
| `Formatting.CleanFixedPoint` | CodeGenerator.js:420-422 | cleaning leaves a line unchanged if and only if it has no `;;` |
| `Formatting.CleanIdempotent` | CodeGenerator.js:420-422 | cleaning twice equals cleaning once |
| `Formatting.CleanDeletesOnlyTerminators` | CodeGenerator.js:420-422 | cleaning only deletes `;`: every other character survives, in order, and the line never grows |
| `Formatting.CleanSameCharacters` | CodeGenerator.js:420-422 | a cleaned line contains exactly the characters of the original, so it adds no line break |
| `Formatting.CleanAppend` | CodeGenerator.js:420-422 | cleaning works piecewise when no run of `;` spans the seam |
| `Formatting.CleanKeepsLast` | CodeGenerator.js:420-422 | the last character of a line survives cleaning, so a statement stays terminated |
| `Formatting.CollapseExample` | CodeGenerator.js:421 | `"a;;;;b"` cleans to `"a;b"` |
| `Formatting.GenerateTabs` | CodeGenerator.js:406-413 | the loop returns exactly `numSpacesPerTab * numTabs` spaces, or the empty string for zero or fewer tabs |
| `Formatting.UnitIsFourSpaces` | CodeGenerator.js:465-466 | one indentation unit under the default constants is four spaces |
| `Formatting.TabsAdd` | CodeGenerator.js:406-413 | one unit in front of d levels of indentation is d + 1 levels |
| `Formatting.IndentedLines` | CodeGenerator.js:385-398 | the lines of `indent(code)` are the lines of `code`, each cleaned, the interior ones prefixed by one unit |
| `Formatting.IndentLineCount` | CodeGenerator.js:385-398 | `indent` preserves the number of lines |
| `Formatting.IndentBoundaryLines` | CodeGenerator.js:389-390 | the first and last output lines are the cleaned first and last input lines, with nothing added |
| `Formatting.IndentInteriorLines` | CodeGenerator.js:391-395 | every output line at index 1 to n - 2 is four spaces followed by the cleaned input line |
| `Formatting.IndentSingleLine` | CodeGenerator.js:385-398 | a one-line input comes back only cleaned |
| `Formatting.IndentNoDoubled` | CodeGenerator.js:385-398 | no line of an indented block contains `;;` |
| `Formatting.IndentBlock` | CodeGenerator.js:172-178 | for a one-line header and footer around a body, `indent` gives the cleaned header, the body's lines cleaned and one unit in, and the cleaned footer |
| `Formatting.ShiftOfIndented` | CodeGenerator.js:391-395 | re-indenting a line that already sits d units in adds exactly one unit and changes nothing else |
| `Formatting.ShiftedTwice` | CodeGenerator.js:391-395 | a body indented twice sits two units in, each line cleaned once |
| `Iterators.NumCharsLoopCount` | CodeGenerator.js:439-450 | the loop `i < numChars`, with the fractional JavaScript `numChars`, runs exactly `pos / 26 + 1` times on every cursor value |
| `Iterators.AlphabetDistinct` | CodeGenerator.js:468-495 | the 26 letters of the table are pairwise distinct |
| `Iterators.IteratorNameInjective` | CodeGenerator.js:433-455 | different cursor positions yield different names |
| `Iterators.FreshName` | CodeGenerator.js:433-455 | the name for the next position differs from every name issued since the last reset |
| `Iterators.NamesFromReset` | CodeGenerator.js:460-467 | from the reset position the names are `"i"`, `"j"`, …, `"z"`, then `"aa"`, `"bb"` |
| `Iterators.IteratorAllocator.constructor` | CodeGenerator.js:467 | the cursor starts at 8 with an empty history |
| `Iterators.IteratorAllocator.UniqueIteratorName` | CodeGenerator.js:433-455 | returns the position's letter repeated `pos / 26 + 1` times, advances the cursor by exactly one, and returns a name not issued since the last reset |
| `Iterators.IteratorAllocator.ResetIteratorPos` | CodeGenerator.js:460-462 | puts the cursor back to 8 and starts a new history |
| `Iterators.ResetThenTwoNames` | CodeGenerator.js:460-462 | the first two calls after a reset return `"i"` and then `"j"` |
| `Emitters.Variable` | CodeGenerator.js:10-17 | ends in exactly one `;` with no `;;`; for inputs without `;` it is `var name = value;`, or `var name;` when the value is missing or empty |
| `Emitters.ReassignVariable` | CodeGenerator.js:25-32 | ends in exactly one `;` with no `;;`; for inputs without `;` it is `name = value;` |
| `Emitters.IncrementVariable` | CodeGenerator.js:40-49 | `name += value;`, terminated and free of `;;`, when a value is given; otherwise the unterminated `name++` with the name cleaned |
| `Emitters.DecrementVariable` | CodeGenerator.js:57-66 | `name -= value;`, terminated and free of `;;`, when a value is given; otherwise the unterminated `name--` with the name cleaned |
| `Emitters.FirstClassFunction` | CodeGenerator.js:79-92 | lines: the cleaned `var name = function(a,b) {`, the body one unit in, then `};` |
| `Emitters.NewInstance` | CodeGenerator.js:104-111 | `new `, the type, `(`, the arguments joined by `", "`, `);`, recoverable by position, and not cleaned |
| `Emitters.ObjectFunction` | CodeGenerator.js:121-135 | lines: the cleaned `receiver.funcName = function(a, b) {` (receiver `this` when missing), the body one unit in, then `};` |
| `Emitters.DoStatement` | CodeGenerator.js:142-150 | lines: `do {`, the body one unit in, then the cleaned `} while ( condition)` |
| `Emitters.WhileStatement` | CodeGenerator.js:157-165 | lines: the cleaned `while (condition) {`, the body one unit in, then `}` |
| `Emitters.IfStatement` | CodeGenerator.js:172-179 | lines: the cleaned `if (condition) {`, the body one unit in, then `}` |
| `Emitters.ElseIfStatement` | CodeGenerator.js:187-194 | lines: the cleaned `else if (condition) {`, the body one unit in, then `}` |
| `Emitters.ElseStatement` | CodeGenerator.js:201-207 | lines: `else {`, the body one unit in, then `}` |
| `Emitters.ForLoop` | CodeGenerator.js:217-229 | lines: the cleaned `for (start; stop; increment) {`, the body one unit in, then `}` |
| `Emitters.ForEachLoop` | CodeGenerator.js:238-250 | lines: the cleaned `array.forEach( name => {`, the body one unit in, then `})` |
| `Emitters.TryBlock` | CodeGenerator.js:257-263 | lines: `try {`, the body one unit in, then `}` |
| `Emitters.CatchBlock` | CodeGenerator.js:271-280 | lines: the cleaned `catch(arg) {` (`catch() {` without an argument), the body one unit in, then `}` |
| `Emitters.ObjectFunctionCall` | CodeGenerator.js:289-297 | ends in exactly one `;` with no `;;`; for inputs without `;` it is `receiver.funcName(args);` |
| `Emitters.ChainFunction` | CodeGenerator.js:305-307 | `.`, the name, `(`, the arguments, `)`, recoverable by position, with no terminator |
| `Emitters.ObjectPropertyAssignment` | CodeGenerator.js:317-331 | ends in exactly one `;` with no `;;`; for inputs without `;` it is the bracket form when dot notation is given as false, the dot form otherwise |
| `Emitters.ReturnStatement` | CodeGenerator.js:338-344 | `return `, the value verbatim, `;`, not cleaned |
| `Emitters.ConsoleLog` | CodeGenerator.js:349-354 | `console.log(`, the arguments joined by `", "`, `);`, not cleaned |
| `Emitters.Comment` | CodeGenerator.js:362-374 | a block comment is the lines `/*`, the text one unit in and cleaned, `*/`; otherwise `// ` followed by the text verbatim |
| `Emitters.UncleanedEmittersKeepDoubledTerminators` | CodeGenerator.js:100-374 | `newInstance`, `chainFunction`, `returnStatement`, `consoleLog` and the line `comment` each let a doubled `;` through, while a cleaned statement does not |
| `Emitters.JoinIsJoinArgs` | CodeGenerator.js:396-398 | the `join("\n")` of `indent` is the same array join the emitters use for argument lists, with a line break as separator |
| `Emitters.ForHeaderClean` | CodeGenerator.js:217-223 | a loop header whose clauses hold no `;` survives cleaning unchanged |
| `Emitters.ForLoopOneStatement` | CodeGenerator.js:217-229 | a loop around one statement is three lines: the header, the cleaned statement one unit in, and `}` |
| `Emitters.CleanDoWork` | CodeGenerator.js:420-422 | `"doWork(i);;"` cleans to `"doWork(i);"` |
| `Emitters.ForLoopExample` | CodeGenerator.js:217-229 | `for (var i = 0; i < 10; i++) {`, then `    doWork(i);` with a single `;`, then `}` |
| `Nesting.ShiftedLayout` | CodeGenerator.js:391-395 | shifting the layout of any fragment at depth d by one unit gives its layout at depth d + 1 |
| `Nesting.RenderedLayout` | CodeGenerator.js:385-398 | for any tree of blocks and statements, each line of the rendered text is cleaned and sits four spaces in per enclosing block |
| `Nesting.RenderedLayoutAll` | CodeGenerator.js:385-398 | the rendered fragments of a body, joined, are laid out one after the other at depth zero |
| `Nesting.IfInsideFor` | CodeGenerator.js:172-229 | an `if` inside a `for`: the loop's lines at depth 0, the `if` header and brace at depth 1, the statement at depth 2 |

## Left out

- Body callables: `data.body()` and `data.body(data.arg)` are JavaScript closures. Each is modelled as the string it returns, so any laziness of the body is not captured.
- The `data` records the emitters hand back, and their varying return shapes (for example `catchBlock` returns a bare string, and `elseIfStatement` returns no `data`): only the rendered `code` is modelled.
- The write of `data.name` in `objectPropertyAssignment` (CodeGenerator.js:321, 324) is left out. It uses the raw `objName`, which renders as `undefined` when missing.
- JavaScript's `undefined` rendering: `newInstance` and `consoleLog` take their argument lists as required sequences. `returnStatement` takes its value as a required string.
- Truthiness is modelled for optional string fields only: absent and empty both count as missing. `dotNotation == false` and `block == true` are modelled for boolean fields given or absent. Loose equality with non-boolean values is not modelled.
- Array elements of argument lists are strings. JavaScript's conversion of other element types by `join` is not modelled.
- `numSpacesPerTab` and `numTabs` are constants (4 and 1). Reassigning these static fields is not modelled.
- The alphabet table holds characters, not one-character strings. Appending a character is the same as concatenating that one-character string.
- The process-wide sharing of the cursor is not modelled: it is one object's field, not a static of the class. Unsynchronised concurrent use is also left out.
- The `module.exports` wiring is left out.
- JavaScript numbers: the cursor `iteratorPos` is an unbounded `nat` and `/` in the repeat count is exact division of reals, where the source uses IEEE doubles (CodeGenerator.js:440-443, 452). Double rounding at astronomically large positions is not modelled. Neither is the `RangeError` that the string `+=` at :449 raises once a name would exceed the engine's maximum string length, so the model treats `uniqueIteratorName` as total.
- Emitters.FirstClassFunction: the line layout is stated only when the name and arguments are single lines. Otherwise the header spreads over several lines, and `indent` treats some of them as interior.
- Emitters.ObjectFunction: the line layout is stated only when the receiver, function name and arguments are single lines.
- Emitters.DoStatement: the line layout is stated only for a single-line condition.
- Emitters.WhileStatement: the line layout is stated only for a single-line condition.
- Emitters.IfStatement: the line layout is stated only for a single-line condition.
- Emitters.ElseIfStatement: the line layout is stated only for a single-line condition.
- Emitters.ForLoop: the line layout is stated only for single-line clauses.
- Emitters.ForEachLoop: the line layout is stated only for a single-line array expression and iteration name.
- Emitters.CatchBlock: the line layout is stated only for a single-line argument.
- Emitters.Variable: the exact text is stated only for inputs without `;`. Otherwise the result is stated to be terminated and free of `;;`.
- Emitters.ReassignVariable: the exact text is stated only for inputs without `;`.
- Emitters.IncrementVariable: the exact text with a value is stated only for inputs without `;`.
- Emitters.DecrementVariable: the exact text with a value is stated only for inputs without `;`.
- Emitters.ObjectFunctionCall: the exact text is stated only for inputs without `;`.
- Emitters.ObjectPropertyAssignment: the exact text is stated only for inputs without `;`.
