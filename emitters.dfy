/** The snippet emitters of CodeGenerator: each splices its inputs into a
    fixed template and hands the result to `clean` (one-line statements) or
    `indent` (blocks). A body the source obtains by calling `data.body()` is
    taken here as the text that call returns. Only the rendered `code` is
    modelled; the `data` record handed back beside it is the caller's own
    input. */
module Emitters {
  import opened Text
  import opened Formatting

  datatype Option<T> = None | Some(value: T)

  /** An optional string field read with JavaScript truthiness: absent and
      empty are both false. */
  predicate Present(field: Option<string>) {
    field.Some? && field.value != ""
  }

  /** `data.objName || "this"` */
  function Receiver(objName: Option<string>): string {
    if Present(objName) then objName.value else "this"
  }

  /** `parts.join(separator)` */
  function JoinArgs(parts: seq<string>, separator: string): string
    decreases |parts|
  {
    if parts == [] then ""
    else if |parts| == 1 then parts[0]
    else parts[0] + separator + JoinArgs(parts[1..], separator)
  }

  /** `join("\n")` on lines is the same `Array.prototype.join` with a line
      break as separator. */
  lemma {:induction false} JoinIsJoinArgs(lines: seq<string>)
    ensures Join(lines) == JoinArgs(lines, [Newline])
    decreases |lines|
  {
    if |lines| > 1 {
      JoinIsJoinArgs(lines[1..]);
    }
  }

  /** `(data.args && data.args.join(separator)) || ""` */
  function ArgList(args: Option<seq<string>>, separator: string): string {
    if args.Some? then JoinArgs(args.value, separator) else ""
  }

  /** Joined arguments hold a line break only if one of them does. */
  lemma {:induction false} JoinArgsSingleLine(parts: seq<string>, separator: string)
    requires SingleLine(separator)
    requires forall i :: 0 <= i < |parts| ==> SingleLine(parts[i])
    ensures SingleLine(JoinArgs(parts, separator))
    decreases |parts|
  {
    if |parts| > 1 {
      JoinArgsSingleLine(parts[1..], separator);
    }
  }

  /** Every argument of an optional list is a single line. */
  predicate SingleLineArgs(args: Option<seq<string>>) {
    args.Some? ==> forall i :: 0 <= i < |args.value| ==> SingleLine(args.value[i])
  }

  /** An argument list of single-line arguments is a single line. */
  lemma {:induction false} ArgListSingleLine(args: Option<seq<string>>, separator: string)
    requires SingleLine(separator)
    ensures SingleLineArgs(args) ==> SingleLine(ArgList(args, separator))
  {
    if args.Some? && SingleLineArgs(args) {
      JoinArgsSingleLine(args.value, separator);
    }
  }

  /** A template line spliced around one-line text stays one line. */
  lemma {:induction false} HeaderSingleLine(before: string, inner: string, after: string)
    ensures SingleLine(before) && SingleLine(inner) && SingleLine(after) ==> SingleLine(before + inner + after)
  {
  }

  /** `receiver.funcName = function(` is one line when the receiver and the
      name are. */
  lemma {:induction false} ReceiverSingleLine(objName: Option<string>, funcName: string)
    ensures SingleLine(Receiver(objName) + funcName) ==> SingleLine(Receiver(objName) + "." + funcName + " = function(")
  {
  }

  // ---------------------------------------------------------------------
  // One-line statements passed through `clean`

  /** `variable`: `var name = value;`, or `var name;` without a value. */
  function Variable(name: string, value: Option<string>): (code: string)
    ensures Terminated(code)
    ensures Terminator !in name && !Present(value) ==> code == "var " + name + ";"
    ensures Terminator !in name && Present(value) && Terminator !in value.value ==>
      code == "var " + name + " = " + value.value + ";"
  {
    var code := "var " + name + (if Present(value) then " = " + value.value + ";" else ";");
    CleanTerminates(code);
    CleanUnlessDoubled(code);
    Clean(code)
  }

  /** A template whose only terminator is its last character is left as it
      is by cleaning. */
  lemma {:induction false} CleanUnlessDoubled(s: string)
    ensures s != [] && Terminator !in s[..|s| - 1] ==> Clean(s) == s
  {
    if s != [] && Terminator !in s[..|s| - 1] {
      assert NoDoubledTerminator(s) by {
        forall i | 0 <= i < |s| - 1 ensures s[i] != Terminator {
          assert s[i] == s[..|s| - 1][i];
        }
      }
      CleanFixedPoint(s);
    }
  }

  /** `reassignVariable`: `name = value;`. */
  function ReassignVariable(name: string, value: string): (code: string)
    ensures Terminated(code)
    ensures Terminator !in name + value ==> code == name + " = " + value + ";"
  {
    var code := name + " = " + value + ";";
    CleanTerminates(code);
    CleanUnlessDoubled(code);
    Clean(code)
  }

  /** `incrementVariable`: `name += value;`, or the unterminated `name++`
      without a value (the form a for-loop header takes). */
  function IncrementVariable(name: string, value: Option<string>): (code: string)
    ensures Present(value) ==> Terminated(code)
    ensures Present(value) && Terminator !in name + value.value ==> code == name + " += " + value.value + ";"
    ensures !Present(value) ==> code == Clean(name) + "++"
  {
    if Present(value) then
      var code := name + " += " + value.value + ";";
      CleanTerminates(code);
      CleanUnlessDoubled(code);
      Clean(code)
    else
      var code := name + "++";
      CleanAppend(name, "++");
      CleanWithoutTerminator("++");
      Clean(code)
  }

  /** `decrementVariable`: `name -= value;`, or the unterminated `name--`. */
  function DecrementVariable(name: string, value: Option<string>): (code: string)
    ensures Present(value) ==> Terminated(code)
    ensures Present(value) && Terminator !in name + value.value ==> code == name + " -= " + value.value + ";"
    ensures !Present(value) ==> code == Clean(name) + "--"
  {
    if Present(value) then
      var code := name + " -= " + value.value + ";";
      CleanTerminates(code);
      CleanUnlessDoubled(code);
      Clean(code)
    else
      var code := name + "--";
      CleanAppend(name, "--");
      CleanWithoutTerminator("--");
      Clean(code)
  }

  /** `objectFunctionCall`: `receiver.funcName(args);`. */
  function ObjectFunctionCall(objName: Option<string>, funcName: string, args: Option<seq<string>>): (code: string)
    ensures Terminated(code)
    ensures Terminator !in Receiver(objName) + funcName + ArgList(args, ", ") ==>
      code == Receiver(objName) + "." + funcName + "(" + ArgList(args, ", ") + ");"
  {
    var code := Receiver(objName) + "." + funcName + "(" + ArgList(args, ", ") + ");";
    CleanTerminates(code);
    CleanUnlessDoubled(code);
    Clean(code)
  }

  /** `objectPropertyAssignment`: `receiver["propName"] = value;` when
      dotNotation is given as false, `receiver.propName = value;` otherwise. */
  function ObjectPropertyAssignment(objName: Option<string>, propName: string, value: string, dotNotation: Option<bool>): (code: string)
    ensures Terminated(code)
    ensures Terminator !in Receiver(objName) + propName + value ==>
      code == if dotNotation == Some(false) then Receiver(objName) + "[\"" + propName + "\"] = " + value + ";"
              else Receiver(objName) + "." + propName + " = " + value + ";"
  {
    var code :=
      if dotNotation == Some(false) then Receiver(objName) + "[\"" + propName + "\"] = " + value + ";"
      else Receiver(objName) + "." + propName + " = " + value + ";";
    CleanTerminates(code);
    CleanUnlessDoubled(code);
    Clean(code)
  }

  // ---------------------------------------------------------------------
  // One-line templates returned without `clean`

  /** `newInstance`: `new type(args);`, not cleaned. */
  function NewInstance(typeName: string, args: seq<string>): (code: string)
    ensures |code| == |typeName| + |JoinArgs(args, ", ")| + 7
    ensures code[..4] == "new " && code[4..4 + |typeName|] == typeName
    ensures code[|code| - 2..] == ");" && code[4 + |typeName| + 1..|code| - 2] == JoinArgs(args, ", ")
  {
    "new " + typeName + "(" + JoinArgs(args, ", ") + ");"
  }

  /** `chainFunction`: `.name(args)`, a call fragment to append to a chain;
      no terminator and not cleaned. */
  function ChainFunction(name: string, args: Option<seq<string>>): (code: string)
    ensures |code| == |name| + |ArgList(args, ", ")| + 3
    ensures code[0] == '.' && code[1..1 + |name|] == name
    ensures code[|code| - 1] == ')' && code[1 + |name| + 1..|code| - 1] == ArgList(args, ", ")
  {
    "." + name + "(" + ArgList(args, ", ") + ")"
  }

  /** `returnStatement`: `return value;`, not cleaned. */
  function ReturnStatement(value: string): (code: string)
    ensures |code| == |value| + 8
    ensures code[..7] == "return " && code[7..|code| - 1] == value && code[|code| - 1] == Terminator
  {
    "return " + value + ";"
  }

  /** `consoleLog`: `console.log(args);`, not cleaned. */
  function ConsoleLog(args: seq<string>): (code: string)
    ensures |code| == |JoinArgs(args, ", ")| + 14
    ensures code[..12] == "console.log(" && code[12..|code| - 2] == JoinArgs(args, ", ")
    ensures code[|code| - 2..] == ");"
  {
    "console.log(" + JoinArgs(args, ", ") + ");"
  }

  // ---------------------------------------------------------------------
  // Blocks passed through `indent`

  /** `firstClassFunction`: `var name = function(args) {`, the body, `};`
      (arguments joined by a bare comma). */
  function FirstClassFunction(name: string, args: Option<seq<string>>, body: string): (code: string)
    ensures SingleLine(name) && SingleLineArgs(args) ==>
      Split(code) == [Clean("var " + name + " = function(" + ArgList(args, ",") + ") {")] + Shifted(Split(body)) + ["};"]
  {
    var header := "var " + name + " = function(" + ArgList(args, ",") + ") {";
    ArgListSingleLine(args, ",");
    HeaderSingleLine("var ", name, " = function(");
    HeaderSingleLine("var " + name + " = function(", ArgList(args, ","), ") {");
    IndentClosedBlock(header, body, "};");
    Indent(header + "\n" + body + "\n" + "};")
  }

  /** `objectFunction`: `receiver.funcName = function(args) {`, the body,
      `};`. */
  function ObjectFunction(objName: Option<string>, funcName: string, args: Option<seq<string>>, body: string): (code: string)
    ensures SingleLine(Receiver(objName) + funcName) && SingleLineArgs(args) ==>
      Split(code) == [Clean(Receiver(objName) + "." + funcName + " = function(" + ArgList(args, ", ") + ") {")] + Shifted(Split(body)) + ["};"]
  {
    var header := Receiver(objName) + "." + funcName + " = function(" + ArgList(args, ", ") + ") {";
    ArgListSingleLine(args, ", ");
    ReceiverSingleLine(objName, funcName);
    HeaderSingleLine(Receiver(objName) + "." + funcName + " = function(", ArgList(args, ", "), ") {");
    IndentClosedBlock(header, body, "};");
    Indent(header + "\n" + body + "\n" + "};")
  }

  /** `doStatement`: `do {`, the body, `} while ( condition)`. */
  function DoStatement(body: string, condition: string): (code: string)
    ensures SingleLine(condition) ==>
      Split(code) == ["do {"] + Shifted(Split(body)) + [Clean("} while ( " + condition + ")")]
  {
    var footer := "} while ( " + condition + ")";
    IndentOpenedBlock("do {", body, footer);
    Indent("do {" + "\n" + body + "\n" + footer)
  }

  /** `whileStatement`: `while (condition) {`, the body, `}`. */
  function WhileStatement(condition: string, body: string): (code: string)
    ensures SingleLine(condition) ==>
      Split(code) == [Clean("while (" + condition + ") {")] + Shifted(Split(body)) + ["}"]
  {
    HeaderSingleLine("while (", condition, ") {");
    IndentClosedBlock("while (" + condition + ") {", body, "}");
    Indent("while (" + condition + ") {" + "\n" + body + "\n" + "}")
  }

  /** `ifStatement`: `if (condition) {`, the body, `}`. */
  function IfStatement(condition: string, body: string): (code: string)
    ensures SingleLine(condition) ==>
      Split(code) == [Clean("if (" + condition + ") {")] + Shifted(Split(body)) + ["}"]
  {
    HeaderSingleLine("if (", condition, ") {");
    IndentClosedBlock("if (" + condition + ") {", body, "}");
    Indent("if (" + condition + ") {" + "\n" + body + "\n" + "}")
  }

  /** `elseIfStatement`: `else if (condition) {`, the body, `}`. */
  function ElseIfStatement(condition: string, body: string): (code: string)
    ensures SingleLine(condition) ==>
      Split(code) == [Clean("else if (" + condition + ") {")] + Shifted(Split(body)) + ["}"]
  {
    HeaderSingleLine("else if (", condition, ") {");
    IndentClosedBlock("else if (" + condition + ") {", body, "}");
    Indent("else if (" + condition + ") {" + "\n" + body + "\n" + "}")
  }

  /** `elseStatement`: `else {`, the body, `}`. */
  function ElseStatement(body: string): (code: string)
    ensures Split(code) == ["else {"] + Shifted(Split(body)) + ["}"]
  {
    IndentFixedBlock("else {", body, "}");
    Indent("else {" + "\n" + body + "\n" + "}")
  }

  /** `forLoop`: `for (start; stop; increment) {`, the body, `}`. */
  function ForLoop(startCondition: string, stopCondition: string, incrementAction: string, body: string): (code: string)
    ensures SingleLine(startCondition + stopCondition + incrementAction) ==>
      Split(code) == [Clean("for (" + startCondition + "; " + stopCondition + "; " + incrementAction + ") {")] + Shifted(Split(body)) + ["}"]
  {
    var header := "for (" + startCondition + "; " + stopCondition + "; " + incrementAction + ") {";
    IndentClosedBlock(header, body, "}");
    Indent(header + "\n" + body + "\n" + "}")
  }

  /** `forEachLoop`: `objectArray.forEach( iterationName => {`, the body,
      `})`. */
  function ForEachLoop(objectArray: string, iterationName: string, body: string): (code: string)
    ensures SingleLine(objectArray + iterationName) ==>
      Split(code) == [Clean(objectArray + ".forEach( " + iterationName + " => {")] + Shifted(Split(body)) + ["})"]
  {
    var header := objectArray + ".forEach( " + iterationName + " => {";
    IndentClosedBlock(header, body, "})");
    Indent(header + "\n" + body + "\n" + "})")
  }

  /** `tryBlock`: `try {`, the body, `}`. */
  function TryBlock(body: string): (code: string)
    ensures Split(code) == ["try {"] + Shifted(Split(body)) + ["}"]
  {
    IndentFixedBlock("try {", body, "}");
    Indent("try {" + "\n" + body + "\n" + "}")
  }

  /** `catchBlock`: `catch(arg) {`, the body rendered for that argument,
      `}`; without an argument, `catch() {`. */
  function CatchBlock(arg: Option<string>, body: string): (code: string)
    ensures (Present(arg) ==> SingleLine(arg.value)) ==>
      Split(code) == [Clean("catch(" + (if Present(arg) then arg.value else "") + ") {")] + Shifted(Split(body)) + ["}"]
  {
    var a := if Present(arg) then arg.value else "";
    var header := "catch(" + a + ") {";
    HeaderSingleLine("catch(", a, ") {");
    IndentClosedBlock(header, body, "}");
    Indent(header + "\n" + body + "\n" + "}")
  }

  /** `comment`: a block comment `/*`, the text, `*/` when block is given as
      true, otherwise the line comment `// text` (not cleaned). */
  function Comment(text: string, block: Option<bool>): (code: string)
    ensures block == Some(true) ==> Split(code) == ["/*"] + Shifted(Split(text)) + ["*/"]
    ensures block != Some(true) ==> |code| == |text| + 3 && code[..3] == "// " && code[3..] == text
  {
    if block == Some(true) then
      IndentFixedBlock("/*", text, "*/");
      Indent("/*" + "\n" + text + "\n" + "*/")
    else
      "// " + text
  }

  // ---------------------------------------------------------------------
  // Properties of the emitters as a whole

  /** The emitters that skip `clean` let a doubled terminator through, unlike
      the cleaned statements. */
  lemma UncleanedEmittersKeepDoubledTerminators()
    ensures !NoDoubledTerminator(ReturnStatement("x;"))
    ensures !NoDoubledTerminator(ConsoleLog(["x;;"]))
    ensures !NoDoubledTerminator(Comment("x;;", None))
    ensures !NoDoubledTerminator(NewInstance("T;;", []))
    ensures !NoDoubledTerminator(ChainFunction("f;;", None))
    ensures NoDoubledTerminator(ReassignVariable("y", "x;"))
  {
    assert ReturnStatement("x;")[8] == Terminator && ReturnStatement("x;")[9] == Terminator;
    assert ConsoleLog(["x;;"])[13] == Terminator && ConsoleLog(["x;;"])[14] == Terminator;
    assert Comment("x;;", None)[4] == Terminator && Comment("x;;", None)[5] == Terminator;
    assert NewInstance("T;;", [])[5] == Terminator && NewInstance("T;;", [])[6] == Terminator;
    assert ChainFunction("f;;", None)[2] == Terminator && ChainFunction("f;;", None)[3] == Terminator;
  }

  /** The loop body `doWork(i);;` loses its doubled terminator. */
  lemma CleanDoWork()
    ensures Clean("doWork(i);;") == "doWork(i);"
  {
    CleanAppend("doWork(i)", ";;");
    CleanWithoutTerminator("doWork(i)");
    assert Clean(";;") == ";" by {
      assert LeadingTerminators(";;") == 2 by {
        assert ";;"[1..] == ";";
        assert ";"[1..] == "";
      }
      assert ";;"[2..] == [];
    }
    assert "doWork(i)" + ";;" == "doWork(i);;";
  }

  /** A loop around a one-line body statement is three lines: the cleaned
      header, the cleaned statement one unit in, and the closing brace. */
  lemma {:induction false} ForLoopOneStatement(start: string, stop: string, incr: string, stmt: string)
    requires SingleLine(start + stop + incr) && SingleLine(stmt)
    ensures Split(ForLoop(start, stop, incr, stmt)) ==
      [Clean("for (" + start + "; " + stop + "; " + incr + ") {"), Tabs(NumTabs) + Clean(stmt), "}"]
  {
    SplitSingle(stmt);
    var interior := Shifted([stmt]);
    assert |interior| == 1 && interior[0] == Tabs(NumTabs) + Clean(stmt);
  }

  /** A loop header whose clauses carry no terminator of their own is left
      as it is by cleaning: the two separators it adds are single. */
  lemma {:induction false} ForHeaderClean(start: string, stop: string, incr: string)
    requires Terminator !in start + stop + incr
    ensures Clean("for (" + start + "; " + stop + "; " + incr + ") {") == "for (" + start + "; " + stop + "; " + incr + ") {"
  {
    var a, b, c := "for (" + start + ";", " " + stop + ";", " " + incr + ") {";
    assert a + (b + c) == "for (" + start + "; " + stop + "; " + incr + ") {";
    assert a[..|a| - 1] == "for (" + start;
    assert b[..|b| - 1] == " " + stop;
    assert Terminator !in start && Terminator !in stop && Terminator !in incr;
    CleanUnlessDoubled(a);
    CleanUnlessDoubled(b);
    CleanWithoutTerminator(c);
    assert b[0] == ' ' && c[0] == ' ';
    CleanAppend(b, c);
    CleanAppend(a, b + c);
  }

  /** The clauses `var i = 0`, `i < 10` and `i++`: single lines, no
      terminators, and the header they make. */
  lemma {:induction false} ForExampleClauses(start: string, stop: string, incr: string)
    requires start == "var i = 0" && stop == "i < 10" && incr == "i++"
    ensures SingleLine(start + stop + incr) && Terminator !in start + stop + incr
    ensures "for (" + start + "; " + stop + "; " + incr + ") {" == "for (var i = 0; i < 10; i++) {"
  {
  }

  /** The body line `doWork(i);;`, cleaned and moved in. */
  lemma {:induction false} ForBodyExample(body: string)
    requires body == "doWork(i);;"
    ensures Tabs(NumTabs) + Clean(body) == "    doWork(i);"
  {
    CleanDoWork();
    UnitIsFourSpaces();
  }

  /** A for loop with clauses `var i = 0`, `i < 10`, `i++` around
      `doWork(i);;`: header clauses verbatim, the body's doubled terminator
      collapsed, the body one unit in, the closing brace with no
      indentation. */
  lemma {:induction false} ForLoopExample(start: string, stop: string, incr: string, body: string)
    requires start == "var i = 0" && stop == "i < 10" && incr == "i++" && body == "doWork(i);;"
    ensures Split(ForLoop(start, stop, incr, body)) ==
      ["for (var i = 0; i < 10; i++) {", "    doWork(i);", "}"]
  {
    ForExampleClauses(start, stop, incr);
    ForLoopOneStatement(start, stop, incr, body);
    ForHeaderClean(start, stop, incr);
    ForBodyExample(body);
  }
}
