// The device's whole output: what it prints before the table's header, blank lines included.

module Device {
  import opened Base
  import opened Text
  import opened Flows
  import opened Nse

  /** A blank line or one no prompt can begin. */
  predicate AllCalm(lines: seq<string>) {
    lines == [] || ((lines[0] == "" || Safe(lines[0])) && AllCalm(lines[1..]))
  }

  lemma BlankLine(rest: string)
    ensures RemovePrompts("\n" + rest, true) == "\n" + RemovePrompts(rest, true)
  {
    assert ("\n" + rest)[1..] == rest;
    assert Run("\n" + rest, NameChar) == 0;
  }

  lemma CalmLine(line: string, rest: string)
    requires line == "" || Safe(line)
    ensures RemovePrompts(line + "\n" + rest, true) == line + "\n" + RemovePrompts(rest, true)
  {
    if line == "" {
      BlankLine(rest);
      assert "" + "\n" + rest == "\n" + rest && "" + "\n" + RemovePrompts(rest, true) == "\n" + RemovePrompts(rest, true);
    } else {
      SafeLine(line, rest);
    }
  }

  lemma {:induction false} CalmLines(lines: seq<string>, rest: string)
    requires AllCalm(lines)
    ensures RemovePrompts(Ended(lines) + rest, true) == Ended(lines) + RemovePrompts(rest, true)
  {
    if lines == [] {
      assert Ended(lines) + rest == rest;
    } else {
      CalmLines(lines[1..], rest);
      CalmStep(lines[0], Ended(lines[1..]), rest, RemovePrompts(rest, true));
    }
  }

  lemma CalmStep(line: string, ended: string, rest: string, kept: string)
    requires (line == "" || Safe(line)) && RemovePrompts(ended + rest, true) == ended + kept
    ensures RemovePrompts((line + "\n" + ended) + rest, true) == (line + "\n" + ended) + kept
  {
    Regroup(line + "\n", ended, rest);
    Regroup(line + "\n", ended, kept);
    CalmLine(line, ended + rest);
  }

  lemma Regroup(x: string, y: string, z: string)
    ensures (x + y) + z == x + (y + z)
  {
  }

  // ----- Rows of a text that may begin with blank lines --------------------------------

  lemma {:induction false} RowsConcat(a: seq<string>, b: seq<string>)
    ensures LineRows(a + b) == LineRows(a) + LineRows(b)
    decreases |b|
  {
    if b == [] {
      assert a + b == a;
    } else {
      var n := |b| - 1;
      assert (a + b)[..|a + b| - 1] == a + b[..n];
      RowsConcat(a, b[..n]);
    }
  }

  lemma BlankRow()
    ensures LineRow("") == [] && LineRows([""]) == []
  {
    assert [""][..0] == [];
  }

  lemma {:induction false} JoinEnds(lines: seq<string>)
    requires lines != [] && lines[|lines| - 1] != "" && '\n' !in lines[|lines| - 1]
    ensures Ended(lines) == Join(lines, "\n") + "\n"
    ensures Join(lines, "\n") != "" && Join(lines, "\n")[|Join(lines, "\n")| - 1] != '\n'
  {
    if |lines| == 1 {
      assert lines[1..] == [];
      assert lines[0][|lines[0]| - 1] in lines[0];
    } else {
      JoinEnds(lines[1..]);
    }
  }

  lemma {:induction false} CalmOneLine(lines: seq<string>, i: nat)
    requires AllCalm(lines) && i < |lines|
    ensures '\n' !in lines[i] && '\r' !in lines[i]
  {
    if i > 0 { CalmOneLine(lines[1..], i - 1); }
  }

  lemma FirstOfJoin(lines: seq<string>)
    requires lines != [] && lines[0] != ""
    ensures Join(lines, "\n") != "" && Join(lines, "\n")[0] == lines[0][0]
  {
  }

  /** However many blank lines come first, a calm text is read line by line. */
  lemma {:induction false} CalmRows(lines: seq<string>)
    requires AllCalm(lines) && lines != [] && lines[|lines| - 1] != ""
    ensures LineRows(Split(TrimNewlines(Ended(lines)), '\n')) == LineRows(lines)
  {
    if lines[0] == "" {
      var rest := lines[1..];
      assert rest != [] && rest[|rest| - 1] == lines[|lines| - 1];
      CalmRows(rest);
      BlankFirst(rest);
      assert lines == [""] + rest;
    } else {
      SolidRows(lines);
    }
  }

  lemma BlankFirst(rest: seq<string>)
    ensures TrimNewlines(Ended([""] + rest)) == TrimNewlines(Ended(rest))
    ensures LineRows([""] + rest) == LineRows(rest)
  {
    EndedFirst("", rest);
    DropNewline(Ended(rest));
    BlankRow();
    RowsConcat([""], rest);
  }

  lemma EndedFirst(line: string, rest: seq<string>)
    ensures Ended([line] + rest) == line + "\n" + Ended(rest)
  {
    assert ([line] + rest)[1..] == rest;
  }

  lemma DropNewline(text: string)
    ensures TrimNewlines("" + "\n" + text) == TrimNewlines(text)
  {
    assert "" + "\n" + text == "\n" + text && ("\n" + text)[1..] == text;
  }

  lemma SolidRows(lines: seq<string>)
    requires AllCalm(lines) && lines != [] && lines[0] != "" && lines[|lines| - 1] != ""
    ensures Split(TrimNewlines(Ended(lines)), '\n') == lines
  {
    CalmOneLine(lines, 0);
    CalmOneLine(lines, |lines| - 1);
    JoinEnds(lines);
    FirstOfJoin(lines);
    assert lines[0][0] in lines[0];
    TrimEnd(Join(lines, "\n"));
    forall p | p in lines ensures '\n' !in p {
      var i :| 0 <= i < |lines| && lines[i] == p;
      CalmOneLine(lines, i);
    }
    SplitJoin(lines, '\n');
  }

  // ----- The banner --------------------------------------------------------------------

  const INDENT: string := "    "

  const TITLE: string := "Connection" + " Track Entries:"

  function Rule(n: nat): string {
    seq(n, _ => '=')
  }

  function Titled(title: string, rule: string): seq<string> {
    [title] + ["", rule, ""] + ["", rule, ""]
  }

  /** The device's table: an indented line, a title, two rules, blank lines between them, then header and rows. */
  function Table(n: nat, rows: seq<Flow>, tail: string): seq<string> {
    [INDENT] + (Titled(TITLE, Rule(n)) + Lines(HEADER, rows, tail))
  }

  lemma RuleQuiet(n: nat)
    requires n > 0
    ensures Safe(Rule(n)) && LineRow(Rule(n)) == []
  {
    var r := Rule(n);
    assert r[0] == '=' && forall c :: c in r ==> c == '=';
    TrimSpaceTrims(r);
  }

  lemma TitleLine(rest: string)
    requires OneLine(rest) && rest != "" && rest[0] == ' '
    ensures Safe("Connection" + rest) && LineRow("Connection" + rest) == []
  {
    var h := "Connection" + rest;
    assert h[..10] == "Connection" && h[9] == 'n' && h[10] == ' ';
    TrimRightKeeps(h, 9);
    TrimRightPrefix(h);
    assert TrimSpace(h)[..10] == h[..10];
    assert HasPrefix(TrimSpace(h), "Connection");
    RunStops("Connection", rest, NameChar);
  }

  lemma TitleQuiet()
    ensures Safe(TITLE) && LineRow(TITLE) == [] && TITLE[0] == 'C'
  {
    TitleLine(" Track Entries:");
  }

  lemma IndentQuiet()
    ensures Safe(INDENT) && LineRow(INDENT) == [] && AllSpace(INDENT) && INDENT[0] == ' '
  {
    var s := INDENT;
    TrimLeftPad(s, "");
    assert s + "" == s;
  }

  lemma {:induction false} CalmConcat(a: seq<string>, b: seq<string>)
    requires AllCalm(a) && AllCalm(b)
    ensures AllCalm(a + b)
  {
    if a == [] {
      assert a + b == b;
    } else {
      CalmConcat(a[1..], b);
      assert (a + b)[1..] == a[1..] + b;
    }
  }

  lemma {:induction false} SafeCalm(lines: seq<string>)
    requires AllSafe(lines)
    ensures AllCalm(lines)
  {
    if lines != [] { SafeCalm(lines[1..]); }
  }

  /** Lines that hold no row and start no prompt. */
  ghost predicate Quiet(lines: seq<string>) {
    AllCalm(lines) && LineRows(lines) == []
  }

  lemma QuietConcat(a: seq<string>, b: seq<string>)
    requires Quiet(a) && Quiet(b)
    ensures Quiet(a + b)
  {
    CalmConcat(a, b);
    RowsConcat(a, b);
  }

  lemma QuietLine(line: string)
    requires (line == "" || Safe(line)) && LineRow(line) == []
    ensures Quiet([line])
  {
    assert [line][1..] == [] && [line][..0] == [];
  }

  lemma QuietRule(rule: string)
    requires Safe(rule) && LineRow(rule) == []
    ensures Quiet(["", rule, ""])
  {
    BlankRow();
    QuietLine("");
    QuietLine(rule);
    QuietConcat([""], [rule]);
    QuietConcat([""] + [rule], [""]);
    assert [""] + [rule] + [""] == ["", rule, ""];
  }

  lemma TitledQuiet(title: string, rule: string)
    requires Safe(title) && LineRow(title) == [] && Safe(rule) && LineRow(rule) == []
    ensures Quiet(Titled(title, rule))
  {
    QuietRule(rule);
    QuietLine(title);
    QuietConcat([title], ["", rule, ""]);
    QuietConcat([title] + ["", rule, ""], ["", rule, ""]);
  }

  /** Quiet lines in front of a table change nothing of what is read. */
  lemma QuietBefore(quiet: seq<string>, lines: seq<string>, rows: seq<Flow>)
    requires Quiet(quiet) && AllCalm(lines) && LineRows(lines) == rows && lines != [] && lines[|lines| - 1] != ""
    ensures var all := quiet + lines; AllCalm(all) && LineRows(all) == rows && all[|all| - 1] != ""
  {
    CalmConcat(quiet, lines);
    RowsConcat(quiet, lines);
  }

  lemma HeadedCalm(header: string, rows: seq<Flow>, tail: string)
    requires Safe(header) && LineRow(header) == [] && Blanks(tail) && forall i :: 0 <= i < |rows| ==> WellFormed(rows[i])
    ensures var lines := Lines(header, rows, tail);
      AllCalm(lines) && LineRows(lines) == rows && lines != [] && lines[|lines| - 1] != ""
  {
    var lines := Lines(header, rows, tail);
    LinesSafe(header, rows, tail);
    LinesParse(header, rows, tail);
    SafeCalm(lines);
    AllSafeAt(lines, |lines| - 1);
  }

  lemma TableCalm(indent: string, title: string, rule: string, header: string, rows: seq<Flow>, tail: string)
    requires Safe(indent) && LineRow(indent) == [] && Safe(title) && LineRow(title) == [] && Safe(rule) && LineRow(rule) == []
    requires Safe(header) && LineRow(header) == [] && Blanks(tail) && forall i :: 0 <= i < |rows| ==> WellFormed(rows[i])
    ensures var all := [indent] + (Titled(title, rule) + Lines(header, rows, tail));
      AllCalm(all) && LineRows(all) == rows && all[|all| - 1] != ""
  {
    HeadedCalm(header, rows, tail);
    TitledQuiet(title, rule);
    QuietBefore(Titled(title, rule), Lines(header, rows, tail), rows);
    QuietLine(indent);
    QuietBefore([indent], Titled(title, rule) + Lines(header, rows, tail), rows);
  }

  // ----- The whole session -------------------------------------------------------------

  /** A text that begins with white space and then not with the command keeps all of it; an echo in front is dropped. */
  lemma PaddedEcho(command: string, echo: Option<string>, pad: string, core: string)
    requires AllSpace(pad) && (pad == "" || pad[0] != '\n') && core != "" && !IsSpace(core[0])
    requires command != "" && command[0] != core[0] && !IsSpace(command[0]) && !IsSpace(command[|command| - 1])
    requires echo.Some? ==> command <= echo.value && '\n' !in echo.value
    ensures DropEcho(Capture(echo, pad + core, ""), command) == pad + core
  {
    var body := pad + core;
    var t := Capture(echo, body, "");
    if echo.Some? {
      EchoBefore(command, echo.value, body);
      assert t == echo.value + "\n" + body;
    } else {
      assert t == body;
      TrimLeftPad(pad, core);
      TrimRightPrefix(core);
      assert TrimSpace(t) != [] ==> TrimSpace(t)[0] == core[0];
    }
  }

  lemma EchoBefore(command: string, echo: string, body: string)
    requires command <= echo && '\n' !in echo
    requires command != "" && !IsSpace(command[0]) && !IsSpace(command[|command| - 1])
    ensures DropEcho(echo + "\n" + body, command) == body
  {
    var t, k := echo + "\n" + body, |command| - 1;
    assert t[0] == echo[0] == command[0] && t[k] == echo[k] == command[k];
    TrimRightKeeps(t, k);
    TrimRightPrefix(t);
    assert command == echo[..|command|] == t[..|command|];
    assert command == TrimSpace(t)[..|command|];
    AfterFirstLine(echo, body);
  }

  /** An indented line first: the text begins with white space and then the title. */
  lemma TablePadded(indent: string, rest: seq<string>) returns (core: string)
    requires rest != [] && rest[0] != "" && AllSpace(indent)
    ensures Ended([indent] + rest) == (indent + "\n") + core && core != "" && core[0] == rest[0][0]
    ensures AllSpace(indent + "\n")
  {
    EndedFirst(indent, rest);
    core := Ended(rest);
    assert core == rest[0] + "\n" + Ended(rest[1..]);
  }

  lemma OutputEcho(command: string, pad: string, core: string, echo: Option<string>, prompt: string, raw: string)
    requires AllSpace(pad) && pad != "" && pad[0] != '\n' && core != "" && !IsSpace(core[0])
    requires command != "" && command[0] != core[0] && !IsSpace(command[0]) && !IsSpace(command[|command| - 1])
    requires echo.Some? ==> command <= echo.value && '\n' !in echo.value
    requires Without(raw, '\r') == Capture(echo, pad + core, prompt)
    ensures DropEcho(Without(raw, '\r'), command) == pad + core + prompt
  {
    var whole := core + prompt;
    assert whole[0] == core[0];
    Regroup(pad, core, prompt);
    CaptureWhole(echo, pad + core, prompt);
    PaddedEcho(command, echo, pad, whole);
  }

  lemma CaptureWhole(echo: Option<string>, table: string, prompt: string)
    ensures Capture(echo, table, prompt) == Capture(echo, table + prompt, "")
  {
    var front := if echo.Some? then echo.value + "\n" else "";
    Regroup(front, table, prompt);
    assert front + (table + prompt) + "" == front + (table + prompt);
  }

  lemma CalmPrompt(lines: seq<string>, prompt: string)
    requires AllCalm(lines) && (prompt == "" || IsPrompt(prompt))
    ensures RemovePrompts(Ended(lines) + prompt, true) == Ended(lines)
  {
    CalmLines(lines, prompt);
    assert RemovePrompts(prompt, true) == "";
    assert Ended(lines) + "" == Ended(lines);
  }

  lemma OutputStripped(command: string, indent: string, rest: seq<string>, echo: Option<string>, prompt: string, raw: string)
    requires var lines := [indent] + rest;
      AllCalm(lines) && lines[|lines| - 1] != "" && Without(raw, '\r') == Capture(echo, Ended(lines), prompt)
    requires rest != [] && rest[0] != "" && rest[0][0] == 'C' && AllSpace(indent) && indent != "" && indent[0] == ' '
    requires command != "" && command[0] == 's' && !IsSpace(command[|command| - 1])
    requires echo.Some? ==> command <= echo.value && '\n' !in echo.value
    requires prompt == "" || IsPrompt(prompt)
    ensures LineRows(Split(Stripped(raw, command), '\n')) == LineRows([indent] + rest)
  {
    var lines := [indent] + rest;
    var core := TablePadded(indent, rest);
    OutputEcho(command, indent + "\n", core, echo, prompt, raw);
    CalmPrompt(lines, prompt);
    CalmRows(lines);
  }

  lemma OutputParses(indent: string, title: string, rule: string, header: string, rows: seq<Flow>, tail: string,
                     echo: Option<string>, prompt: string, raw: string)
    requires Safe(indent) && LineRow(indent) == [] && Safe(title) && LineRow(title) == [] && Safe(rule) && LineRow(rule) == []
    requires Safe(header) && LineRow(header) == [] && Blanks(tail) && forall i :: 0 <= i < |rows| ==> WellFormed(rows[i])
    requires AllSpace(indent) && indent[0] == ' ' && title[0] == 'C'
    requires echo.Some? ==> COMMAND <= echo.value && '\n' !in echo.value
    requires prompt == "" || IsPrompt(prompt)
    requires Without(raw, '\r') == Capture(echo, Ended([indent] + (Titled(title, rule) + Lines(header, rows, tail))), prompt)
    ensures Parse(raw) == rows
  {
    var rest := Titled(title, rule) + Lines(header, rows, tail);
    assert rest[0] == title;
    TableCalm(indent, title, rule, header, rows, tail);
    CommandShape();
    OutputStripped(COMMAND, indent, rest, echo, prompt, raw);
  }

  /** The inverse law for the device's whole output: well-formed rows under its banner and header, with any blanks after
      the last cell, with or without the echoed command and a prompt around them and with carriage returns anywhere, parse
      to exactly those rows. */
  lemma DeviceOutputParses(n: nat, rows: seq<Flow>, tail: string, echo: Option<string>, prompt: string, raw: string)
    requires n > 0 && Blanks(tail) && forall i :: 0 <= i < |rows| ==> WellFormed(rows[i])
    requires echo.Some? ==> "show conntrack" <= echo.value && '\n' !in echo.value
    requires prompt == "" || IsPrompt(prompt)
    requires Without(raw, '\r') == Capture(echo, Ended(Table(n, rows, tail)), prompt)
    ensures Parse(raw) == rows
  {
    assert COMMAND == "show conntrack";
    IndentQuiet();
    TitleQuiet();
    RuleQuiet(n);
    HeaderSafe();
    OutputParses(INDENT, TITLE, Rule(n), HEADER, rows, tail, echo, prompt, raw);
  }
}
