// Parsing the device's connection table: stripping the terminal session around it, reading its rows, and the layout those
// rows are printed in.

module Nse {
  import opened Base
  import opened Text
  import opened Flows
  import opened Keys
  import opened Tables

  const COMMAND: string := "show conntrack"

  // ----- Stripping the session around the output -------------------------------------

  function Without(s: string, c: char): (r: string)
    ensures c !in r
    ensures c !in s ==> r == s
  {
    if s == [] then []
    else if s[0] == c then Without(s[1..], c)
    else [s[0]] + Without(s[1..], c)
  }

  /** `strings.TrimLeft(s, "\n")`. */
  function TrimLeftNewlines(s: string): string
  {
    if s != [] && s[0] == '\n' then TrimLeftNewlines(s[1..]) else s
  }

  /** `strings.Trim(s, "\n")`. */
  function TrimNewlines(s: string): string
    decreases |s|
  {
    if s != [] && s[0] == '\n' then TrimNewlines(s[1..])
    else if s != [] && s[|s| - 1] == '\n' then TrimNewlines(s[..|s| - 1])
    else s
  }

  function AfterNewline(s: string): string
  {
    if s == [] then []
    else if s[0] == '\n' then s[1..]
    else AfterNewline(s[1..])
  }

  predicate NameChar(c: char) {
    'A' <= c <= 'Z' || 'a' <= c <= 'z' || IsDigit(c) || c == '.' || c == '_' || c == '-'
  }

  /** White space as a regular expression's \s sees it: no vertical tab. */
  predicate RegexSpace(c: char) {
    IsSpace(c) && c != '\U{000B}'
  }

  predicate NotClosing(c: char) {
    c != ')'
  }

  function Run(t: string, p: char -> bool): (n: nat)
    ensures n <= |t|
  {
    if t != [] && p(t[0]) then 1 + Run(t[1..], p) else 0
  }

  function LastNewline(t: string): (r: Option<nat>)
    ensures r.Some? ==> r.value < |t|
  {
    if t == [] then None
    else if t[|t| - 1] == '\n' then Some(|t| - 1)
    else LastNewline(t[..|t| - 1])
  }

  /** Where the prompt that begins a line ends, if the line begins with one: a name, a parenthesis up to the first closing
      one, `#`, and as much white space as still leaves the end of a line. */
  function PromptEnd(t: string): (r: Option<nat>)
    ensures r.Some? ==> 0 < r.value <= |t|
  {
    var n := Run(t, NameChar);
    if n == 0 || n == |t| || t[n] != '(' then None
    else
      var m := n + 1 + Run(t[n + 1..], NotClosing);
      if m + 1 >= |t| || t[m + 1] != '#' then None
      else
        var e := m + 2;
        var w := Run(t[e..], RegexSpace);
        if e + w == |t| then Some(|t|)
        else
          var j := LastNewline(t[e..e + w]);
          if j.Some? then Some(e + j.value) else None
  }

  /** The text with every prompt removed; atStart says whether it begins a line. */
  function RemovePrompts(t: string, atStart: bool): string
    decreases |t|
  {
    if t == [] then []
    else
      var e := if atStart then PromptEnd(t) else None;
      if e.Some? then RemovePrompts(t[e.value..], t[e.value - 1] == '\n')
      else [t[0]] + RemovePrompts(t[1..], t[0] == '\n')
  }

  function DropEcho(text: string, command: string): string
  {
    var trimmed := TrimLeftNewlines(text);
    if command != "" && HasPrefix(TrimSpace(trimmed), command) then AfterNewline(trimmed) else text
  }

  function Stripped(raw: string, command: string): string {
    TrimNewlines(RemovePrompts(DropEcho(Without(raw, '\r'), command), true))
  }

  /** Stripping takes characters away and adds none. */
  lemma {:induction false} TrimNewlinesChars(s: string, c: char)
    requires c !in s
    ensures c !in TrimNewlines(s)
    decreases |s|
  {
    if s != [] && s[0] == '\n' {
      TrimNewlinesChars(s[1..], c);
    } else if s != [] && s[|s| - 1] == '\n' {
      TrimNewlinesChars(s[..|s| - 1], c);
    }
  }

  lemma {:induction false} TrimLeftNewlinesChars(s: string, c: char)
    requires c !in s
    ensures c !in TrimLeftNewlines(s)
  {
    if s != [] && s[0] == '\n' { TrimLeftNewlinesChars(s[1..], c); }
  }

  lemma {:induction false} AfterNewlineChars(s: string, c: char)
    requires c !in s
    ensures c !in AfterNewline(s)
  {
    if s != [] && s[0] != '\n' { AfterNewlineChars(s[1..], c); }
  }

  lemma {:induction false} RemovePromptsChars(t: string, atStart: bool, c: char)
    requires c !in t
    ensures c !in RemovePrompts(t, atStart)
    decreases |t|
  {
    if t != [] {
      var e := if atStart then PromptEnd(t) else None;
      if e.Some? {
        RemovePromptsChars(t[e.value..], t[e.value - 1] == '\n', c);
      } else {
        RemovePromptsChars(t[1..], t[0] == '\n', c);
      }
    }
  }

  lemma StrippedChars(raw: string, command: string)
    ensures '\r' !in Stripped(raw, command)
  {
    var text := Without(raw, '\r');
    TrimLeftNewlinesChars(text, '\r');
    AfterNewlineChars(TrimLeftNewlines(text), '\r');
    RemovePromptsChars(DropEcho(text, command), true, '\r');
    TrimNewlinesChars(RemovePrompts(DropEcho(text, command), true), '\r');
  }

  method StripCLI(raw: string, command: string) returns (text: string)
    ensures text == Stripped(raw, command)
  {
    text := Without(raw, '\r');
    if command != "" {
      var trimmed := TrimLeftNewlines(text);
      if HasPrefix(TrimSpace(trimmed), command) {
        text := AfterNewline(trimmed);
      }
    }
    text := RemovePrompts(text, true);
    text := TrimNewlines(text);
  }

  // ----- Reading rows ----------------------------------------------------------------

  predicate Skipped(s: string) {
    s == "" || HasPrefix(s, "=") || HasPrefix(s, "Connection") || HasPrefix(s, "Protocol")
  }

  predicate Known(proto: string) {
    proto == "TCP" || proto == "UDP" || proto == "ICMP" || proto == "GRE"
  }

  function TrimAll(parts: seq<string>): (r: seq<string>)
    ensures |r| == |parts|
  {
    if parts == [] then [] else [TrimSpace(parts[0])] + TrimAll(parts[1..])
  }

  lemma {:induction false} TrimAllAt(parts: seq<string>, i: nat)
    requires i < |parts|
    ensures TrimAll(parts)[i] == TrimSpace(parts[i])
  {
    if i > 0 { TrimAllAt(parts[1..], i - 1); }
  }

  lemma {:induction false} TrimAllConcat(a: seq<string>, b: seq<string>)
    ensures TrimAll(a + b) == TrimAll(a) + TrimAll(b)
  {
    if a == [] {
      assert a + b == b;
    } else {
      assert (a + b)[1..] == a[1..] + b;
      TrimAllConcat(a[1..], b);
    }
  }

  /** The parts of a line between pipes, each trimmed. */
  function Fields(s: string): (r: seq<string>)
  {
    TrimAll(Split(s, '|'))
  }

  function RowOf(p: seq<string>): Flow
    requires |p| >= 15
  {
    Flow(p[0], p[1], p[2], p[3], p[4], p[5],
         ParseInt(p[6]), ParseInt(p[7]), ParseInt(p[8]), ParseInt(p[9]),
         p[10], if p[11] == "0" then "" else p[11], if p[12] == "N/A" then "" else p[12], p[13], p[14],
         if |p| > 15 then TrimSpace(Join(p[15..], " ")) else "")
  }

  function LineRow(line: string): seq<Flow> {
    var s := TrimSpace(line);
    var p := Fields(s);
    if Skipped(s) || |p| < 15 || !Known(ToUpper(p[0])) then [] else [RowOf(p)]
  }

  function LineRows(lines: seq<string>): seq<Flow> {
    if lines == [] then [] else LineRows(lines[..|lines| - 1]) + LineRow(lines[|lines| - 1])
  }

  function Parse(raw: string): seq<Flow> {
    LineRows(Split(Stripped(raw, COMMAND), '\n'))
  }

  method ParseConntrackFlows(raw: string) returns (rows: seq<Flow>)
    ensures rows == Parse(raw)
  {
    var body := StripCLI(raw, COMMAND);
    rows := ParseLines(Split(body, '\n'));
  }

  method ParseLines(lines: seq<string>) returns (rows: seq<Flow>)
    ensures rows == LineRows(lines)
  {
    rows := [];
    for k := 0 to |lines|
      invariant rows == LineRows(lines[..k])
    {
      assert lines[..k + 1][..k] == lines[..k];
      var found := ParseLine(lines[k]);
      rows := rows + found;
    }
    assert lines[..|lines|] == lines;
  }

  method ParseLine(line: string) returns (rows: seq<Flow>)
    ensures rows == LineRow(line)
  {
    var s := TrimSpace(line);
    if Skipped(s) {
      return [];
    }
    var split := Split(s, '|');
    var parts := new string[|split|](i requires 0 <= i < |split| => split[i]);
    if parts.Length < 15 {
      return [];
    }
    TrimParts(parts, split);
    assert parts[..] == Fields(s);
    if !Known(ToUpper(parts[0])) {
      return [];
    }
    var row := MakeRow(parts);
    rows := [row];
  }

  /** Each part trimmed in place. */
  method TrimParts(parts: array<string>, ghost split: seq<string>)
    requires parts[..] == split
    modifies parts
    ensures parts[..] == TrimAll(split)
  {
    for i := 0 to parts.Length
      invariant forall j :: 0 <= j < i ==> parts[j] == TrimSpace(split[j])
      invariant forall j :: i <= j < parts.Length ==> parts[j] == split[j]
    {
      parts[i] := TrimSpace(parts[i]);
    }
    forall i | 0 <= i < |split| ensures parts[i] == TrimAll(split)[i] {
      TrimAllAt(split, i);
    }
  }

  method MakeRow(parts: array<string>) returns (row: Flow)
    requires parts.Length >= 15
    ensures row == RowOf(parts[..])
  {
    var host := "";
    if parts.Length > 15 {
      host := TrimSpace(Join(parts[15..], " "));
      assert parts[15..] == parts[..][15..];
    }
    var natedPort := parts[11];
    if natedPort == "0" {
      natedPort := "";
    }
    var state := parts[12];
    if state == "N/A" {
      state := "";
    }
    row := Flow(parts[0], parts[1], parts[2], parts[3], parts[4], parts[5],
                ParseInt(parts[6]), ParseInt(parts[7]), ParseInt(parts[8]), ParseInt(parts[9]),
                parts[10], natedPort, state, parts[13], parts[14], host);
  }

  // ----- What a parsed row looks like ------------------------------------------------

  predicate OneLine(s: string) {
    '\n' !in s && '\r' !in s
  }

  predicate White(c: char) {
    c == ' ' || c == '\t' || c == '\n' || c == '\U{000B}' || c == '\U{000C}' || c == '\r'
  }

  /** A cell's text: no white space at its ends, no pipe and no line end. */
  predicate Clean(s: string) {
    (s == "" || (!White(s[0]) && !White(s[|s| - 1]))) && '|' !in s && OneLine(s)
  }

  lemma CleanIff(s: string)
    ensures Clean(s) <==> Trimmed(s) && '|' !in s && OneLine(s)
  {
  }

  lemma AllCleanTrimmed(cells: seq<string>)
    requires AllClean(cells)
    ensures forall i :: 0 <= i < |cells| ==> Trimmed(cells[i]) && '|' !in cells[i]
  {
    forall i | 0 <= i < |cells| ensures Trimmed(cells[i]) && '|' !in cells[i] {
      CleanIff(cells[i]);
    }
  }

  /** One of the four protocols, in any case. */
  predicate Listed(protocol: string) {
    var u := ToUpper(protocol);
    u == "TCP" || u == "UDP" || u == "ICMP" || u == "GRE"
  }

  predicate Int64(n: int) {
    MIN_INT64 <= n <= MAX_INT64
  }

  predicate WellFormed(f: Flow) {
    && Clean(f.protocol) && Clean(f.ttl) && Clean(f.originSrc) && Clean(f.originDst) && Clean(f.srcPort)
    && Clean(f.dstPort) && Clean(f.natedIP) && Clean(f.natedPort) && Clean(f.tcpState) && Clean(f.direction)
    && Clean(f.application) && Clean(f.hostName)
    && Listed(f.protocol) && f.natedPort != "0" && f.tcpState != "N/A"
    && Int64(f.txPackets) && Int64(f.txBytes) && Int64(f.rxPackets) && Int64(f.rxBytes)
  }

  lemma {:induction false} JoinChars(parts: seq<string>, sep: string, c: char)
    requires c in Join(parts, sep)
    ensures c in sep || exists i :: 0 <= i < |parts| && c in parts[i]
  {
    if |parts| > 1 && c !in sep && c !in parts[0] {
      JoinChars(parts[1..], sep, c);
      var i :| 0 <= i < |parts| - 1 && c in parts[1..][i];
      assert c in parts[i + 1];
    }
  }

  lemma FieldClean(s: string, i: nat)
    requires OneLine(s) && i < |Fields(s)|
    ensures Clean(Fields(s)[i])
  {
    SplitChars(s, '|', i);
    TrimAllAt(Split(s, '|'), i);
    TrimSpaceTrims(Split(s, '|')[i]);
  }

  lemma HostClean(parts: seq<string>)
    requires forall i :: 0 <= i < |parts| ==> Clean(parts[i])
    ensures Clean(TrimSpace(Join(parts, " ")))
  {
    var host := Join(parts, " ");
    TrimSpaceTrims(host);
    forall c | c in host ensures c != '|' && c != '\n' && c != '\r' {
      JoinChars(parts, " ", c);
      if c !in " " {
        var i :| 0 <= i < |parts| && c in parts[i];
        CleanIff(parts[i]);
      }
    }
    CleanIff(TrimSpace(host));
  }

  lemma RowOfWellFormed(p: seq<string>)
    requires |p| >= 15 && Known(ToUpper(p[0])) && forall i :: 0 <= i < |p| ==> Clean(p[i])
    ensures WellFormed(RowOf(p))
  {
    var tail := p[15..];
    assert forall i :: 0 <= i < |tail| ==> tail[i] == p[i + 15];
    HostClean(tail);
    assert Clean("");
  }

  /** Row f says what the cells of a line say: texts as they are, counters as numbers, 0 for no port and N/A for no state, and
      the rest of the line for the host. */
  predicate ReadsOff(f: Flow, cells: seq<string>)
    requires |cells| >= 15
  {
    && f.protocol == cells[0] && f.ttl == cells[1] && f.originSrc == cells[2] && f.originDst == cells[3]
    && f.srcPort == cells[4] && f.dstPort == cells[5]
    && f.txPackets == ParseInt(cells[6]) && f.txBytes == ParseInt(cells[7])
    && f.rxPackets == ParseInt(cells[8]) && f.rxBytes == ParseInt(cells[9])
    && f.natedIP == cells[10] && f.direction == cells[13] && f.application == cells[14]
    && (if cells[11] == "0" then f.natedPort == "" else f.natedPort == cells[11])
    && (if cells[12] == "N/A" then f.tcpState == "" else f.tcpState == cells[12])
    && f.hostName == TrimSpace(Join(cells[15..], " "))
  }

  /** A line is a row exactly when it has fifteen cells or more and the first is one of the four protocols; the lines the
      parser skips by how they begin never are. */
  lemma LineExact(line: string)
    ensures var cells := TrimAll(Split(TrimSpace(line), '|'));
      if |cells| >= 15 && Listed(cells[0]) then |LineRow(line)| == 1 && ReadsOff(LineRow(line)[0], cells) else LineRow(line) == []
  {
    var s := TrimSpace(line);
    var cells := Fields(s);
    if |cells| == 15 {
      assert cells[15..] == [];
      TrimSpaceTrims("");
    }
    if Skipped(s) {
      SkippedUnlisted(s);
    }
  }

  /** The protocols count in lower case too. */
  lemma ListedInLowerCase()
    ensures Listed("tcp") && Listed("udp") && Listed("icmp") && Listed("gre")
  {
    assert ToUpper("tcp") == "TCP" && ToUpper("udp") == "UDP";
    assert ToUpper("icmp") == "ICMP" && ToUpper("gre") == "GRE";
  }

  lemma SkippedUnlisted(s: string)
    requires Skipped(s)
    ensures |Fields(s)| < 15 || !Listed(Fields(s)[0])
  {
    if s != "" {
      assert s[0] == '=' || s[0] == 'C' || s[0] == 'P' by {
        assert "Connection"[0] == 'C' && "Protocol"[0] == 'P';
      }
      FirstCell(s);
      var u := ToUpper(Fields(s)[0]);
      assert u[0] == UpperChar(s[0]) == s[0];
    }
  }

  /** The first cell of a line begins as the line does. */
  lemma FirstCell(s: string)
    requires s != "" && s[0] != '|' && !IsSpace(s[0])
    ensures Fields(s)[0] != "" && Fields(s)[0][0] == s[0]
  {
    var parts := Split(s, '|');
    assert parts[0] != "" && parts[0][0] == s[0];
    assert TrimLeft(parts[0]) == parts[0];
    TrimRightKeeps(parts[0], 0);
    TrimRightPrefix(parts[0]);
    TrimAllAt(parts, 0);
  }

  lemma LineRowWellFormed(line: string)
    requires OneLine(line)
    ensures forall i :: 0 <= i < |LineRow(line)| ==> WellFormed(LineRow(line)[i])
  {
    var s := TrimSpace(line);
    TrimSpaceTrims(line);
    var p := Fields(s);
    if !Skipped(s) && |p| >= 15 && Known(ToUpper(p[0])) {
      forall i | 0 <= i < |p| ensures Clean(p[i]) {
        FieldClean(s, i);
      }
      RowOfWellFormed(p);
    }
  }

  lemma {:induction false} LineRowsWellFormed(lines: seq<string>)
    requires forall i :: 0 <= i < |lines| ==> OneLine(lines[i])
    ensures forall i :: 0 <= i < |LineRows(lines)| ==> WellFormed(LineRows(lines)[i])
  {
    if lines != [] {
      LineRowsWellFormed(lines[..|lines| - 1]);
      LineRowWellFormed(lines[|lines| - 1]);
    }
  }

  /** Whatever the device sent, every parsed text is trimmed and free of pipes and line ends, every counter fits 64 bits,
      and the placeholders for no port and no state are gone. */
  lemma ParsedWellFormed(raw: string)
    ensures forall i :: 0 <= i < |Parse(raw)| ==> WellFormed(Parse(raw)[i])
  {
    var text := Stripped(raw, COMMAND);
    var lines := Split(text, '\n');
    StrippedChars(raw, COMMAND);
    forall i | 0 <= i < |lines| ensures OneLine(lines[i]) {
      SplitChars(text, '\n', i);
    }
    LineRowsWellFormed(lines);
  }

  // ----- Printing rows in the device's layout ----------------------------------------

  const HEADINGS: seq<string> :=
    ["TTL", "Origin_Src", "Origin_Dst", "Origin_Src_Port", "Origin_Dst_Port", "TX_packets", "TX_bytes",
     "RX_packets", "RX_bytes", "Nated_IP", "Nated_Port", "TCP_State", "Direction", "Application", "Host Name "]

  const HEADER: string := "Protocol" + " | " + Join(HEADINGS, " | ")

  /** The sixteen cells of a row: where from and to, the counters, the rest. */
  function Columns(f: Flow): seq<string> {
    Front(f) + Counters(f) + Back(f)
  }

  function Row(f: Flow): string {
    Join(Columns(f), " | ")
  }

  /** Blanks the device may leave after the last cell. */
  predicate Blanks(tail: string) {
    forall i :: 0 <= i < |tail| ==> tail[i] == ' '
  }

  function Rows(rows: seq<Flow>, tail: string): seq<string> {
    seq(|rows|, i requires 0 <= i < |rows| => Row(rows[i]) + tail)
  }

  function Lines(header: string, rows: seq<Flow>, tail: string): seq<string> {
    [header] + Rows(rows, tail)
  }

  /** Each line followed by a newline. */
  function Ended(lines: seq<string>): string {
    if lines == [] then "" else lines[0] + "\n" + Ended(lines[1..])
  }

  function Print(rows: seq<Flow>, tail: string): string {
    Ended(Lines(HEADER, rows, tail))
  }

  // ----- One row there and back ------------------------------------------------------

  lemma {:induction false} TrimSpaceSnoc(s: string, c: char)
    requires IsSpace(c)
    ensures TrimSpace(s + [c]) == TrimSpace(s)
  {
    if s == [] {
      assert s + [c] == [c] && [c][1..] == [];
    } else if IsSpace(s[0]) {
      assert (s + [c])[1..] == s[1..] + [c];
      TrimSpaceSnoc(s[1..], c);
    } else {
      assert (s + [c])[..|s|] == s;
    }
  }

  /** The parts with one character more at the very end. */
  function Extend(parts: seq<string>, c: char): seq<string>
    requires parts != []
  {
    parts[..|parts| - 1] + [parts[|parts| - 1] + [c]]
  }

  lemma ExtendCons(x: string, r: seq<string>, c: char)
    requires r != []
    ensures Extend([x] + r, c) == [x] + Extend(r, c)
  {
    assert ([x] + r)[..|r|] == [x] + r[..|r| - 1];
  }

  lemma ExtendHead(x: string, r: seq<string>, c: char)
    requires r != []
    ensures Extend([x + r[0]] + r[1..], c) == [x + Extend(r, c)[0]] + Extend(r, c)[1..]
  {
    if |r| == 1 {
      assert x + (r[0] + [c]) == (x + r[0]) + [c];
    } else {
      ExtendCons(x + r[0], r[1..], c);
      assert Extend(r, c)[0] == r[0] && Extend(r, c)[1..] == Extend(r[1..], c);
    }
  }

  lemma {:induction false} SplitSnoc(s: string, c: char, sep: char)
    requires c != sep
    ensures Split(s + [c], sep) == Extend(Split(s, sep), c)
  {
    if s == [] {
      assert s + [c] == [c] && [c][1..] == [];
      ExtendHead([c], [""], c);
      assert [c] + "" == "" + [c];
    } else {
      var t, r := s + [c], Split(s[1..], sep);
      assert t[0] == s[0] && t[1..] == s[1..] + [c];
      SplitSnoc(s[1..], c, sep);
      ExtendCons("", r, c);
      ExtendHead([s[0]], r, c);
    }
  }

  lemma FieldsSnoc(t: string, c: char)
    requires IsSpace(c)
    ensures Fields(t + [c]) == Fields(t)
  {
    SplitSnoc(t, c, '|');
    var p := Split(t, '|');
    var init, last := p[..|p| - 1], p[|p| - 1];
    assert p == init + [last];
    TrimAllConcat(init, [last]);
    TrimAllConcat(init, [last + [c]]);
    TrimSpaceSnoc(last, c);
  }

  /** White space at the end of a line changes no field. */
  lemma {:induction false} FieldsTrimRight(s: string)
    ensures Fields(TrimRight(s)) == Fields(s)
    decreases |s|
  {
    if s != [] && IsSpace(s[|s| - 1]) {
      var t, c := s[..|s| - 1], s[|s| - 1];
      assert s == t + [c];
      FieldsTrimRight(t);
      FieldsSnoc(t, c);
    }
  }

  lemma {:induction false} FieldsPad(t: string, tail: string)
    requires AllSpace(tail)
    ensures Fields(t + tail) == Fields(t)
  {
    if tail == [] {
      assert t + tail == t;
    } else {
      var n := |tail| - 1;
      assert t + tail == (t + tail[..n]) + [tail[n]];
      FieldsSnoc(t + tail[..n], tail[n]);
      FieldsPad(t, tail[..n]);
    }
  }

  lemma FieldsCons(x: string, rest: string)
    requires '|' !in x
    ensures Fields(x + ['|'] + rest) == [TrimSpace(x)] + Fields(rest)
  {
    SplitCons(x, '|', rest);
  }

  lemma {:induction false} JoinedFields(pre: string, cols: seq<string>)
    requires AllSpace(pre) && '|' !in pre && cols != []
    requires forall i :: 0 <= i < |cols| ==> Trimmed(cols[i]) && '|' !in cols[i]
    ensures Fields(pre + Join(cols, " | ")) == cols
    decreases |cols|
  {
    var c := cols[0];
    if |cols| == 1 {
      SplitNone(pre + c, '|');
      TrimPadded(pre, c, "");
      assert pre + c + "" == pre + c;
    } else {
      var rest := " " + Join(cols[1..], " | ");
      var s := pre + Join(cols, " | ");
      assert s == (pre + c + " ") + ['|'] + rest;
      FieldsCons(pre + c + " ", rest);
      TrimPadded(pre, c, " ");
      JoinedFields(" ", cols[1..]);
    }
  }

  lemma ItoaClean(n: int)
    ensures Clean(Itoa(n))
  {
    var s := Itoa(n);
    assert s[0] in s && s[|s| - 1] in s;
  }

  function Front(f: Flow): seq<string> {
    [f.protocol, f.ttl, f.originSrc, f.originDst, f.srcPort, f.dstPort]
  }

  function Counters(f: Flow): seq<string> {
    [Itoa(f.txPackets), Itoa(f.txBytes), Itoa(f.rxPackets), Itoa(f.rxBytes)]
  }

  function Back(f: Flow): seq<string> {
    [f.natedIP, if f.natedPort == "" then "0" else f.natedPort, if f.tcpState == "" then "N/A" else f.tcpState,
     f.direction, f.application, f.hostName]
  }

  predicate AllClean(cells: seq<string>) {
    forall i :: 0 <= i < |cells| ==> Clean(cells[i])
  }

  lemma CountersClean(f: Flow)
    ensures AllClean(Counters(f))
  {
    ItoaClean(f.txPackets);
    ItoaClean(f.txBytes);
    ItoaClean(f.rxPackets);
    ItoaClean(f.rxBytes);
  }

  lemma FrontClean(f: Flow)
    requires WellFormed(f)
    ensures AllClean(Front(f))
  {
  }

  lemma BackClean(f: Flow)
    requires WellFormed(f)
    ensures AllClean(Back(f))
  {
    assert Clean("0") && Clean("N/A");
  }

  lemma ColumnsClean(f: Flow)
    requires WellFormed(f)
    ensures AllClean(Columns(f))
  {
    FrontClean(f);
    CountersClean(f);
    BackClean(f);
  }

  lemma RowIs(p: seq<string>, f: Flow)
    requires |p| == 16 && p[0] == f.protocol && p[1] == f.ttl && p[2] == f.originSrc && p[3] == f.originDst
    requires p[4] == f.srcPort && p[5] == f.dstPort && p[6] == Itoa(f.txPackets) && p[7] == Itoa(f.txBytes)
    requires p[8] == Itoa(f.rxPackets) && p[9] == Itoa(f.rxBytes) && p[10] == f.natedIP
    requires Int64(f.txPackets) && Int64(f.txBytes) && Int64(f.rxPackets) && Int64(f.rxBytes)
    requires (if p[11] == "0" then "" else p[11]) == f.natedPort && (if p[12] == "N/A" then "" else p[12]) == f.tcpState
    requires p[13] == f.direction && p[14] == f.application && p[15] == f.hostName && Trimmed(f.hostName)
    ensures RowOf(p) == f
  {
    ParseItoa(f.txPackets);
    ParseItoa(f.txBytes);
    ParseItoa(f.rxPackets);
    ParseItoa(f.rxBytes);
    assert p[15..] == [f.hostName];
    TrimSpaceTrims(f.hostName);
  }

  lemma ColumnsRow(f: Flow)
    requires WellFormed(f)
    ensures RowOf(Columns(f)) == f
  {
    RowIs(Columns(f), f);
  }

  lemma RowBegins(f: Flow)
    requires WellFormed(f)
    ensures |f.protocol| < |Row(f)| && f.protocol <= Row(f) && Row(f)[|f.protocol|] == ' '
    ensures f.protocol != "" && forall i :: 0 <= i < |f.protocol| ==> NameChar(f.protocol[i])
    ensures var c := f.protocol[0]; !IsSpace(c) && c != '=' && c != 'C' && c != 'P' && c != 's'
  {
    var u := ToUpper(f.protocol);
    assert |u| == |f.protocol| && |u| >= 3;
    forall i | 0 <= i < |u| ensures NameChar(f.protocol[i]) {
      assert u[i] == UpperChar(f.protocol[i]) && 'A' <= u[i] <= 'Z';
    }
    assert u[0] == UpperChar(f.protocol[0]);
    assert Columns(f)[0] == f.protocol;
    assert Row(f) == f.protocol + " | " + Join(Columns(f)[1..], " | ");
  }

  lemma LineRowIs(line: string, p: seq<string>)
    requires TrimSpace(line) != "" && Fields(TrimSpace(line)) == p && |p| >= 15 && Known(ToUpper(p[0]))
    requires var c := TrimSpace(line)[0]; c != '=' && c != 'C' && c != 'P'
    ensures LineRow(line) == [RowOf(p)]
  {
  }

  lemma RowFields(f: Flow, tail: string)
    requires WellFormed(f) && Blanks(tail)
    ensures var line := TrimSpace(Row(f) + tail); line != "" && line[0] == f.protocol[0] && Fields(line) == Columns(f)
  {
    var row, line := Row(f), Row(f) + tail;
    RowBegins(f);
    assert TrimLeft(line) == line;
    TrimRightKeeps(line, 0);
    TrimRightPrefix(line);
    FieldsTrimRight(line);
    FieldsPad(row, tail);
    ColumnsClean(f);
    AllCleanTrimmed(Columns(f));
    JoinedFields("", Columns(f));
    assert "" + row == row;
  }

  lemma RowParses(f: Flow, tail: string)
    requires WellFormed(f) && Blanks(tail)
    ensures LineRow(Row(f) + tail) == [f]
  {
    RowBegins(f);
    RowFields(f, tail);
    LineRowIs(Row(f) + tail, Columns(f));
    ColumnsRow(f);
  }

  lemma {:induction false} TrimRightKeeps(s: string, i: nat)
    requires i < |s| && !IsSpace(s[i])
    ensures i < |TrimRight(s)|
    decreases |s|
  {
    if IsSpace(s[|s| - 1]) {
      TrimRightKeeps(s[..|s| - 1], i);
    }
  }

  lemma {:induction false} JoinOneLine(parts: seq<string>, sep: string)
    requires OneLine(sep) && forall i :: 0 <= i < |parts| ==> OneLine(parts[i])
    ensures OneLine(Join(parts, sep))
  {
    forall c | c in Join(parts, sep) ensures c != '\n' && c != '\r' {
      JoinChars(parts, sep, c);
    }
  }

  lemma RowOneLine(f: Flow)
    requires WellFormed(f)
    ensures OneLine(Row(f))
  {
    ColumnsClean(f);
    JoinOneLine(Columns(f), " | ");
  }

  // ----- The printed table there and back --------------------------------------------

  /** A line no prompt can begin: its leading name is followed by something other than a parenthesis. */
  predicate Safe(line: string) {
    OneLine(line) && line != "" && (var n := Run(line, NameChar); n < |line| && line[n] != '(')
  }

  predicate AllSafe(lines: seq<string>) {
    lines == [] || (Safe(lines[0]) && AllSafe(lines[1..]))
  }

  lemma {:induction false} AllSafeAt(lines: seq<string>, i: nat)
    requires AllSafe(lines) && i < |lines|
    ensures Safe(lines[i])
  {
    if i > 0 { AllSafeAt(lines[1..], i - 1); }
  }

  lemma {:induction false} RunPrefix(a: string, rest: string, p: char -> bool)
    requires Run(a, p) < |a|
    ensures Run(a + rest, p) == Run(a, p)
  {
    assert (a + rest)[0] == a[0] && (a + rest)[1..] == a[1..] + rest;
    if p(a[0]) { RunPrefix(a[1..], rest, p); }
  }

  lemma {:induction false} RunStops(a: string, rest: string, p: char -> bool)
    requires forall i :: 0 <= i < |a| ==> p(a[i])
    requires rest == "" || !p(rest[0])
    ensures Run(a + rest, p) == |a|
  {
    if a == [] {
      assert a + rest == rest;
    } else {
      assert (a + rest)[0] == a[0] && (a + rest)[1..] == a[1..] + rest;
      RunStops(a[1..], rest, p);
    }
  }

  lemma SafeBegins(line: string, rest: string)
    requires Safe(line)
    ensures PromptEnd(line + rest) == None
  {
    RunPrefix(line, rest, NameChar);
  }

  lemma {:induction false} WithinLine(a: string, rest: string)
    requires '\n' !in a
    ensures RemovePrompts(a + rest, false) == a + RemovePrompts(rest, false)
  {
    if a == [] {
      assert a + rest == rest;
    } else {
      assert (a + rest)[1..] == a[1..] + rest;
      assert a[0] in a;
      WithinLine(a[1..], rest);
    }
  }

  lemma KeepFirst(t: string)
    requires t != "" && t[0] != '\n' && PromptEnd(t) == None
    ensures RemovePrompts(t, true) == [t[0]] + RemovePrompts(t[1..], false)
  {
  }

  lemma KeepNewline(rest: string)
    ensures RemovePrompts("\n" + rest, false) == "\n" + RemovePrompts(rest, true)
  {
    assert ("\n" + rest)[1..] == rest;
  }

  lemma WholeLine(line: string, end: string)
    requires Safe(line)
    ensures RemovePrompts(line + end, true) == line + RemovePrompts(end, false)
  {
    var t := line + end;
    SafeBegins(line, end);
    assert t[0] == line[0] && t[1..] == line[1..] + end;
    KeepFirst(t);
    WithinLine(line[1..], end);
    assert [line[0]] + line[1..] == line;
  }

  lemma SafeLine(line: string, rest: string)
    requires Safe(line)
    ensures RemovePrompts(line + "\n" + rest, true) == line + "\n" + RemovePrompts(rest, true)
  {
    assert line + "\n" + rest == line + ("\n" + rest);
    WholeLine(line, "\n" + rest);
    KeepNewline(rest);
  }

  lemma {:induction false} SafeLines(lines: seq<string>, rest: string)
    requires AllSafe(lines)
    ensures RemovePrompts(Ended(lines) + rest, true) == Ended(lines) + RemovePrompts(rest, true)
  {
    if lines == [] {
      assert Ended(lines) + rest == rest;
    } else {
      var tail := Ended(lines[1..]) + rest;
      var line, kept := lines[0], RemovePrompts(rest, true);
      calc {
        RemovePrompts(Ended(lines) + rest, true);
        { assert Ended(lines) + rest == line + "\n" + tail; }
        RemovePrompts(line + "\n" + tail, true);
        { SafeLine(line, tail); }
        line + "\n" + RemovePrompts(tail, true);
        { SafeLines(lines[1..], rest); }
        line + "\n" + (Ended(lines[1..]) + kept);
        Ended(lines) + kept;
      }
    }
  }

  lemma {:induction false} TrimEnded(lines: seq<string>)
    requires lines != [] && AllSafe(lines)
    ensures Ended(lines) == Join(lines, "\n") + "\n"
    ensures Join(lines, "\n") != "" && Safe(lines[0]) && Join(lines, "\n")[0] == lines[0][0]
    ensures Join(lines, "\n")[|Join(lines, "\n")| - 1] != '\n'
  {
    assert lines[0][0] in lines[0];
    if |lines| == 1 {
      assert lines[1..] == [];
      assert lines[0][|lines[0]| - 1] in lines[0];
    } else {
      TrimEnded(lines[1..]);
    }
  }

  lemma TrimEnd(j: string)
    requires j != "" && j[0] != '\n' && j[|j| - 1] != '\n'
    ensures TrimNewlines(j + "\n") == j
  {
    assert (j + "\n")[..|j|] == j;
  }

  lemma TrimToJoin(lines: seq<string>)
    requires lines != [] && AllSafe(lines)
    ensures TrimNewlines(Ended(lines)) == Join(lines, "\n")
  {
    TrimEnded(lines);
    assert lines[0][0] in lines[0];
    TrimEnd(Join(lines, "\n"));
  }

  lemma HeaderLine(rest: string)
    requires OneLine(rest) && rest != "" && rest[0] == ' '
    ensures Safe("Protocol" + rest) && LineRow("Protocol" + rest) == []
  {
    var h := "Protocol" + rest;
    assert h[..8] == "Protocol" && h[7] == 'l' && h[8] == ' ';
    TrimRightKeeps(h, 7);
    TrimRightPrefix(h);
    assert TrimSpace(h)[..8] == h[..8];
    assert HasPrefix(TrimSpace(h), "Protocol");
    RunStops("Protocol", rest, NameChar);
  }

  lemma HeadingsOneLine()
    ensures forall i :: 0 <= i < |HEADINGS| ==> OneLine(HEADINGS[i])
  {
  }

  lemma HeaderOf(names: string)
    requires OneLine(names)
    ensures var h := "Protocol" + " | " + names; Safe(h) && LineRow(h) == [] && h[0] == 'P'
  {
    var rest := " | " + names;
    assert "Protocol" + " | " + names == "Protocol" + rest;
    HeaderLine(rest);
  }

  lemma HeaderSafe()
    ensures Safe(HEADER) && LineRow(HEADER) == [] && HEADER[0] == 'P'
  {
    HeadingsOneLine();
    JoinOneLine(HEADINGS, " | ");
    HeaderOf(Join(HEADINGS, " | "));
  }

  lemma RowSafe(f: Flow, tail: string)
    requires WellFormed(f) && Blanks(tail)
    ensures Safe(Row(f) + tail)
  {
    RowBegins(f);
    RowOneLine(f);
    var rest := Row(f)[|f.protocol|..] + tail;
    assert Row(f) + tail == f.protocol + rest && rest[0] == ' ';
    RunStops(f.protocol, rest, NameChar);
  }

  lemma AllSafeCons(line: string, lines: seq<string>)
    requires Safe(line) && AllSafe(lines)
    ensures AllSafe([line] + lines)
  {
    assert ([line] + lines)[1..] == lines;
  }

  lemma {:induction false} AllSafeFrom(lines: seq<string>)
    requires forall i :: 0 <= i < |lines| ==> Safe(lines[i])
    ensures AllSafe(lines)
  {
    if lines != [] {
      assert forall i :: 0 <= i < |lines| - 1 ==> lines[1..][i] == lines[i + 1];
      AllSafeFrom(lines[1..]);
    }
  }

  lemma RowsSafe(rows: seq<Flow>, tail: string)
    requires Blanks(tail) && forall i :: 0 <= i < |rows| ==> WellFormed(rows[i])
    ensures AllSafe(Rows(rows, tail))
  {
    forall i | 0 <= i < |rows| ensures Safe(Rows(rows, tail)[i]) {
      RowSafe(rows[i], tail);
    }
    AllSafeFrom(Rows(rows, tail));
  }

  lemma LinesSafe(header: string, rows: seq<Flow>, tail: string)
    requires Safe(header) && Blanks(tail) && forall i :: 0 <= i < |rows| ==> WellFormed(rows[i])
    ensures AllSafe(Lines(header, rows, tail))
  {
    RowsSafe(rows, tail);
    AllSafeCons(header, Rows(rows, tail));
  }

  lemma {:induction false} LinesParse(header: string, rows: seq<Flow>, tail: string)
    requires LineRow(header) == [] && Blanks(tail) && forall i :: 0 <= i < |rows| ==> WellFormed(rows[i])
    ensures LineRows(Lines(header, rows, tail)) == rows
  {
    if rows == [] {
      assert Lines(header, rows, tail) == [header] && [header][..0] == [];
    } else {
      var init, f := rows[..|rows| - 1], rows[|rows| - 1];
      assert rows == init + [f];
      var last := Row(f) + tail;
      LinesParse(header, init, tail);
      assert LineRow(last) == [f] by { RowParses(f, tail); }
      LinesSnoc(header, init, f, tail);
      RowsSnoc(Lines(header, init, tail), last);
    }
  }

  lemma LinesSnoc(header: string, init: seq<Flow>, f: Flow, tail: string)
    ensures Lines(header, init + [f], tail) == Lines(header, init, tail) + [Row(f) + tail]
  {
  }

  lemma RowsSnoc(init: seq<string>, last: string)
    ensures LineRows(init + [last]) == LineRows(init) + LineRow(last)
  {
    assert (init + [last])[..|init|] == init;
  }

  predicate IsPrompt(t: string) {
    PromptEnd(t) == Some(|t|)
  }

  /** A name of letters, digits, dots, underscores and hyphens, a mode in parentheses, a hash and white space. */
  predicate PromptParts(name: string, mode: string, space: string) {
    && name != ""
    && (forall i :: 0 <= i < |name| ==>
          'A' <= name[i] <= 'Z' || 'a' <= name[i] <= 'z' || '0' <= name[i] <= '9'
          || name[i] == '.' || name[i] == '_' || name[i] == '-')
    && (forall i :: 0 <= i < |mode| ==> mode[i] != ')')
    && (forall i :: 0 <= i < |space| ==>
          space[i] == ' ' || space[i] == '\t' || space[i] == '\n' || space[i] == '\U{000C}' || space[i] == '\r')
  }

  lemma PromptShape(name: string, mode: string, space: string)
    requires PromptParts(name, mode, space)
    ensures IsPrompt(name + "(" + mode + ")#" + space)
  {
    var t := name + "(" + mode + ")#" + space;
    var after := mode + ")#" + space;
    assert t == name + ("(" + after);
    assert Run(t, NameChar) == |name| by { RunStops(name, "(" + after, NameChar); }
    assert t[|name|] == '(' && t[|name| + 1..] == after;
    assert Run(after, NotClosing) == |mode| by {
      assert after == mode + (")#" + space);
      RunStops(mode, ")#" + space, NotClosing);
    }
    var e := |name| + 1 + |mode| + 2;
    assert t[e - 1] == '#' && t[e..] == space;
    assert Run(space, RegexSpace) == |space| by {
      RunStops(space, "", RegexSpace);
      assert space + "" == space;
    }
  }

  lemma {:induction false} RunHolds(t: string, p: char -> bool)
    ensures forall i :: 0 <= i < Run(t, p) ==> p(t[i])
    ensures Run(t, p) < |t| ==> !p(t[Run(t, p)])
  {
    if t != [] && p(t[0]) {
      RunHolds(t[1..], p);
      forall i | 0 <= i < Run(t, p) ensures p(t[i]) {
        if i > 0 { assert t[1..][i - 1] == t[i]; }
      }
    }
  }

  lemma PromptReads(t: string) returns (name: string, mode: string, space: string)
    requires IsPrompt(t)
    ensures PromptParts(name, mode, space)
    ensures t == name + "(" + mode + ")#" + space
  {
    var n := Run(t, NameChar);
    var m := n + 1 + Run(t[n + 1..], NotClosing);
    name, mode, space := t[..n], t[n + 1..m], t[m + 2..];
    RunHolds(t, NameChar);
    RunHolds(t[n + 1..], NotClosing);
    assert Run(space, RegexSpace) == |space|;
    RunHolds(space, RegexSpace);
    SpelledSpace(space);
    CutPrompt(t, n, m);
    assert t == name + "(" + mode + ")#" + space;
    assert forall i :: 0 <= i < |mode| ==> mode[i] == t[n + 1..][i];
  }

  lemma SpelledSpace(space: string)
    requires forall i :: 0 <= i < |space| ==> RegexSpace(space[i])
    ensures forall i :: 0 <= i < |space| ==>
      space[i] == ' ' || space[i] == '\t' || space[i] == '\n' || space[i] == '\U{000C}' || space[i] == '\r'
  {
  }

  lemma CutPrompt(t: string, n: nat, m: nat)
    requires n < m && m + 1 < |t| && t[n] == '(' && t[m] == ')' && t[m + 1] == '#'
    ensures t == t[..n] + "(" + t[n + 1..m] + ")#" + t[m + 2..]
  {
    assert ")#" + t[m + 2..] == t[m..];
    assert "(" + t[n + 1..m] == t[n..m];
    assert t == t[..n] + (t[n..m] + t[m..]);
  }

  /** The texts that are a prompt from end to end are exactly those. */
  lemma PromptIff(t: string)
    ensures IsPrompt(t) <==> exists name, mode, space :: PromptParts(name, mode, space) && t == name + "(" + mode + ")#" + space
  {
    if IsPrompt(t) {
      var name, mode, space := PromptReads(t);
    }
    if name, mode, space :| PromptParts(name, mode, space) && t == name + "(" + mode + ")#" + space {
      PromptShape(name, mode, space);
    }
  }

  /** A terminal session: perhaps the echoed command, the table, perhaps a prompt. */
  function Capture(echo: Option<string>, table: string, prompt: string): string {
    (if echo.Some? then echo.value + "\n" else "") + table + prompt
  }

  lemma {:induction false} AfterFirstLine(a: string, rest: string)
    requires '\n' !in a
    ensures AfterNewline(a + "\n" + rest) == rest
  {
    var t := a + "\n" + rest;
    if a != [] {
      assert t[0] == a[0] && a[0] in a;
      assert t[1..] == a[1..] + "\n" + rest;
      AfterFirstLine(a[1..], rest);
    }
  }

  lemma EchoDropped(command: string, echo: Option<string>, body: string)
    requires body != "" && !IsSpace(body[0]) && command != "" && command[0] != body[0]
    requires !IsSpace(command[0]) && !IsSpace(command[|command| - 1])
    requires echo.Some? ==> command <= echo.value && '\n' !in echo.value
    ensures DropEcho(Capture(echo, body, ""), command) == body
  {
    var t := Capture(echo, body, "");
    var k := |command| - 1;
    if echo.Some? {
      assert t == echo.value + "\n" + body;
      assert t[0] == echo.value[0] == command[0] && t[k] == echo.value[k] == command[k];
      TrimRightKeeps(t, k);
      TrimRightPrefix(t);
      assert command == echo.value[..|command|] == t[..|command|];
      assert command == TrimSpace(t)[..|command|];
      AfterFirstLine(echo.value, body);
    } else {
      assert t == body;
      TrimRightPrefix(t);
      assert TrimSpace(t) != [] ==> TrimSpace(t)[0] == body[0];
    }
  }

  lemma CommandShape()
    ensures COMMAND != "" && COMMAND[0] == 's' && COMMAND[|COMMAND| - 1] == 'k'
  {
  }

  lemma EchoStripped(table: string, command: string, echo: Option<string>, prompt: string, raw: string)
    requires table != "" && table[0] == 'P'
    requires command != "" && command[0] != 'P' && !IsSpace(command[0]) && !IsSpace(command[|command| - 1])
    requires echo.Some? ==> command <= echo.value && '\n' !in echo.value
    requires Without(raw, '\r') == Capture(echo, table, prompt)
    ensures DropEcho(Without(raw, '\r'), command) == table + prompt
  {
    assert Capture(echo, table + prompt, "") == Capture(echo, table, prompt);
    EchoDropped(command, echo, table + prompt);
  }

  lemma TableStripped(lines: seq<string>, command: string, echo: Option<string>, prompt: string, raw: string)
    requires lines != [] && AllSafe(lines)
    requires lines[0] != "" && lines[0][0] == 'P'
    requires command != "" && command[0] != 'P' && !IsSpace(command[0]) && !IsSpace(command[|command| - 1])
    requires echo.Some? ==> command <= echo.value && '\n' !in echo.value
    requires prompt == "" || IsPrompt(prompt)
    requires Without(raw, '\r') == Capture(echo, Ended(lines), prompt)
    ensures Stripped(raw, command) == Join(lines, "\n")
  {
    EchoStripped(Ended(lines), command, echo, prompt, raw);
    PromptRemoved(lines, prompt);
    TrimToJoin(lines);
  }

  lemma PromptRemoved(lines: seq<string>, prompt: string)
    requires AllSafe(lines)
    requires prompt == "" || IsPrompt(prompt)
    ensures RemovePrompts(Ended(lines) + prompt, true) == Ended(lines)
  {
    SafeLines(lines, prompt);
    assert RemovePrompts(prompt, true) == "";
    assert Ended(lines) + "" == Ended(lines);
  }

  lemma TableParses(header: string, rows: seq<Flow>, tail: string, echo: Option<string>, prompt: string, raw: string)
    requires Safe(header) && header[0] == 'P' && LineRow(header) == []
    requires Blanks(tail) && forall i :: 0 <= i < |rows| ==> WellFormed(rows[i])
    requires echo.Some? ==> COMMAND <= echo.value && '\n' !in echo.value
    requires prompt == "" || IsPrompt(prompt)
    requires Without(raw, '\r') == Capture(echo, Ended(Lines(header, rows, tail)), prompt)
    ensures Parse(raw) == rows
  {
    var lines := Lines(header, rows, tail);
    LinesSafe(header, rows, tail);
    CommandShape();
    TableStripped(lines, COMMAND, echo, prompt, raw);
    forall p | p in lines ensures '\n' !in p {
      var i :| 0 <= i < |lines| && lines[i] == p;
      AllSafeAt(lines, i);
    }
    SplitJoin(lines, '\n');
    LinesParse(header, rows, tail);
  }

  /** The inverse law: well-formed rows printed in the device's layout, with any blanks after the last cell, with or without
      the echoed command and a prompt around them and with carriage returns anywhere, parse to exactly those rows. */
  lemma CaptureParses(rows: seq<Flow>, tail: string, echo: Option<string>, prompt: string, raw: string)
    requires Blanks(tail) && forall i :: 0 <= i < |rows| ==> WellFormed(rows[i])
    requires echo.Some? ==> "show conntrack" <= echo.value && '\n' !in echo.value
    requires prompt == "" || IsPrompt(prompt)
    requires Without(raw, '\r') == Capture(echo, Print(rows, tail), prompt)
    ensures Parse(raw) == rows
  {
    assert COMMAND == "show conntrack";
    HeaderSafe();
    TableParses(HEADER, rows, tail, echo, prompt, raw);
  }

  lemma {:induction false} EndedChars(lines: seq<string>)
    requires AllSafe(lines)
    ensures '\r' !in Ended(lines)
  {
    if lines != [] { EndedChars(lines[1..]); }
  }

  lemma NoReturns(header: string, rows: seq<Flow>, tail: string)
    requires Safe(header) && Blanks(tail) && forall i :: 0 <= i < |rows| ==> WellFormed(rows[i])
    ensures '\r' !in Ended(Lines(header, rows, tail))
  {
    LinesSafe(header, rows, tail);
    EndedChars(Lines(header, rows, tail));
  }

  lemma PrintedParses(header: string, rows: seq<Flow>, tail: string)
    requires Safe(header) && header[0] == 'P' && LineRow(header) == []
    requires Blanks(tail) && forall i :: 0 <= i < |rows| ==> WellFormed(rows[i])
    ensures Parse(Ended(Lines(header, rows, tail))) == rows
  {
    var text := Ended(Lines(header, rows, tail));
    assert Without(text, '\r') == Capture(None, text, "") by {
      NoReturns(header, rows, tail);
      assert "" + text + "" == text;
    }
    TableParses(header, rows, tail, None, "", text);
  }

  lemma PrintParses(rows: seq<Flow>, tail: string)
    requires Blanks(tail) && forall i :: 0 <= i < |rows| ==> WellFormed(rows[i])
    ensures Parse(Print(rows, tail)) == rows
  {
    HeaderSafe();
    PrintedParses(HEADER, rows, tail);
  }

  /** Normal form: printing what was parsed and parsing it again changes nothing, for every input. */
  lemma NormalForm(raw: string, tail: string)
    requires Blanks(tail)
    ensures Parse(Print(Parse(raw), tail)) == Parse(raw)
  {
    ParsedWellFormed(raw);
    PrintParses(Parse(raw), tail);
  }

  /** The lists of rows that some input parses to are exactly the lists of well-formed rows. */
  lemma ParsedIff(rows: seq<Flow>)
    ensures (exists raw :: Parse(raw) == rows) <==> (forall i :: 0 <= i < |rows| ==> WellFormed(rows[i]))
  {
    if raw :| Parse(raw) == rows {
      ParsedWellFormed(raw);
    }
    if forall i :: 0 <= i < |rows| ==> WellFormed(rows[i]) {
      PrintParses(rows, "");
    }
  }

  /** Session keys of parsed rows, of one poll or of two, tell apart exactly what they should. */
  lemma ParsedKeysExact(raw1: string, i: nat, raw2: string, j: nat)
    requires i < |Parse(raw1)| && j < |Parse(raw2)|
    ensures var f, g := Parse(raw1)[i], Parse(raw2)[j];
      SessionKey(f) == SessionKey(g)
      <==> ToUpper(f.protocol) == ToUpper(g.protocol) && f.originSrc == g.originSrc && f.originDst == g.originDst
           && f.srcPort == g.srcPort && f.dstPort == g.dstPort
  {
    ParsedWellFormed(raw1);
    ParsedWellFormed(raw2);
    SessionKeyExact(Parse(raw1)[i], Parse(raw2)[j]);
  }

  /** The bucket of a parsed row counts as approved exactly when that very protocol, port and application is, whatever
      strings the approvals hold. */
  lemma ParsedApprovalExact(raw: string, i: nat, rows: map<Bucket, Approval>, fw: string)
    requires i < |Parse(raw)|
    ensures var f := Parse(raw)[i]; var port := ParseInt(f.dstPort);
      ApprovedKey(f.protocol, port, f.application) in ApprovedKeys(rows, fw)
      <==> Bucket(fw, f.protocol, port, f.application) in rows
  {
    ParsedWellFormed(raw);
    var f := Parse(raw)[i];
    LookupExact(rows, fw, f.protocol, ParseInt(f.dstPort), f.application);
  }
}
