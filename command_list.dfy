/** The command-file pipeline of the current instrument package: reading a
    command list from a spreadsheet or a text file, checking the scan commands
    against the sample-stage travel limits, and running the list one command at
    a time, stopping at the first failure (src/usaxs/plans/command_list.py). */
module CommandList {
  import opened Wrappers
  import opened Text

  /** A spreadsheet cell, or a word of a text line. */
  datatype Cell = Str(s: string) | Int(i: int) | Float(f: real) | Blank

  /** What a command was read from: the right-stripped text line, or the whole row. */
  datatype Raw = RawText(text: string) | RawRow(cells: seq<Cell>)

  /** The `(action, args, line_number, raw_command)` tuple. */
  datatype Command = Command(action: Cell, args: seq<Cell>, line: nat, raw: Raw)

  function StrCells(words: seq<string>): (cs: seq<Cell>)
    ensures |cs| == |words| && forall i :: 0 <= i < |words| ==> cs[i] == Str(words[i])
  {
    if words == [] then [] else [Str(words[0])] + StrCells(words[1..])
  }

  const UnpackError: Error := ValueError("not enough values to unpack (expected at least 1, got 0)")

  // ---------------------------------------------------------------- text files

  /** A line that is neither blank nor a comment. */
  predicate IsCommandLine(line: string) {
    var row := Strip(line);
    row != "" && row[0] != '#'
  }

  /** `action, *values = split_quoted_line(row)` for the line numbered `n`. */
  function TextCommand(line: string, n: nat, split: string -> seq<string>): Result<Command>
  {
    var words := split(Strip(line));
    if words == [] then Err(UnpackError)
    else Ok(Command(Str(words[0]), StrCells(words[1..]), n, RawText(RStrip(line))))
  }

  /** The commands read from the first `n` lines of a text file. */
  function TextCommands(lines: seq<string>, split: string -> seq<string>, n: nat): Result<seq<Command>>
    requires n <= |lines|
  {
    if n == 0 then Ok([])
    else match TextCommands(lines, split, n - 1)
      case Err(e) => Err(e)
      case Ok(prev) =>
        if !IsCommandLine(lines[n - 1]) then Ok(prev)
        else match TextCommand(lines[n - 1], n, split)
          case Err(e) => Err(e)
          case Ok(c) => Ok(prev + [c])
  }

  lemma {:induction false} TextCommandsErrSticks(lines: seq<string>, split: string -> seq<string>, i: nat, n: nat)
    requires i <= n <= |lines| && TextCommands(lines, split, i).Err?
    ensures TextCommands(lines, split, n) == TextCommands(lines, split, i)
    decreases n
  {
    if n > i { TextCommandsErrSticks(lines, split, i, n - 1); }
  }

  /** Reading fails exactly when some command line splits into no words. */
  lemma {:induction false} TextCommandsFailIff(lines: seq<string>, split: string -> seq<string>, n: nat)
    requires n <= |lines|
    ensures TextCommands(lines, split, n).Err? <==>
      exists i :: 0 <= i < n && IsCommandLine(lines[i]) && split(Strip(lines[i])) == []
  {
    if n > 0 {
      TextCommandsFailIff(lines, split, n - 1);
    }
  }

  /** Each command comes from a line that is neither blank nor a comment, keeps
      that line right-stripped and its 1-based number, and the commands are in
      file order. */
  lemma {:induction false} TextCommandsInFileOrder(lines: seq<string>, split: string -> seq<string>, n: nat)
    requires n <= |lines| && TextCommands(lines, split, n).Ok?
    ensures var cmds := TextCommands(lines, split, n).value;
      && (forall k :: 0 <= k < |cmds| ==>
            1 <= cmds[k].line <= n && IsCommandLine(lines[cmds[k].line - 1])
            && cmds[k].raw == RawText(RStrip(lines[cmds[k].line - 1]))
            && TextCommand(lines[cmds[k].line - 1], cmds[k].line, split) == Ok(cmds[k]))
      && (forall k, m :: 0 <= k < m < |cmds| ==> cmds[k].line < cmds[m].line)
  {
    if n > 0 {
      TextCommandsInFileOrder(lines, split, n - 1);
    }
  }

  /** Every line that is neither blank nor a comment gives a command. */
  lemma {:induction false} TextCommandsComplete(lines: seq<string>, split: string -> seq<string>, n: nat)
    requires n <= |lines| && TextCommands(lines, split, n).Ok?
    ensures var cmds := TextCommands(lines, split, n).value;
      forall i :: 0 <= i < n && IsCommandLine(lines[i]) ==>
        exists k :: 0 <= k < |cmds| && cmds[k].line == i + 1
  {
    if n > 0 {
      TextCommandsComplete(lines, split, n - 1);
      var prev := TextCommands(lines, split, n - 1).value;
      var cmds := TextCommands(lines, split, n).value;
      if IsCommandLine(lines[n - 1]) {
        assert cmds[|prev|].line == n;
      }
      forall i | 0 <= i < n - 1 && IsCommandLine(lines[i])
        ensures exists k :: 0 <= k < |cmds| && cmds[k].line == i + 1
      {
        var k :| 0 <= k < |prev| && prev[k].line == i + 1;
        assert cmds[k] == prev[k];
      }
    }
  }

  /** `parse_text_command_file` on the lines of an existing file. */
  method ParseTextCommandFile(lines: seq<string>, split: string -> seq<string>) returns (r: Result<seq<Command>>)
    ensures r == TextCommands(lines, split, |lines|)
  {
    var commands: seq<Command> := [];
    var i := 0;
    while i < |lines|
      invariant i <= |lines|
      invariant TextCommands(lines, split, i) == Ok(commands)
    {
      var row := Strip(lines[i]);
      if row != "" && row[0] != '#' {
        var words := split(row);
        if words == [] {
          TextCommandsErrSticks(lines, split, i + 1, |lines|);
          return Err(UnpackError);
        }
        commands := commands + [Command(Str(words[0]), StrCells(words[1..]), i + 1, RawText(RStrip(lines[i])))];
      }
      i := i + 1;
    }
    r := Ok(commands);
  }

  // ---------------------------------------------------------------- spreadsheets

  /** The row values with the trailing empty cells removed; empty cells between values stay. */
  function TrimTrailingBlanks(values: seq<Cell>): (r: seq<Cell>)
    ensures r <= values
    ensures r == [] || r[|r| - 1] != Blank
    ensures forall i :: |r| <= i < |values| ==> values[i] == Blank
  {
    if values == [] || values[|values| - 1] != Blank then values
    else TrimTrailingBlanks(values[..|values| - 1])
  }

  /** The trimming loop of `parse_Excel_command_file`. */
  method TrimTrailing(values: seq<Cell>) returns (r: seq<Cell>)
    ensures r == TrimTrailingBlanks(values)
  {
    r := values;
    while |r| > 0
      invariant TrimTrailingBlanks(r) == TrimTrailingBlanks(values)
    {
      if r[|r| - 1] != Blank {
        break;
      }
      r := r[..|r| - 1];
    }
  }

  function ExcelCommand(row: seq<Cell>, n: nat): Result<Command>
  {
    if row == [] then Err(UnpackError)
    else Ok(Command(row[0], TrimTrailingBlanks(row[1..]), n, RawRow(row)))
  }

  /** The commands read from the first `n` rows of a spreadsheet. */
  function ExcelCommands(rows: seq<seq<Cell>>, n: nat): Result<seq<Command>>
    requires n <= |rows|
  {
    if n == 0 then Ok([])
    else match ExcelCommands(rows, n - 1)
      case Err(e) => Err(e)
      case Ok(prev) =>
        match ExcelCommand(rows[n - 1], n)
        case Err(e) => Err(e)
        case Ok(c) => Ok(prev + [c])
  }

  lemma {:induction false} ExcelCommandsErrSticks(rows: seq<seq<Cell>>, i: nat, n: nat)
    requires i <= n <= |rows| && ExcelCommands(rows, i).Err?
    ensures ExcelCommands(rows, n) == ExcelCommands(rows, i)
    decreases n
  {
    if n > i { ExcelCommandsErrSticks(rows, i, n - 1); }
  }

  /** Every row becomes one command numbered from 1: first cell the action, the
      rest with trailing empties trimmed the arguments, the whole row kept as the
      raw command; reading fails exactly when some row has no cells. */
  lemma {:induction false} ExcelCommandsFaithful(rows: seq<seq<Cell>>, n: nat)
    requires n <= |rows|
    ensures ExcelCommands(rows, n).Err? <==> exists i :: 0 <= i < n && rows[i] == []
    ensures ExcelCommands(rows, n).Ok? ==>
      var cmds := ExcelCommands(rows, n).value;
      |cmds| == n && forall k :: 0 <= k < n ==>
        rows[k] != [] && cmds[k].action == rows[k][0] && cmds[k].line == k + 1
        && cmds[k].args == TrimTrailingBlanks(rows[k][1..]) && cmds[k].raw == RawRow(rows[k])
  {
    if n > 0 {
      ExcelCommandsFaithful(rows, n - 1);
    }
  }

  /** `parse_Excel_command_file` on the rows of a readable spreadsheet. */
  method ParseExcelCommandFile(rows: seq<seq<Cell>>) returns (r: Result<seq<Command>>)
    ensures r == ExcelCommands(rows, |rows|)
  {
    var commands: seq<Command> := [];
    var i := 0;
    while i < |rows|
      invariant i <= |rows|
      invariant ExcelCommands(rows, i) == Ok(commands)
    {
      var row := rows[i];
      if row == [] {
        ExcelCommandsErrSticks(rows, i + 1, |rows|);
        return Err(UnpackError);
      }
      var values := TrimTrailing(row[1..]);
      commands := commands + [Command(row[0], values, i + 1, RawRow(row))];
      i := i + 1;
    }
    r := Ok(commands);
  }

  /** `get_command_list`: the file must exist; it is read as a spreadsheet, and
      when that raises anything it is read as text instead.  `sheet` is what the
      spreadsheet reader returns (its rows, or the exception it raised) and
      `lines` what `readlines` returns. */
  function GetCommandList(fileExists: bool, sheet: Result<seq<seq<Cell>>>, lines: seq<string>,
                          split: string -> seq<string>): (r: Result<seq<Command>>)
    ensures !fileExists ==> r == Err(AssertionError)
    ensures r.Ok? ==> ((forall k :: 0 <= k < |r.value| ==> r.value[k].raw.RawRow?)
                    || (forall k :: 0 <= k < |r.value| ==> r.value[k].raw.RawText?))
  {
    if !fileExists then Err(AssertionError)
    else
      var excel := if sheet.Ok? then ExcelCommands(sheet.value, |sheet.value|) else Err(sheet.error);
      if excel.Ok? then
        ExcelCommandsFaithful(sheet.value, |sheet.value|);
        excel
      else
        var text := TextCommands(lines, split, |lines|);
        if text.Err? then text
        else
          TextCommandsInFileOrder(lines, split, |lines|);
          text
  }

  /** A spreadsheet that cannot be read, or has a row without cells, is read as
      text; an empty spreadsheet gives an empty list without reading any text. */
  lemma GetCommandListFallsBack(sheet: Result<seq<seq<Cell>>>, lines: seq<string>, split: string -> seq<string>)
    ensures sheet == Ok([]) ==> GetCommandList(true, sheet, lines, split) == Ok([])
    ensures (sheet.Err? || exists i :: 0 <= i < |sheet.value| && sheet.value[i] == []) ==>
      GetCommandList(true, sheet, lines, split) == TextCommands(lines, split, |lines|)
  {
    if sheet.Ok? {
      ExcelCommandsFaithful(sheet.value, |sheet.value|);
    }
  }

  // ---------------------------------------------------------------- verification

  const ScanActions: set<string> := {"flyscan", "usaxsscan", "saxs", "saxsexp", "waxs", "waxsexp"}

  /** Python's `float(cell)`; `float(None)` raises TypeError. */
  function CellFloat(c: Cell): Result<real>
  {
    match c
    case Str(s) => ParseDecimal(s)
    case Int(i) => Ok(i as real)
    case Float(f) => Ok(f)
    case Blank => Err(TypeError)
  }

  /** `float(args[k])`. */
  function ArgFloat(args: seq<Cell>, k: nat): Result<real>
  {
    if k < |args| then CellFloat(args[k]) else Err(IndexError)
  }

  /** Sample position and thickness of a scan command. */
  datatype Position = Position(sx: real, sy: real, sth: real)

  /** `sx, sy, sth = float(args[0]), float(args[1]), float(args[2])`, the first failure raising. */
  function ScanPosition(args: seq<Cell>): Result<Position>
  {
    match ArgFloat(args, 0)
    case Err(e) => Err(e)
    case Ok(sx) =>
      match ArgFloat(args, 1)
      case Err(e) => Err(e)
      case Ok(sy) =>
        match ArgFloat(args, 2)
        case Err(e) => Err(e)
        case Ok(sth) => Ok(Position(sx, sy, sth))
  }

  /** The position is read exactly when the first three arguments are all
      numbers; otherwise the first failing conversion raises, an empty cell with
      TypeError and a missing argument with IndexError. */
  lemma ScanPositionReads(args: seq<Cell>)
    ensures var r := ScanPosition(args);
      && (r.Ok? <==> |args| >= 3 && CellFloat(args[0]).Ok? && CellFloat(args[1]).Ok? && CellFloat(args[2]).Ok?)
      && (r.Ok? ==> r.value == Position(CellFloat(args[0]).value, CellFloat(args[1]).value, CellFloat(args[2]).value))
      && (|args| >= 1 && CellFloat(args[0]).Err? ==> r == Err(CellFloat(args[0]).error))
      && (|args| >= 1 && args[0].Blank? ==> r == Err(TypeError))
      && (r.Err? ==> r.error.IndexError? || r.error.ValueError? || r.error.TypeError?)
  {
    if |args| >= 1 && args[0].Str? {
      ParseDecimalFails(args[0].s);
    }
    if |args| >= 2 && args[1].Str? {
      ParseDecimalFails(args[1].s);
    }
    if |args| >= 3 && args[2].Str? {
      ParseDecimalFails(args[2].s);
    }
  }

  /** Travel limits of the sample stage. */
  datatype StageLimits = StageLimits(sxLow: real, sxHigh: real, syLow: real, syHigh: real)

  datatype Violation = Violation(axis: string, side: string, op: string, value: real, limit: real)

  /** The limit checks of `verify_commands`, in order: SX low, SX high, SY low, SY high. */
  function LimitViolations(p: Position, lim: StageLimits): (vs: seq<Violation>)
    ensures vs == [] <==> lim.sxLow <= p.sx <= lim.sxHigh && lim.syLow <= p.sy <= lim.syHigh
    ensures |vs| == (if p.sx < lim.sxLow then 1 else 0) + (if p.sx > lim.sxHigh then 1 else 0)
                  + (if p.sy < lim.syLow then 1 else 0) + (if p.sy > lim.syHigh then 1 else 0)
  {
    (if p.sx < lim.sxLow then [Violation("SX", "low", "<", p.sx, lim.sxLow)] else [])
    + (if p.sx > lim.sxHigh then [Violation("SX", "high", ">", p.sx, lim.sxHigh)] else [])
    + (if p.sy < lim.syLow then [Violation("SY", "low", "<", p.sy, lim.syLow)] else [])
    + (if p.sy > lim.syHigh then [Violation("SY", "high", ">", p.sy, lim.syHigh)] else [])
  }

  /** `raw_command.strip()`: a spreadsheet row is a list and has no `strip`. */
  function RawStrip(raw: Raw): Result<string>
  {
    match raw
    case RawText(t) => Ok(Strip(t))
    case RawRow(_) => Err(AttributeError)
  }

  /** `str(exc)` for the two exceptions `verify_commands` reports. */
  function ErrorText(e: Error): string
  {
    match e
    case ValueError(m) => m
    case IndexError => "list index out of range"
    case _ => ""
  }

  function ViolationMessages(line: nat, vs: seq<Violation>, text: string, show: real -> string): (ms: seq<string>)
    ensures |ms| == |vs|
  {
    if vs == [] then []
    else
      var v := vs[0];
      ["line " + IntToString(line) + ": " + v.axis + " " + v.side + " limit: value " + show(v.value)
        + " " + v.op + " " + v.side + " limit " + show(v.limit) + ", command: " + text]
      + ViolationMessages(line, vs[1..], text, show)
  }

  /** The messages `verify_commands` collects for one command, or the exception
      that escapes it.  `show` is Python's `str` of a float. */
  function CommandProblems(c: Command, lim: StageLimits, show: real -> string): Result<seq<string>>
  {
    if !c.action.Str? then Err(AttributeError)
    else if Lower(c.action.s) !in ScanActions then Ok([])
    else ScanProblems(c, lim, show)
  }

  /** The messages for a scan command: one when its position cannot be read,
      otherwise one per violated limit. */
  function ScanProblems(c: Command, lim: StageLimits, show: real -> string): Result<seq<string>>
  {
    match ScanPosition(c.args)
    case Err(e) =>
      if e.IndexError? || e.ValueError? then
        match RawStrip(c.raw)
        case Err(e2) => Err(e2)
        case Ok(text) => Ok(["line " + IntToString(c.line) + ": Improper command : " + text + " : " + ErrorText(e)])
      else Err(e)
    case Ok(p) =>
      var vs := LimitViolations(p, lim);
      if vs == [] then Ok([])
      else
        match RawStrip(c.raw)
        case Err(e2) => Err(e2)
        case Ok(text) => Ok(ViolationMessages(c.line, vs, text, show))
  }

  /** What one text command contributes: nothing unless it is a scan; one
      message when its position cannot be read; otherwise one message per
      violated limit, whatever the thickness. */
  lemma CommandProblemsCount(a: string, args: seq<Cell>, line: nat, text: string, lim: StageLimits, show: real -> string)
    ensures var r := CommandProblems(Command(Str(a), args, line, RawText(text)), lim, show);
      && (Lower(a) !in ScanActions ==> r == Ok([]))
      && (Lower(a) in ScanActions && ScanPosition(args).Err? ==>
            (r.Ok? <==> !ScanPosition(args).error.TypeError?) && (r.Ok? ==> |r.value| == 1))
      && (Lower(a) in ScanActions && ScanPosition(args).Ok? ==>
            r.Ok? && |r.value| == |LimitViolations(ScanPosition(args).value, lim)|)
  {
  }

  /** What each of the first `n` commands contributes, as if each were reached. */
  function Found(cmds: seq<Command>, lim: StageLimits, show: real -> string, n: nat): (fs: seq<Result<seq<string>>>)
    requires n <= |cmds|
    ensures |fs| == n
  {
    if n == 0 then [] else Found(cmds, lim, show, n - 1) + [CommandProblems(cmds[n - 1], lim, show)]
  }

  lemma {:induction false} FoundAt(cmds: seq<Command>, lim: StageLimits, show: real -> string, n: nat, i: nat)
    requires i < n <= |cmds|
    ensures Found(cmds, lim, show, n)[i] == CommandProblems(cmds[i], lim, show)
  {
    if i < n - 1 { FoundAt(cmds, lim, show, n - 1, i); }
  }

  /** The loop of `verify_commands` over the first `n` contributions: the
      messages collected, or the first exception. */
  function Collect(found: seq<Result<seq<string>>>, n: nat): Result<seq<string>>
    requires n <= |found|
  {
    if n == 0 then Ok([])
    else match Collect(found, n - 1)
      case Err(e) => Err(e)
      case Ok(prev) =>
        match found[n - 1]
        case Err(e) => Err(e)
        case Ok(ms) => Ok(prev + ms)
  }

  lemma {:induction false} CollectErrSticks(found: seq<Result<seq<string>>>, i: nat, n: nat)
    requires i <= n <= |found| && Collect(found, i).Err?
    ensures Collect(found, n) == Collect(found, i)
    decreases n
  {
    if n > i { CollectErrSticks(found, i, n - 1); }
  }

  lemma {:induction false} CollectOk(found: seq<Result<seq<string>>>, n: nat)
    requires n <= |found| && Collect(found, n).Ok?
    ensures forall k :: 0 <= k < n ==> found[k].Ok?
  {
    if n > 0 { CollectOk(found, n - 1); }
  }

  /** The messages of the first `n` commands, or the first exception. */
  function AllProblems(cmds: seq<Command>, lim: StageLimits, show: real -> string, n: nat): Result<seq<string>>
    requires n <= |cmds|
  {
    Collect(Found(cmds, lim, show, |cmds|), n)
  }

  /** A list that passes the scan (no exception escapes) has only text actions. */
  lemma CheckedActionsAreText(cmds: seq<Command>, lim: StageLimits, show: real -> string, n: nat)
    requires n <= |cmds| && AllProblems(cmds, lim, show, n).Ok?
    ensures forall k :: 0 <= k < n ==> cmds[k].action.Str?
  {
    CollectOk(Found(cmds, lim, show, |cmds|), n);
    forall k | 0 <= k < n
      ensures cmds[k].action.Str?
    {
      FoundAt(cmds, lim, show, |cmds|, k);
    }
  }

  /** One pass of the loop of `verify_commands`. */
  method CheckCommand(cmds: seq<Command>, i: nat, lim: StageLimits, show: real -> string) returns (found: Result<seq<string>>)
    requires i < |cmds|
    ensures found == Found(cmds, lim, show, |cmds|)[i]
  {
    FoundAt(cmds, lim, show, |cmds|, i);
    found := CommandProblems(cmds[i], lim, show);
  }

  const VerifyHeader: string := "Errors were found in command file. Cannot continue. List of errors:\n"

  /** The RuntimeError message: the header, then one error per line. */
  function VerifyMessage(errors: seq<string>): string
  {
    VerifyHeader + Join("\n", errors)
  }

  /** The message as the source builds it: the two adjacent string literals are
      fused before `.join` is applied, so header and newline become the separator. */
  function VerifyMessageAsWritten(errors: seq<string>): string
  {
    Join(VerifyHeader + "\n", errors)
  }

  /** The outcome of `verify_commands`: an escaping exception, a RuntimeError
      listing every message, or nothing. */
  function VerifyOutcome(cmds: seq<Command>, lim: StageLimits, show: real -> string): (r: Option<Error>)
    ensures AllProblems(cmds, lim, show, |cmds|) == Ok([]) <==> r.None?
  {
    match AllProblems(cmds, lim, show, |cmds|)
    case Err(e) => Some(e)
    case Ok(errors) => if errors == [] then None else Some(RuntimeError(VerifyMessage(errors)))
  }

  /** `verify_commands`. */
  method VerifyCommands(cmds: seq<Command>, lim: StageLimits, show: real -> string) returns (r: Option<Error>)
    ensures r == VerifyOutcome(cmds, lim, show)
  {
    ghost var fs := Found(cmds, lim, show, |cmds|);
    var errors: seq<string> := [];
    var i := 0;
    while i < |cmds|
      invariant i <= |cmds|
      invariant Collect(fs, i) == Ok(errors)
    {
      var found := CheckCommand(cmds, i, lim, show);
      if found.Err? {
        CollectErrSticks(fs, i + 1, |cmds|);
        return Some(found.error);
      }
      errors := errors + found.value;
      i := i + 1;
    }
    if |errors| > 0 {
      return Some(RuntimeError(VerifyMessage(errors)));
    }
    r := None;
  }

  /** As written, a single error is reported without the header, and a second
      error is preceded by the header. */
  lemma VerifyMessageAsWrittenLosesHeader(e1: string, e2: string)
    ensures VerifyMessageAsWritten([e1]) == e1
    ensures VerifyMessageAsWritten([e1, e2]) == e1 + VerifyHeader + "\n" + e2
    ensures var e := "line 3: Improper command : FlyScan 0 : list index out of range";
      !(VerifyHeader <= VerifyMessageAsWritten([e]))
  {
    var e := "line 3: Improper command : FlyScan 0 : list index out of range";
    var sep := VerifyHeader + "\n";
    assert [e1, e2][1..] == [e2];
    assert Join(sep, [e1, e2]) == e1 + sep + e2;
    assert e1 + sep + e2 == e1 + VerifyHeader + "\n" + e2;
    assert VerifyMessageAsWritten([e]) == e;
    assert |e| < |VerifyHeader|;
  }

  /** The corrected message starts with the header and lists the errors back,
      one per line, whenever no error spans several lines. */
  lemma VerifyMessageListsErrors(errors: seq<string>)
    requires errors != [] && forall i :: 0 <= i < |errors| ==> '\n' !in errors[i]
    ensures VerifyHeader <= VerifyMessage(errors)
    ensures Split(VerifyMessage(errors)[|VerifyHeader|..], '\n') == errors
  {
    assert VerifyMessage(errors)[|VerifyHeader|..] == Join("\n", errors);
    SplitJoin(errors, '\n');
  }

  // ---------------------------------------------------------------- set command

  /** The Python value held by a Signal. */
  datatype PyValue = PyInt(i: int) | PyFloat(f: real) | PyStr(s: string) | PyOther

  /** An attribute reachable from `terms`: a Signal with its value, or another
      object, each with its named components. */
  datatype Node = Node(isSignal: bool, value: PyValue, components: map<string, Node>)

  /** `bps.abs_set(<signal named name>, value)`. */
  datatype Write = Write(name: string, value: PyValue)

  /** `getattr` down a dotted path; None when some component is missing. */
  function Lookup(node: Node, names: seq<string>): Option<Node>
    decreases names
  {
    if names == [] then Some(node)
    else if names[0] in node.components then Lookup(node.components[names[0]], names[1..])
    else None
  }

  /** `int(f)` of a float: truncation toward zero. */
  function Truncate(f: real): (i: int)
    ensures f >= 0.0 ==> i as real <= f < i as real + 1.0
    ensures f < 0.0 ==> i as real - 1.0 < f <= i as real
  {
    if f >= 0.0 then f.Floor else -((-f).Floor)
  }

  predicate SameKind(a: PyValue, b: PyValue) {
    (a.PyInt? && b.PyInt?) || (a.PyFloat? && b.PyFloat?) || (a.PyStr? && b.PyStr?)
  }

  /** Conversion of the new value to the type of the old one; None where Python
      raises or the type is not supported. */
  function Convert(current: PyValue, v: Cell, show: real -> string): Option<PyValue>
  {
    match current
    case PyInt(_) =>
      (match v
       case Str(s) => (match ParseInt(s) case Ok(i) => Some(PyInt(i)) case Err(_) => None)
       case Int(i) => Some(PyInt(i))
       case Float(f) => Some(PyInt(Truncate(f)))
       case Blank => None)
    case PyFloat(_) =>
      (match CellFloat(v) case Ok(x) => Some(PyFloat(x)) case Err(_) => None)
    case PyStr(_) =>
      (match v
       case Str(s) => Some(PyStr(s))
       case Int(i) => Some(PyStr(IntToString(i)))
       case Float(f) => Some(PyStr(show(f)))
       case Blank => Some(PyStr("None")))
    case PyOther => None
  }

  /** `run_set_command(*args)`: at most one write, logged and skipped on any
      problem; only a term that is not text raises (it has no `startswith`). */
  function RunSetCommand(args: seq<Cell>, terms: Node, show: real -> string): Result<Option<Write>>
  {
    if |args| != 2 then Ok(None)
    else if !args[0].Str? then Err(AttributeError)
    else
      var term := args[0].s;
      if !("terms." <= term) then Ok(None)
      else
        match Lookup(terms, Split(term, '.')[1..])
        case None => Ok(None)
        case Some(node) =>
          if !node.isSignal then Ok(None)
          else
            match Convert(node.value, args[1], show)
            case None => Ok(None)
            case Some(v) => Ok(Some(Write(term, v)))
  }

  /** The new value always has the type of the old one; text terms accept
      anything, other types refuse an empty cell, and unsupported types refuse
      everything. */
  lemma ConvertKeepsType(current: PyValue, v: Cell, show: real -> string)
    ensures var r := Convert(current, v, show);
      && (r.Some? ==> SameKind(current, r.value))
      && (current.PyStr? ==> r.Some?)
      && (current.PyOther? ==> r.None?)
      && (v.Blank? ==> (r.Some? <==> current.PyStr?))
  {
  }

  /** Only a term that is not text raises; a write happens only for a
      `terms.` name that leads to a Signal, and keeps that Signal's type. */
  lemma RunSetCommandWrites(args: seq<Cell>, terms: Node, show: real -> string)
    ensures var r := RunSetCommand(args, terms, show);
      && (r.Err? <==> |args| == 2 && !args[0].Str?)
      && (r.Ok? && r.value.Some? ==>
            && |args| == 2 && args[0].Str? && r.value.value.name == args[0].s && "terms." <= args[0].s
            && var node := Lookup(terms, Split(args[0].s, '.')[1..]);
               node.Some? && node.value.isSignal && SameKind(node.value.value, r.value.value.value))
  {
    if |args| == 2 && args[0].Str? {
      var node := Lookup(terms, Split(args[0].s, '.')[1..]);
      if node.Some? {
        ConvertKeepsType(node.value.value, args[1], show);
      }
    }
  }

  /** Setting an integer term from a text number reads it with `int()`, and
      from a spreadsheet float truncates toward zero. */
  lemma SetIntegerTerm(term: string, node: Node, k: int, f: real, terms: Node, show: real -> string)
    requires "terms." <= term && Lookup(terms, Split(term, '.')[1..]) == Some(node)
    requires node.isSignal && node.value.PyInt?
    ensures RunSetCommand([Str(term), Str(IntToString(k))], terms, show) == Ok(Some(Write(term, PyInt(k))))
    ensures RunSetCommand([Str(term), Float(f)], terms, show) == Ok(Some(Write(term, PyInt(Truncate(f)))))
  {
    ParseIntOfIntToString(k);
  }

  // ---------------------------------------------------------------- execution

  /** What the command runs. */
  datatype Handler =
    | ScanPlan(plan: string, pos: Position, title: Cell)
    | SetTerm(write: Option<Write>)
    | SimplePlan(plan: string)
    | NoHandling

  /** The scan actions and the plan each runs. */
  const ScanActionPlans: map<string, string> := map[
    "flyscan" := "USAXSscan", "usaxsscan" := "USAXSscan", "saxs" := "saxsExp",
    "saxsexp" := "saxsExp", "waxs" := "waxsExp", "waxsexp" := "waxsExp"]

  /** The actions that run a plan without arguments (names are lower case). */
  const SimpleActions: map<string, string> := map[
    "mode_blackfly" := "mode_DirectBeam", "mode_radiography" := "mode_Radiography",
    "mode_saxs" := "mode_SAXS", "mode_usaxs" := "mode_USAXS", "mode_waxs" := "mode_WAXS",
    "pi_off" := "PI_Off", "pi_onf" := "PI_onF", "pi_onr" := "PI_onR",
    "preusaxstune" := "preUSAXStune", "allusaxstune" := "allUSAXStune"]

  /** How the plan run for a command ended. */
  datatype PlanOutcome = Completed | Raised(error: Error) | AbortRequested

  /** The state the command list sees: stage limits, the `terms` tree, how floats
      print, and how the plan run for the command at each index ends. */
  datatype Context = Context(limits: StageLimits, terms: Node, show: real -> string, outcome: nat -> PlanOutcome)

  function ScanHandler(plan: string, args: seq<Cell>): Result<Handler>
  {
    match ScanPosition(args)
    case Err(e) => Err(e)
    case Ok(p) => if |args| < 4 then Err(IndexError) else Ok(ScanPlan(plan, p, args[3]))
  }

  /** `_handle_actions_` up to the point where a plan starts: the handler for a
      lower-cased action, or the exception its arguments raise. */
  function Dispatch(action: string, args: seq<Cell>, ctx: Context): Result<Handler>
  {
    if action in ScanActionPlans then ScanHandler(ScanActionPlans[action], args)
    else if action == "set" then
        match RunSetCommand(args, ctx.terms, ctx.show)
        case Err(e) => Err(e)
        case Ok(w) => Ok(SetTerm(w))
      else
        if action in SimpleActions then Ok(SimplePlan(SimpleActions[action]))
        else Ok(NoHandling)
  }

  /** The record the run keeps: the hooks, each command started (with its
      metadata: index, line and the action as written), and the stop. */
  datatype Event =
    | BeforeCommandList
    | Ran(index: nat, line: nat, action: Cell, handler: Handler)
    | Stopped(index: nat, error: Option<Error>)
    | AfterCommandList

  predicate RunsPlan(h: Handler) { h.ScanPlan? || h.SimplePlan? }

  /** What one pass through the loop body gives: its events and whether the list
      stops; Err for an exception outside the try (an action that is not text). */
  type Pass = Result<(seq<Event>, bool)>

  /** The pass for command `i`. */
  function Step(c: Command, i: nat, ctx: Context): Pass
  {
    match c.action
    case Str(a) => HandlerPass(Dispatch(Lower(a), c.args, ctx), i, c, ctx.outcome(i))
    case _ => Err(AttributeError)
  }

  /** The try clause: an exception from the arguments stops the list before
      anything starts; otherwise the command starts, and the list stops when its
      plan raises or an abort is requested. */
  function HandlerPass(handler: Result<Handler>, i: nat, c: Command, outcome: PlanOutcome): Pass
  {
    match handler
    case Err(e) => Ok(([Stopped(i, Some(e))], true))
    case Ok(h) =>
      var ran := Ran(i, c.line, c.action, h);
      if !RunsPlan(h) then Ok(([ran], false))
      else
        match outcome
        case Completed => Ok(([ran], false))
        case Raised(e) => Ok(([ran, Stopped(i, Some(e))], true))
        case AbortRequested => Ok(([ran, Stopped(i, None)], true))
  }

  /** The passes of the first `n` commands, as if each were reached. */
  function Passes(cmds: seq<Command>, ctx: Context, n: nat): (ps: seq<Pass>)
    requires n <= |cmds|
    ensures |ps| == n
  {
    if n == 0 then [] else Passes(cmds, ctx, n - 1) + [Step(cmds[n - 1], n - 1, ctx)]
  }

  lemma {:induction false} PassAt(cmds: seq<Command>, ctx: Context, n: nat, i: nat)
    requires i < n <= |cmds|
    ensures Passes(cmds, ctx, n)[i] == Step(cmds[i], i, ctx)
  {
    if i < n - 1 { PassAt(cmds, ctx, n - 1, i); }
  }

  /** The loop over the first `n` passes: it ends after a pass that stops, or
      with the exception of a pass that raises one. */
  function RunPasses(passes: seq<Pass>, n: nat): Pass
    requires n <= |passes|
  {
    if n == 0 then Ok(([], false))
    else match RunPasses(passes, n - 1)
      case Err(e) => Err(e)
      case Ok(prev) =>
        if prev.1 then Ok(prev)
        else match passes[n - 1]
          case Err(e) => Err(e)
          case Ok(step) => Ok((prev.0 + step.0, step.1))
  }

  lemma {:induction false} RunPassesSettled(passes: seq<Pass>, i: nat, n: nat)
    requires i <= n <= |passes|
    requires RunPasses(passes, i).Err? || (RunPasses(passes, i).Ok? && RunPasses(passes, i).value.1)
    ensures RunPasses(passes, n) == RunPasses(passes, i)
    decreases n
  {
    if n > i { RunPassesSettled(passes, i, n - 1); }
  }

  /** `execute_command_list`: an empty list does nothing (no hooks); otherwise the
      checks run first, then the commands, then the closing hook. */
  function Execute(cmds: seq<Command>, ctx: Context): Result<seq<Event>>
  {
    if cmds == [] then Ok([])
    else match VerifyOutcome(cmds, ctx.limits, ctx.show)
      case Some(e) => Err(e)
      case None =>
        match RunPasses(Passes(cmds, ctx, |cmds|), |cmds|)
        case Err(e) => Err(e)
        case Ok(run) => Ok([BeforeCommandList] + run.0 + [AfterCommandList])
  }

  function EventIndex(e: Event): nat
  {
    match e
    case Ran(i, _, _, _) => i
    case Stopped(i, _) => i
    case _ => 0
  }

  /** The events of one command: it starts (unless its arguments raise) and
      possibly stops; only a stop ends the list. */
  predicate PassShaped(p: Pass, i: nat, c: Command) {
    p.Ok? ==>
      var (ev, stop) := p.value;
      && 1 <= |ev| <= 2
      && (forall k :: 0 <= k < |ev| ==> (ev[k].Ran? || ev[k].Stopped?) && EventIndex(ev[k]) == i)
      && (forall k :: 0 <= k < |ev| && ev[k].Ran? ==> k == 0 && ev[k].line == c.line && ev[k].action == c.action)
      && (forall k :: 0 <= k < |ev| && ev[k].Stopped? ==> k == |ev| - 1 && stop)
      && (stop <==> ev[|ev| - 1].Stopped?)
      && (!stop ==> ev == [Ran(i, c.line, c.action, ev[0].handler)])
  }

  predicate AllShaped(passes: seq<Pass>, cmds: seq<Command>) {
    |passes| == |cmds| && forall i :: 0 <= i < |cmds| ==> PassShaped(passes[i], i, cmds[i])
  }

  lemma HandlerPassShape(handler: Result<Handler>, i: nat, c: Command, outcome: PlanOutcome)
    ensures HandlerPass(handler, i, c, outcome).Ok? && PassShaped(HandlerPass(handler, i, c, outcome), i, c)
  {
  }

  lemma StepShape(c: Command, i: nat, ctx: Context)
    ensures PassShaped(Step(c, i, ctx), i, c)
    ensures c.action.Str? ==> Step(c, i, ctx).Ok?
  {
    if c.action.Str? {
      HandlerPassShape(Dispatch(Lower(c.action.s), c.args, ctx), i, c, ctx.outcome(i));
    }
  }

  lemma PassesShaped(cmds: seq<Command>, ctx: Context)
    ensures AllShaped(Passes(cmds, ctx, |cmds|), cmds)
  {
    forall i | 0 <= i < |cmds| ensures PassShaped(Passes(cmds, ctx, |cmds|)[i], i, cmds[i]) {
      PassAt(cmds, ctx, |cmds|, i);
      StepShape(cmds[i], i, ctx);
    }
  }

  /** Every event belongs to a command already reached, and a start records that
      command's line and its action as written. */
  lemma {:induction false} RunPassesRecords(passes: seq<Pass>, cmds: seq<Command>, n: nat)
    requires AllShaped(passes, cmds) && n <= |cmds| && RunPasses(passes, n).Ok?
    ensures var ev := RunPasses(passes, n).value.0;
      forall k :: 0 <= k < |ev| ==>
        (ev[k].Ran? || ev[k].Stopped?) && EventIndex(ev[k]) < n
        && (ev[k].Ran? ==> ev[k].line == cmds[ev[k].index].line && ev[k].action == cmds[ev[k].index].action)
  {
    if n > 0 {
      RunPassesRecords(passes, cmds, n - 1);
      assert PassShaped(passes[n - 1], n - 1, cmds[n - 1]);
    }
  }

  /** Commands start in list order, each at most once. */
  lemma {:induction false} RunPassesInOrder(passes: seq<Pass>, cmds: seq<Command>, n: nat)
    requires AllShaped(passes, cmds) && n <= |cmds| && RunPasses(passes, n).Ok?
    ensures var ev := RunPasses(passes, n).value.0;
      && (forall k, m :: 0 <= k < m < |ev| ==> EventIndex(ev[k]) <= EventIndex(ev[m]))
      && (forall k, m :: 0 <= k < m < |ev| && ev[k].Ran? && ev[m].Ran? ==> ev[k].index < ev[m].index)
  {
    if n > 0 {
      RunPassesInOrder(passes, cmds, n - 1);
      RunPassesRecords(passes, cmds, n - 1);
      assert PassShaped(passes[n - 1], n - 1, cmds[n - 1]);
    }
  }

  /** A stop is the last event, and the list has stopped exactly when there is one. */
  lemma {:induction false} RunPassesStopsLast(passes: seq<Pass>, cmds: seq<Command>, n: nat)
    requires AllShaped(passes, cmds) && n <= |cmds| && RunPasses(passes, n).Ok?
    ensures var (ev, stopped) := RunPasses(passes, n).value;
      && (forall k :: 0 <= k < |ev| && ev[k].Stopped? ==> k == |ev| - 1)
      && (stopped <==> ev != [] && ev[|ev| - 1].Stopped?)
  {
    if n > 0 {
      RunPassesStopsLast(passes, cmds, n - 1);
      assert PassShaped(passes[n - 1], n - 1, cmds[n - 1]);
      var prev := RunPasses(passes, n - 1).value;
      if !prev.1 && passes[n - 1].Ok? {
        var last := passes[n - 1].value.0;
        assert (prev.0 + last)[|prev.0 + last| - 1] == last[|last| - 1];
      }
    }
  }

  /** Command `j` has started. */
  predicate Started(ev: seq<Event>, j: nat) {
    exists k :: 0 <= k < |ev| && ev[k].Ran? && ev[k].index == j
  }

  /** A list that has not stopped has started every command. */
  lemma {:induction false} RunPassesStartsAll(passes: seq<Pass>, cmds: seq<Command>, n: nat)
    requires AllShaped(passes, cmds) && n <= |cmds| && RunPasses(passes, n).Ok? && !RunPasses(passes, n).value.1
    ensures var ev := RunPasses(passes, n).value.0;
      forall j :: 0 <= j < n ==> Started(ev, j)
  {
    if n > 0 {
      var prev := RunPasses(passes, n - 1).value;
      RunPassesStartsAll(passes, cmds, n - 1);
      assert PassShaped(passes[n - 1], n - 1, cmds[n - 1]);
      var ev := RunPasses(passes, n).value.0;
      var last := passes[n - 1].value.0;
      assert ev == prev.0 + last;
      assert ev[|prev.0|] == last[0];
      forall j | 0 <= j < n
        ensures Started(ev, j)
      {
        if j < n - 1 {
          assert Started(prev.0, j);
          var k :| 0 <= k < |prev.0| && prev.0[k].Ran? && prev.0[k].index == j;
          assert ev[k] == prev.0[k];
        } else {
          assert ev[|prev.0|].Ran? && ev[|prev.0|].index == j;
        }
      }
    }
  }

  lemma {:induction false} RunPassesTotal(passes: seq<Pass>, n: nat)
    requires n <= |passes| && forall i :: 0 <= i < n ==> passes[i].Ok?
    ensures RunPasses(passes, n).Ok?
  {
    if n > 0 { RunPassesTotal(passes, n - 1); }
  }

  /** Once the checks pass, no exception escapes the run: the list is
      bracketed by its two hooks. */
  lemma ExecuteBracketed(cmds: seq<Command>, ctx: Context)
    ensures cmds == [] ==> Execute(cmds, ctx) == Ok([])
    ensures cmds != [] && VerifyOutcome(cmds, ctx.limits, ctx.show).Some? ==>
      Execute(cmds, ctx) == Err(VerifyOutcome(cmds, ctx.limits, ctx.show).value)
    ensures cmds != [] && VerifyOutcome(cmds, ctx.limits, ctx.show).None? ==>
      && Execute(cmds, ctx).Ok?
      && var ev := Execute(cmds, ctx).value;
         |ev| >= 2 && ev[0] == BeforeCommandList && ev[|ev| - 1] == AfterCommandList
  {
    if cmds != [] && VerifyOutcome(cmds, ctx.limits, ctx.show).None? {
      CheckedActionsAreText(cmds, ctx.limits, ctx.show, |cmds|);
      var ps := Passes(cmds, ctx, |cmds|);
      forall i | 0 <= i < |cmds| ensures ps[i].Ok? {
        PassAt(cmds, ctx, |cmds|, i);
        StepShape(cmds[i], i, ctx);
      }
      RunPassesTotal(ps, |cmds|);
    }
  }

  /** Two commands that differ at most in the letter case of their action. */
  predicate CaseVariant(c: Command, c': Command)
  {
    && c' == c.(action := c'.action)
    && (c.action == c'.action || (c.action.Str? && c'.action.Str? && Lower(c.action.s) == Lower(c'.action.s)))
  }

  /** Two event lists that differ at most in the action text a `Ran` event
      records as written. */
  predicate SameUpToAction(es: seq<Event>, es': seq<Event>)
  {
    && |es| == |es'|
    && forall k :: 0 <= k < |es| ==>
         && (es[k].Ran? <==> es'[k].Ran?)
         && (es[k].Ran? ==> es'[k] == es[k].(action := es'[k].action))
         && (!es[k].Ran? ==> es'[k] == es[k])
  }

  /** Two passes that raise the same exception, or give events that differ
      at most in the recorded action text and agree on stopping. */
  predicate PassesMatch(p: Pass, p': Pass)
  {
    && (p.Err? <==> p'.Err?)
    && (p.Err? ==> p == p')
    && (p.Ok? ==> p.value.1 == p'.value.1 && SameUpToAction(p.value.0, p'.value.0))
  }

  /** Actions are matched without regard to case: a command whose action
      differs only in case runs the same handler with the same outcome. */
  lemma StepIgnoresCase(c: Command, c': Command, i: nat, ctx: Context)
    requires CaseVariant(c, c')
    ensures PassesMatch(Step(c, i, ctx), Step(c', i, ctx))
  {
  }

  /** The loop over the first `m` passes reads only those passes. */
  lemma {:induction false} RunPassesPrefix(ps: seq<Pass>, qs: seq<Pass>, m: nat)
    requires m <= |ps| && m <= |qs| && ps[..m] == qs[..m]
    ensures RunPasses(ps, m) == RunPasses(qs, m)
  {
    if m > 0 {
      assert ps[..m - 1] == ps[..m][..m - 1] && qs[..m - 1] == qs[..m][..m - 1];
      RunPassesPrefix(ps, qs, m - 1);
      assert ps[m - 1] == ps[..m][m - 1] && qs[m - 1] == qs[..m][m - 1];
    }
  }

  lemma SameUpToActionAppend(es: seq<Event>, es': seq<Event>, fs: seq<Event>, fs': seq<Event>)
    requires SameUpToAction(es, es') && SameUpToAction(fs, fs')
    ensures SameUpToAction(es + fs, es' + fs')
  {
    forall k | 0 <= k < |es + fs|
      ensures && ((es + fs)[k].Ran? <==> (es' + fs')[k].Ran?)
              && ((es + fs)[k].Ran? ==> (es' + fs')[k] == (es + fs)[k].(action := (es' + fs')[k].action))
              && (!(es + fs)[k].Ran? ==> (es' + fs')[k] == (es + fs)[k])
    {
      if k >= |es| {
        assert (es + fs)[k] == fs[k - |es|] && (es' + fs')[k] == fs'[k - |es|];
      }
    }
  }

  /** Over a whole list: lists whose commands differ only in the case of
      their actions run the same commands with the same outcomes. */
  lemma {:induction false} RunIgnoresCase(cmds: seq<Command>, cmds': seq<Command>, ctx: Context, n: nat)
    requires n <= |cmds| == |cmds'|
    requires forall i :: 0 <= i < |cmds| ==> CaseVariant(cmds[i], cmds'[i])
    ensures PassesMatch(RunPasses(Passes(cmds, ctx, n), n), RunPasses(Passes(cmds', ctx, n), n))
  {
    if n > 0 {
      RunIgnoresCase(cmds, cmds', ctx, n - 1);
      var ps := Passes(cmds, ctx, n);
      var ps' := Passes(cmds', ctx, n);
      assert ps[..n - 1] == Passes(cmds, ctx, n - 1);
      assert ps'[..n - 1] == Passes(cmds', ctx, n - 1);
      RunPassesPrefix(ps, Passes(cmds, ctx, n - 1), n - 1);
      RunPassesPrefix(ps', Passes(cmds', ctx, n - 1), n - 1);
      PassAt(cmds, ctx, n, n - 1);
      PassAt(cmds', ctx, n, n - 1);
      StepIgnoresCase(cmds[n - 1], cmds'[n - 1], n - 1, ctx);
      var prev := RunPasses(ps, n - 1);
      var prev' := RunPasses(ps', n - 1);
      if prev.Ok? && !prev.value.1 && ps[n - 1].Ok? {
        SameUpToActionAppend(prev.value.0, prev'.value.0, ps[n - 1].value.0, ps'[n - 1].value.0);
      }
    }
  }

  /** An action that is not a scan, `set` or one of the simple actions starts nothing. */
  lemma UnknownActionRunsNothing(action: string, args: seq<Cell>, ctx: Context)
    requires action !in ScanActionPlans && action != "set" && action !in SimpleActions
    ensures Dispatch(action, args, ctx) == Ok(NoHandling)
  {
  }

  /** One pass of the loop body of `execute_command_list`; the retry loop,
      bounded by MAXIMUM_ATTEMPTS = 1, makes a single attempt. */
  method RunCommand(cmds: seq<Command>, i: nat, ctx: Context) returns (r: Pass)
    requires i < |cmds|
    ensures r == Passes(cmds, ctx, |cmds|)[i]
  {
    PassAt(cmds, ctx, |cmds|, i);
    var c := cmds[i];
    if !c.action.Str? {
      return Err(AttributeError);
    }
    var action := Lower(c.action.s);
    var handler := Dispatch(action, c.args, ctx);
    if handler.Err? {
      return Ok(([Stopped(i, Some(handler.error))], true));
    }
    var ran := Ran(i, c.line, c.action, handler.value);
    if !RunsPlan(handler.value) {
      return Ok(([ran], false));
    }
    match ctx.outcome(i)
    case Completed =>
      r := Ok(([ran], false));
    case Raised(e) =>
      r := Ok(([ran, Stopped(i, Some(e))], true));
    case AbortRequested =>
      r := Ok(([ran, Stopped(i, None)], true));
  }

  /** The loop of `execute_command_list`: commands in order until one asks to stop. */
  method RunCommands(cmds: seq<Command>, ctx: Context) returns (r: Pass)
    ensures r == RunPasses(Passes(cmds, ctx, |cmds|), |cmds|)
  {
    ghost var ps := Passes(cmds, ctx, |cmds|);
    var events: seq<Event> := [];
    var i := 0;
    while i < |cmds|
      invariant i <= |cmds|
      invariant RunPasses(ps, i) == Ok((events, false))
    {
      var step := RunCommand(cmds, i, ctx);
      if step.Err? {
        RunPassesSettled(ps, i + 1, |cmds|);
        return step;
      }
      events := events + step.value.0;
      if step.value.1 {
        RunPassesSettled(ps, i + 1, |cmds|);
        return Ok((events, true));
      }
      i := i + 1;
    }
    r := Ok((events, false));
  }

  /** `execute_command_list`. */
  method ExecuteCommandList(cmds: seq<Command>, ctx: Context) returns (r: Result<seq<Event>>)
    ensures r == Execute(cmds, ctx)
  {
    if |cmds| == 0 {
      return Ok([]);
    }
    var failure := VerifyCommands(cmds, ctx.limits, ctx.show);
    if failure.Some? {
      return Err(failure.value);
    }
    var run := RunCommands(cmds, ctx);
    if run.Err? {
      return Err(run.error);
    }
    r := Ok([BeforeCommandList] + run.value.0 + [AfterCommandList]);
  }

  /** `sync_order_numbers`: the order number every detector is set to. */
  function SyncOrderNumbers(flyScan: int, saxsFile: int, waxsFile: int): (n: int)
    ensures n >= flyScan && n >= saxsFile && n >= waxsFile
    ensures n == flyScan || n == saxsFile || n == waxsFile
  {
    if flyScan >= saxsFile && flyScan >= waxsFile then flyScan
    else if saxsFile >= waxsFile then saxsFile
    else waxsFile
  }
}
