/**
 Quoting arguments for a Windows command line, and the documented rules by which a program splits
 that line back into arguments.
 */
module WindowsQuoting {
  predicate IsBlank(c: char) {
    c == ' ' || c == '\t'
  }

  function Slashes(n: nat): (s: string)
    ensures |s| == n && forall i | 0 <= i < n :: s[i] == '\\'
  {
    if n == 0 then [] else ['\\'] + Slashes(n - 1)
  }

  // ----- the printer -----

  predicate NeedsQuotes(value: string) {
    value == [] || exists i | 0 <= i < |value| :: IsBlank(value[i]) || value[i] == '"'
  }

  /** What is written after the opening quote for `value`, with `k` backslashes still held back. */
  function QuoteBody(value: string, k: nat): string {
    if value == [] then Slashes(2 * k) + "\""
    else if value[0] == '\\' then QuoteBody(value[1..], k + 1)
    else if value[0] == '"' then Slashes(2 * k + 1) + "\"" + QuoteBody(value[1..], 0)
    else Slashes(k) + [value[0]] + QuoteBody(value[1..], 0)
  }

  function Quote(value: string): string {
    if NeedsQuotes(value) then "\"" + QuoteBody(value, 0) else value
  }

  /** The arguments, each behind a space. */
  function JoinArguments(args: seq<string>): string {
    if args == [] then [] else " " + Quote(args[0]) + JoinArguments(args[1..])
  }

  function CommandLine(program: string, args: seq<string>): string {
    Quote(program) + JoinArguments(args)
  }

  method QuoteLoop(value: string) returns (out: string)
    ensures out == Quote(value)
  {
    var special := HasSpecial(value);
    if value != [] && !special {
      return value;
    }
    out := "\"";
    var backslashes := 0;
    assert value[0..] == value;
    for i := 0 to |value|
      invariant out + QuoteBody(value[i..], backslashes) == "\"" + QuoteBody(value, 0)
    {
      var ch := value[i];
      assert value[i..][1..] == value[i + 1..];
      if ch == '\\' {
        backslashes := backslashes + 1;
      } else if ch == '"' {
        assert out + (Slashes(backslashes * 2 + 1) + "\"" + QuoteBody(value[i + 1..], 0))
            == (out + Slashes(backslashes * 2 + 1) + "\"") + QuoteBody(value[i + 1..], 0);
        out := out + Slashes(backslashes * 2 + 1) + "\"";
        backslashes := 0;
      } else {
        assert out + (Slashes(backslashes) + [ch] + QuoteBody(value[i + 1..], 0))
            == (out + Slashes(backslashes) + [ch]) + QuoteBody(value[i + 1..], 0);
        out := out + Slashes(backslashes) + [ch];
        backslashes := 0;
      }
    }
    out := out + Slashes(backslashes * 2) + "\"";
  }

  method HasSpecial(value: string) returns (r: bool)
    ensures r <==> exists i | 0 <= i < |value| :: IsBlank(value[i]) || value[i] == '"'
  {
    for i := 0 to |value|
      invariant forall j | 0 <= j < i :: !(IsBlank(value[j]) || value[j] == '"')
    {
      if IsBlank(value[i]) || value[i] == '"' {
        return true;
      }
    }
    return false;
  }

  method CommandLineLoop(program: string, args: seq<string>) returns (line: string)
    ensures line == CommandLine(program, args)
  {
    line := QuoteLoop(program);
    assert args[0..] == args;
    for i := 0 to |args|
      invariant line + JoinArguments(args[i..]) == CommandLine(program, args)
    {
      var quoted := QuoteLoop(args[i]);
      assert args[i..][1..] == args[i + 1..];
      assert line + (" " + quoted + JoinArguments(args[i + 1..])) == (line + " " + quoted) + JoinArguments(args[i + 1..]);
      line := line + " " + quoted;
    }
  }

  // ----- the splitter -----

  datatype Piece = Piece(argument: string, rest: string)

  function Before(front: string, p: Piece): Piece {
    Piece(front + p.argument, p.rest)
  }

  /**
   One argument, from inside or outside quotes, with `k` backslashes read but not yet interpreted. Backslashes count
   only before a quote: half of them stand for themselves, and an odd one makes the quote literal; otherwise the quote
   opens or closes. With `doubling`, two quotes inside quotes are one literal quote, as newer C runtimes have it.
   */
  function ReadArgument(s: string, inQuotes: bool, k: nat, doubling: bool): Piece
    decreases |s|
  {
    if s == [] then Piece(Slashes(k), [])
    else if s[0] == '\\' then ReadArgument(s[1..], inQuotes, k + 1, doubling)
    else if s[0] == '"' then
      if k % 2 == 1 then Before(Slashes(k / 2) + "\"", ReadArgument(s[1..], inQuotes, 0, doubling))
      else if doubling && inQuotes && |s| > 1 && s[1] == '"'
      then Before(Slashes(k / 2) + "\"", ReadArgument(s[2..], inQuotes, 0, doubling))
      else Before(Slashes(k / 2), ReadArgument(s[1..], !inQuotes, 0, doubling))
    else if !inQuotes && IsBlank(s[0]) then Piece(Slashes(k), s)
    else Before(Slashes(k) + [s[0]], ReadArgument(s[1..], inQuotes, 0, doubling))
  }

  lemma {:induction false} RestIsShorter(s: string, inQuotes: bool, k: nat, doubling: bool)
    ensures |ReadArgument(s, inQuotes, k, doubling).rest| <= |s|
    ensures ReadArgument(s, inQuotes, k, doubling).rest != [] ==> IsBlank(ReadArgument(s, inQuotes, k, doubling).rest[0])
    decreases |s|
  {
    if s != [] {
      RestIsShorter(s[1..], inQuotes, k + 1, doubling);
      RestIsShorter(s[1..], inQuotes, 0, doubling);
      RestIsShorter(s[1..], !inQuotes, 0, doubling);
      if |s| > 1 {
        RestIsShorter(s[2..], inQuotes, 0, doubling);
      }
    }
  }

  /** The arguments behind the program name, separated by blanks. */
  function SplitArguments(s: string, doubling: bool): seq<string>
    decreases |s|
  {
    if s == [] then []
    else if IsBlank(s[0]) then SplitArguments(s[1..], doubling)
    else
      RestIsShorter(s, false, 0, doubling);
      var p := ReadArgument(s, false, 0, doubling);
      if |p.rest| < |s| then [p.argument] + SplitArguments(p.rest, doubling) else [p.argument]
  }

  function UpToQuote(s: string): Piece {
    if s == [] then Piece([], [])
    else if s[0] == '"' then Piece([], s[1..])
    else Before([s[0]], UpToQuote(s[1..]))
  }

  function UpToBlank(s: string): Piece {
    if s == [] || IsBlank(s[0]) then Piece([], s) else Before([s[0]], UpToBlank(s[1..]))
  }

  /** The program name knows no escapes: a quoted one ends at the next quote, an unquoted one at a blank. */
  function ReadProgram(line: string): Piece {
    if line != [] && line[0] == '"' then UpToQuote(line[1..]) else UpToBlank(line)
  }

  function ArgumentsOf(line: string, doubling: bool): seq<string> {
    SplitArguments(ReadProgram(line).rest, doubling)
  }

  // ----- reading back what was quoted -----

  predicate Separated(tail: string) {
    tail == [] || IsBlank(tail[0])
  }

  lemma {:induction false} ReadSlashes(n: nat, s: string, inQuotes: bool, k: nat, doubling: bool)
    ensures ReadArgument(Slashes(n) + s, inQuotes, k, doubling) == ReadArgument(s, inQuotes, k + n, doubling)
  {
    if n == 0 {
      assert Slashes(n) + s == s;
    } else {
      assert (Slashes(n) + s)[1..] == Slashes(n - 1) + s;
      ReadSlashes(n - 1, s, inQuotes, k + 1, doubling);
    }
  }

  lemma SlashesJoin(m: nat, n: nat)
    ensures Slashes(m) + Slashes(n) == Slashes(m + n)
  {
  }

  /** Closing: doubled backslashes come back single, and the quote ends the argument. */
  lemma ReadClosing(k: nat, tail: string, doubling: bool)
    requires Separated(tail)
    ensures ReadArgument(Slashes(2 * k) + "\"" + tail, true, 0, doubling) == Piece(Slashes(k), tail)
  {
    var s := "\"" + tail;
    assert Slashes(2 * k) + "\"" + tail == Slashes(2 * k) + s;
    ReadSlashes(2 * k, s, true, 0, doubling);
    assert s[1..] == tail;
    assert ReadArgument(tail, false, 0, doubling) == Piece([], tail);
    assert Slashes(k) + [] == Slashes(k);
  }

  /** An escaped quote comes back literal. */
  lemma ReadEscapedQuote(k: nat, s: string, doubling: bool)
    ensures ReadArgument(Slashes(2 * k + 1) + "\"" + s, true, 0, doubling)
         == Before(Slashes(k) + "\"", ReadArgument(s, true, 0, doubling))
  {
    var q := "\"" + s;
    assert Slashes(2 * k + 1) + "\"" + s == Slashes(2 * k + 1) + q;
    ReadSlashes(2 * k + 1, q, true, 0, doubling);
    assert q[1..] == s;
  }

  lemma ReadPlain(k: nat, c: char, s: string, doubling: bool)
    requires c != '\\' && c != '"'
    ensures ReadArgument(Slashes(k) + [c] + s, true, 0, doubling) == Before(Slashes(k) + [c], ReadArgument(s, true, 0, doubling))
  {
    var q := [c] + s;
    assert Slashes(k) + [c] + s == Slashes(k) + q;
    ReadSlashes(k, q, true, 0, doubling);
    assert q[1..] == s;
  }

  lemma OneMoreSlash(k: nat, rest: string)
    ensures Slashes(k + 1) + rest == Slashes(k) + ("\\" + rest)
  {
    SlashesJoin(k, 1);
    assert Slashes(0) == "" && Slashes(1) == "\\";
  }

  lemma BeforePiece(front: string, k: nat, c: char, rest: string, tail: string)
    requires front == Slashes(k) + [c]
    ensures Before(front, Piece(rest, tail)) == Piece(Slashes(k) + ([c] + rest), tail)
  {
    assert front + rest == Slashes(k) + ([c] + rest);
  }

  lemma QuotedBody(rest: string, k: nat, tail: string)
    ensures QuoteBody(['"'] + rest, k) + tail == Slashes(2 * k + 1) + "\"" + (QuoteBody(rest, 0) + tail)
  {
    assert (['"'] + rest)[1..] == rest;
  }

  lemma ReadStepQuote(rest: string, k: nat, tail: string, doubling: bool)
    requires ReadArgument(QuoteBody(rest, 0) + tail, true, 0, doubling) == Piece(rest, tail)
    ensures ReadArgument(QuoteBody(['"'] + rest, k) + tail, true, 0, doubling) == Piece(Slashes(k) + (['"'] + rest), tail)
  {
    QuotedBody(rest, k, tail);
    ReadEscapedQuote(k, QuoteBody(rest, 0) + tail, doubling);
    BeforePiece(Slashes(k) + "\"", k, '"', rest, tail);
  }

  lemma PlainBody(c: char, rest: string, k: nat, tail: string)
    requires c != '\\' && c != '"'
    ensures QuoteBody([c] + rest, k) + tail == Slashes(k) + [c] + (QuoteBody(rest, 0) + tail)
  {
    assert ([c] + rest)[1..] == rest;
  }

  lemma ReadStepPlain(c: char, rest: string, k: nat, tail: string, doubling: bool)
    requires c != '\\' && c != '"' && ReadArgument(QuoteBody(rest, 0) + tail, true, 0, doubling) == Piece(rest, tail)
    ensures ReadArgument(QuoteBody([c] + rest, k) + tail, true, 0, doubling) == Piece(Slashes(k) + ([c] + rest), tail)
  {
    PlainBody(c, rest, k, tail);
    ReadPlain(k, c, QuoteBody(rest, 0) + tail, doubling);
    BeforePiece(Slashes(k) + [c], k, c, rest, tail);
  }

  /** Inside the quotes, what was printed for a value reads back as the value. */
  lemma {:induction false} ReadQuoted(value: string, k: nat, tail: string, doubling: bool)
    requires Separated(tail)
    ensures ReadArgument(QuoteBody(value, k) + tail, true, 0, doubling) == Piece(Slashes(k) + value, tail)
    decreases |value|
  {
    if value == [] {
      ReadClosing(k, tail, doubling);
      assert Slashes(k) + value == Slashes(k);
    } else {
      var rest := value[1..];
      assert value == [value[0]] + rest;
      if value[0] == '\\' {
        ReadQuoted(rest, k + 1, tail, doubling);
        OneMoreSlash(k, rest);
      } else {
        ReadQuoted(rest, 0, tail, doubling);
        assert Slashes(0) + rest == rest;
        if value[0] == '"' {
          ReadStepQuote(rest, k, tail, doubling);
        } else {
          ReadStepPlain(value[0], rest, k, tail, doubling);
        }
      }
    }
  }

  lemma {:induction false} ReadUnquoted(value: string, k: nat, tail: string, doubling: bool)
    requires forall i | 0 <= i < |value| :: !IsBlank(value[i]) && value[i] != '"'
    requires Separated(tail)
    ensures ReadArgument(value + tail, false, k, doubling) == Piece(Slashes(k) + value, tail)
    decreases |value|
  {
    if value == [] {
      assert value + tail == tail;
      assert Slashes(k) + value == Slashes(k);
    } else {
      var c, rest := value[0], value[1..];
      assert value == [c] + rest && (value + tail)[1..] == rest + tail;
      if c == '\\' {
        ReadUnquoted(rest, k + 1, tail, doubling);
        OneMoreSlash(k, rest);
      } else {
        ReadUnquoted(rest, 0, tail, doubling);
        assert Slashes(0) + rest == rest;
        assert Slashes(k) + [c] + rest == Slashes(k) + value;
      }
    }
  }

  /** One quoted argument reads back as itself, up to the blank behind it. */
  lemma ReadQuote(value: string, tail: string, doubling: bool)
    requires Separated(tail)
    ensures ReadArgument(Quote(value) + tail, false, 0, doubling) == Piece(value, tail)
  {
    if NeedsQuotes(value) {
      var s := Quote(value) + tail;
      assert s[1..] == QuoteBody(value, 0) + tail;
      ReadQuoted(value, 0, tail, doubling);
      assert Slashes(0) + value == value;
    } else {
      ReadUnquoted(value, 0, tail, doubling);
      assert Slashes(0) + value == value;
    }
  }

  lemma JoinIsSeparated(args: seq<string>)
    ensures Separated(JoinArguments(args))
  {
  }

  lemma QuoteStarts(value: string)
    ensures Quote(value) != [] && !IsBlank(Quote(value)[0])
  {
  }

  lemma {:induction false} SplitJoined(args: seq<string>, doubling: bool)
    ensures SplitArguments(JoinArguments(args), doubling) == args
  {
    if args != [] {
      var s := JoinArguments(args);
      var tail := JoinArguments(args[1..]);
      var quoted := Quote(args[0]) + tail;
      assert s[1..] == quoted;
      QuoteStarts(args[0]);
      JoinIsSeparated(args[1..]);
      ReadQuote(args[0], tail, doubling);
      SplitJoined(args[1..], doubling);
      assert args == [args[0]] + args[1..];
    }
  }

  // ----- the program name -----

  lemma OrdinaryByte(c: char, k: nat, body: string, tail: string)
    requires c != '"'
    ensures UpToQuote(Slashes(k) + [c] + body + tail).rest == UpToQuote(body + tail).rest
  {
    SkipSlashes(k, [c] + (body + tail));
    assert Slashes(k) + [c] + body + tail == Slashes(k) + ([c] + (body + tail));
    assert ([c] + (body + tail))[1..] == body + tail;
  }

  lemma {:induction false} BodyWithoutQuotes(program: string, k: nat, tail: string)
    requires '"' !in program
    ensures UpToQuote(QuoteBody(program, k) + tail).rest == tail
  {
    if program == [] {
      SkipSlashes(2 * k, "\"" + tail);
      assert QuoteBody(program, k) + tail == Slashes(2 * k) + ("\"" + tail);
      assert ("\"" + tail)[1..] == tail;
    } else if program[0] == '\\' {
      BodyWithoutQuotes(program[1..], k + 1, tail);
    } else {
      BodyWithoutQuotes(program[1..], 0, tail);
      OrdinaryByte(program[0], k, QuoteBody(program[1..], 0), tail);
    }
  }

  lemma {:induction false} SkipSlashes(n: nat, s: string)
    ensures UpToQuote(Slashes(n) + s).rest == UpToQuote(s).rest
  {
    if n == 0 {
      assert Slashes(n) + s == s;
    } else {
      assert (Slashes(n) + s)[1..] == Slashes(n - 1) + s;
      SkipSlashes(n - 1, s);
    }
  }

  lemma {:induction false} BlankAfter(program: string, tail: string)
    requires forall i | 0 <= i < |program| :: !IsBlank(program[i])
    requires Separated(tail)
    ensures UpToBlank(program + tail).rest == tail
  {
    if program == [] {
      assert program + tail == tail;
    } else {
      assert (program + tail)[1..] == program[1..] + tail;
      BlankAfter(program[1..], tail);
    }
  }

  lemma ProgramIsSkipped(program: string, tail: string)
    requires '"' !in program && Separated(tail)
    ensures ReadProgram(Quote(program) + tail).rest == tail
  {
    if NeedsQuotes(program) {
      assert (Quote(program) + tail)[1..] == QuoteBody(program, 0) + tail;
      BodyWithoutQuotes(program, 0, tail);
    } else {
      BlankAfter(program, tail);
    }
  }

  /**
   Splitting the joined command line returns the arguments exactly as given, for every list of arguments and under
   either treatment of doubled quotes, provided the program name holds no quote.
   */
  lemma ArgumentsSurvive(program: string, args: seq<string>, doubling: bool)
    requires '"' !in program
    ensures ArgumentsOf(CommandLine(program, args), doubling) == args
  {
    JoinIsSeparated(args);
    ProgramIsSkipped(program, JoinArguments(args));
    SplitJoined(args, doubling);
  }

  // ----- a quote in the program name -----

  lemma {:induction false} NonBlankEndIsSomeArgument(s: string, doubling: bool)
    requires s != [] && !IsBlank(s[|s| - 1])
    ensures SplitArguments(s, doubling) != []
  {
    if IsBlank(s[0]) {
      NonBlankEndIsSomeArgument(s[1..], doubling);
    }
  }

  lemma {:induction false} BodyEndsInQuote(value: string, k: nat)
    ensures QuoteBody(value, k) != [] && QuoteBody(value, k)[|QuoteBody(value, k)| - 1] == '"'
    decreases |value|
  {
    if value != [] {
      BodyEndsInQuote(value[1..], if value[0] == '\\' then k + 1 else 0);
    }
  }

  /** After the first quote of a program name, the rest of its printed form still ends in a quote. */
  lemma {:induction false} QuoteEndsProgramEarly(program: string, k: nat)
    requires '"' in program
    ensures var rest := UpToQuote(QuoteBody(program, k)).rest;
            rest != [] && rest[|rest| - 1] == '"'
    decreases |program|
  {
    var later := program[1..];
    StopsOrPasses(program, k);
    if program[0] == '"' {
      BodyEndsInQuote(later, 0);
    } else {
      assert '"' in later;
      QuoteEndsProgramEarly(later, if program[0] == '\\' then k + 1 else 0);
    }
  }

  /** A program name ends at the quote a character is printed with, and goes on past any other. */
  lemma StopsOrPasses(program: string, k: nat)
    requires program != []
    ensures var c, later := program[0], program[1..];
            UpToQuote(QuoteBody(program, k)).rest
            == if c == '"' then QuoteBody(later, 0) else UpToQuote(QuoteBody(later, if c == '\\' then k + 1 else 0)).rest
  {
    var c, body := program[0], QuoteBody(program[1..], 0);
    if c != '\\' {
      var slashes := if c == '"' then 2 * k + 1 else k;
      assert QuoteBody(program, k) == Slashes(slashes) + ([c] + body);
      SkipSlashes(slashes, [c] + body);
      assert ([c] + body)[1..] == body;
    }
  }

  /** Behind a program name with a quote, even the empty list comes out as some argument. */
  lemma QuoteLeavesArgument(program: string, doubling: bool)
    requires '"' in program
    ensures ArgumentsOf(CommandLine(program, []), doubling) != []
  {
    QuotedAlone(program);
    QuoteEndsProgramEarly(program, 0);
    NonBlankEndIsSomeArgument(ReadProgram(CommandLine(program, [])).rest, doubling);
  }

  lemma QuotedAlone(program: string)
    requires '"' in program
    ensures var line := CommandLine(program, []);
            line != [] && line[0] == '"' && line[1..] == QuoteBody(program, 0)
  {
    var i :| 0 <= i < |program| && program[i] == '"';
    assert NeedsQuotes(program);
  }

  /** The arguments survive for every list exactly when the program name holds no quote. */
  lemma ArgumentsSurviveExactly(program: string, doubling: bool)
    ensures (forall args :: ArgumentsOf(CommandLine(program, args), doubling) == args) <==> '"' !in program
  {
    if '"' !in program {
      forall args ensures ArgumentsOf(CommandLine(program, args), doubling) == args {
        ArgumentsSurvive(program, args, doubling);
      }
    } else {
      QuoteLeavesArgument(program, doubling);
    }
  }
}
