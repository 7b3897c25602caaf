/** The burn share a commit carries, read from its transaction's log
    (webapp/backend/shared/burn_memo.py). */
module BurnMemo {
  import opened Solana

  // --- Reading text -----------------------------------------------------------------------

  predicate StartsWith(s: string, prefix: string) {
    |prefix| <= |s| && s[..|prefix|] == prefix
  }

  /** How many characters of `s` from the start are of a kind. */
  function Run(s: string, kind: char -> bool): (n: nat)
    ensures n <= |s| && forall i | 0 <= i < n :: kind(s[i])
    ensures n < |s| ==> !kind(s[n])
  {
    if s == [] || !kind(s[0]) then 0 else 1 + Run(s[1..], kind)
  }

  lemma {:induction false} RunOf(a: string, b: string, kind: char -> bool)
    requires forall i | 0 <= i < |a| :: kind(a[i])
    requires b == [] || !kind(b[0])
    ensures Run(a + b, kind) == |a|
  {
    if a == [] {
      assert a + b == b;
    } else {
      assert (a + b)[1..] == a[1..] + b;
      RunOf(a[1..], b, kind);
    }
  }

  function IsDigit(): char -> bool { c => '0' <= c <= '9' }

  /** A base58 character. */
  function IsIdChar(): char -> bool {
    c => '1' <= c <= '9' || ('A' <= c <= 'Z' && c != 'I' && c != 'O') || ('a' <= c <= 'z' && c != 'l')
  }

  predicate IsProgramId(id: string) {
    32 <= |id| <= 44 && forall i | 0 <= i < |id| :: IsIdChar()(id[i])
  }

  predicate AllDigits(s: string) {
    forall i | 0 <= i < |s| :: IsDigit()(s[i])
  }

  function Value(digits: string): nat
    requires AllDigits(digits)
  {
    if digits == [] then 0
    else 10 * Value(digits[..|digits| - 1]) + (digits[|digits| - 1] as int - '0' as int)
  }

  function Digits(n: nat): (s: string)
    ensures s != [] && AllDigits(s)
  {
    var last := [('0' as int + n % 10) as char];
    if n < 10 then last else Digits(n / 10) + last
  }

  lemma {:induction false} DigitsReadBack(n: nat)
    ensures Value(Digits(n)) == n
  {
    var s := Digits(n);
    if n >= 10 {
      DigitsReadBack(n / 10);
      assert s[..|s| - 1] == Digits(n / 10);
    } else {
      assert s[..0] == [];
    }
  }

  predicate OneLine(s: string) {
    '\n' !in s
  }

  /** The end of a line as the patterns see it: one line break at the very end does not
      count. */
  function Chomped(line: string): string {
    if line != [] && line[|line| - 1] == '\n' then line[..|line| - 1] else line
  }

  // --- The lines of the log -----------------------------------------------------------------

  const PROGRAM: string := "Program "
  const INVOKE: string := " invoke ["
  const SUCCESS: string := " success"
  const FAILED: string := " failed"
  const LOG: string := "Program log: "
  const MEMO_HEAD: string := "Memo (len "
  const MEMO_LOG: string := LOG + MEMO_HEAD
  const MEMO_TEXT: string := "): \""
  const TRUNCATED: string := "Log truncated"

  /** "Program <id> invoke [<depth>]" */
  function ParseInvoke(raw: string): Option<(string, nat)> {
    var line := Chomped(raw);
    if !StartsWith(line, PROGRAM) then None
    else
      var rest := line[|PROGRAM|..];
      var n := Run(rest, IsIdChar());
      var tail := rest[n..];
      if n < 32 || n > 44 || !StartsWith(tail, INVOKE) then None
      else
        var depth := tail[|INVOKE|..];
        var k := Run(depth, IsDigit());
        if k == 0 || depth[k..] != "]" then None
        else Some((rest[..n], Value(depth[..k])))
  }

  /** "Program <id> success" or "Program <id> failed..." */
  function ParseExit(raw: string): Option<string> {
    var line := Chomped(raw);
    if !StartsWith(line, PROGRAM) then None
    else
      var rest := line[|PROGRAM|..];
      var n := Run(rest, IsIdChar());
      var tail := rest[n..];
      if n < 32 || n > 44 then None
      else if tail == SUCCESS || (StartsWith(tail, FAILED) && OneLine(tail)) then Some(rest[..n])
      else None
  }

  /** "Program log: Memo (len <n>): "<text>"" */
  function ParseMemo(raw: string): Option<(nat, string)> {
    var line := Chomped(raw);
    if !StartsWith(line, MEMO_LOG) then None else ParseLength(line[|MEMO_LOG|..])
  }

  function ParseLength(rest: string): Option<(nat, string)> {
    var k := Run(rest, IsDigit());
    var text := ParseQuoted(rest[k..]);
    if k == 0 || text.None? then None else Some((Value(rest[..k]), text.value))
  }

  function ParseQuoted(tail: string): Option<string> {
    if !StartsWith(tail, MEMO_TEXT) then None
    else
      var text := tail[|MEMO_TEXT|..];
      if text == [] || text[|text| - 1] != '\"' || !OneLine(text) then None
      else Some(text[..|text| - 1])
  }

  /** The length of a text in UTF-8. */
  function Utf8Length(text: string): nat {
    if text == [] then 0
    else
      var c := text[|text| - 1] as int;
      Utf8Length(text[..|text| - 1]) + if c < 0x80 then 1 else if c < 0x800 then 2 else if c < 0x1_0000 then 3 else 4
  }

  /** The text of a memo line whose length adds up. */
  function MemoOf(line: string): Option<string> {
    match ParseMemo(line)
    case None => None
    case Some(memo) => if memo.0 == Utf8Length(memo.1) then Some(memo.1) else None
  }

  // --- Reading the log ------------------------------------------------------------------------

  const MEMO_PROGRAM_ID: string := "MemoSq4gqABAXKb96qnH8TysNcWxMyWCqXgDLGmfcHr"

  /** What has been read: the memos so far and the programs being run, or a log that
      cannot be trusted. */
  datatype Reader = Reading(memos: seq<string>, stack: seq<string>) | Distrusted

  function ReadLine(r: Reader, line: string): Reader {
    match r
    case Distrusted => Distrusted
    case Reading(memos, stack) =>
      if StartsWith(line, TRUNCATED) then Distrusted
      else
        var invoke := ParseInvoke(line);
        if invoke.Some? then
          if invoke.value.1 != |stack| + 1 then Distrusted else Reading(memos, stack + [invoke.value.0])
        else
          var left := ParseExit(line);
          if left.Some? then
            if stack == [] || stack[|stack| - 1] != left.value then Distrusted else Reading(memos, stack[..|stack| - 1])
          else if stack == [MEMO_PROGRAM_ID] && MemoOf(line).Some? then Reading(memos + [MemoOf(line).value], stack)
          else r
  }

  function ReadAll(r: Reader, lines: seq<string>): Reader {
    if lines == [] then r else ReadLine(ReadAll(r, lines[..|lines| - 1]), lines[|lines| - 1])
  }

  method TopLevelMemos(logs: seq<string>) returns (memos: Option<seq<string>>)
    ensures memos == match ReadAll(Reading([], []), logs) case Distrusted => None case Reading(found, _) => Some(found)
  {
    var found: seq<string>, stack: seq<string> := [], [];
    for i := 0 to |logs|
      invariant ReadAll(Reading([], []), logs[..i]) == Reading(found, stack)
    {
      assert logs[..i + 1][..i] == logs[..i];
      var line := logs[i];
      if StartsWith(line, TRUNCATED) { Untrusted(logs, i + 1); return None; }
      var invoke := ParseInvoke(line);
      if invoke.Some? {
        if invoke.value.1 != |stack| + 1 { Untrusted(logs, i + 1); return None; }
        stack := stack + [invoke.value.0];
        continue;
      }
      var left := ParseExit(line);
      if left.Some? {
        if stack == [] || stack[|stack| - 1] != left.value { Untrusted(logs, i + 1); return None; }
        stack := stack[..|stack| - 1];
        continue;
      }
      if |stack| == 1 && stack[0] == MEMO_PROGRAM_ID {
        var memo := MemoOf(line);
        if memo.Some? {
          found := found + [memo.value];
        }
      }
    }
    assert logs[..|logs|] == logs;
    memos := Some(found);
  }

  lemma {:induction false} Untrusted(logs: seq<string>, n: nat)
    requires n <= |logs| && ReadAll(Reading([], []), logs[..n]) == Distrusted
    ensures ReadAll(Reading([], []), logs) == Distrusted
    decreases |logs|
  {
    if n == |logs| {
      assert logs[..n] == logs;
    } else {
      assert logs[..|logs| - 1][..n] == logs[..n];
      Untrusted(logs[..|logs| - 1], n);
    }
  }

  // --- What a transaction logs -------------------------------------------------------------------

  datatype Ending = Success | FailedWith(reason: string)

  /** What happens inside a program's run, in order: it logs a text, the runtime notes
      something about it, or it calls another program. */
  datatype Trace =
    | End
    | Log(text: string, next: Trace)
    | Noted(line: string, next: Trace)
    | Call(program: string, body: Trace, ending: Ending, next: Trace)

  /** A line that opens no frame, closes none and is no memo. */
  predicate Neutral(line: string) {
    ParseInvoke(line).None? && ParseExit(line).None? && !StartsWith(line, TRUNCATED) && MemoOf(line).None?
  }

  /** Programs have ids, what the runtime says of a failure is one line, and what else
      it notes is neither a frame nor a memo (see `RuntimeLinesAreNeutral`). */
  predicate ValidTrace(t: Trace) {
    match t
    case End => true
    case Log(_, next) => ValidTrace(next)
    case Noted(line, next) => Neutral(line) && ValidTrace(next)
    case Call(program, body, ending, next) =>
      IsProgramId(program) && ValidTrace(body) && ValidTrace(next) && (ending.FailedWith? ==> OneLine(ending.reason))
  }

  function InvokeLine(program: string, depth: nat): string { PROGRAM + program + INVOKE + Digits(depth) + "]" }

  function ExitLine(program: string, ending: Ending): string {
    PROGRAM + program + match ending case Success => SUCCESS case FailedWith(reason) => FAILED + reason
  }

  function LogLine(text: string): string { LOG + text }

  function Render(t: Trace, depth: nat): seq<string> {
    match t
    case End => []
    case Log(text, next) => [LogLine(text)] + Render(next, depth)
    case Noted(line, next) => [line] + Render(next, depth)
    case Call(program, body, ending, next) =>
      [InvokeLine(program, depth)] + Render(body, depth + 1) + [ExitLine(program, ending)] + Render(next, depth)
  }

  /** The memos among the texts logged in a run itself, not in the runs it calls. */
  function DirectMemos(t: Trace): seq<string> {
    match t
    case End => []
    case Log(text, next) => (if MemoOf(LogLine(text)).Some? then [MemoOf(LogLine(text)).value] else [])
      + DirectMemos(next)
    case Noted(_, next) => DirectMemos(next)
    case Call(_, _, _, next) => DirectMemos(next)
  }

  /** The memos of a transaction: those logged directly by the memo program, run at the
      top level. */
  function TopMemos(t: Trace): seq<string> {
    match t
    case End => []
    case Log(_, next) => TopMemos(next)
    case Noted(_, next) => TopMemos(next)
    case Call(program, body, _, next) => (if program == MEMO_PROGRAM_ID then DirectMemos(body) else []) + TopMemos(next)
  }

  // --- Lines are what they are ----------------------------------------------------------------

  lemma AfterPrefix(prefix: string, rest: string)
    ensures StartsWith(prefix + rest, prefix) && (prefix + rest)[|prefix|..] == rest
  {
  }

  lemma PrefixAt(s: string, prefix: string, k: nat)
    requires k < |prefix|
    ensures StartsWith(s, prefix) ==> k < |s| && s[k] == prefix[k]
  {
    assert StartsWith(s, prefix) ==> s[..|prefix|][k] == s[k];
  }

  lemma NotTruncated(line: string)
    requires StartsWith(line, PROGRAM)
    ensures !StartsWith(line, TRUNCATED)
  {
    PrefixAt(line, PROGRAM, 0);
    PrefixAt(line, TRUNCATED, 0);
  }

  /** A line is "Program ", an id and a tail that starts with no base58 character. */
  lemma IdReadsBack(program: string, tail: string)
    requires IsProgramId(program) && tail != [] && !IsIdChar()(tail[0]) && tail[|tail| - 1] != '\n'
    ensures var line := PROGRAM + program + tail; var rest := line[|PROGRAM|..];
            && Chomped(line) == line && StartsWith(line, PROGRAM) && !StartsWith(line, TRUNCATED)
            && Run(rest, IsIdChar()) == |program| && rest[..|program|] == program && rest[|program|..] == tail
  {
    var line := PROGRAM + program + tail;
    assert line == PROGRAM + (program + tail);
    AfterPrefix(PROGRAM, program + tail);
    RunOf(program, tail, IsIdChar());
    assert (program + tail)[|program|..] == tail && (program + tail)[..|program|] == program;
    NotTruncated(line);
  }

  lemma InvokeReadsBack(program: string, depth: nat)
    requires IsProgramId(program)
    ensures ParseInvoke(InvokeLine(program, depth)) == Some((program, depth))
    ensures !StartsWith(InvokeLine(program, depth), TRUNCATED)
  {
    var digits := Digits(depth);
    var tail := INVOKE + (digits + "]");
    assert InvokeLine(program, depth) == PROGRAM + program + tail;
    IdReadsBack(program, tail);
    AfterPrefix(INVOKE, digits + "]");
    RunOf(digits, "]", IsDigit());
    assert (digits + "]")[|digits|..] == "]" && (digits + "]")[..|digits|] == digits;
    DigitsReadBack(depth);
  }

  lemma ExitReadsBack(program: string, ending: Ending)
    requires IsProgramId(program) && (ending.FailedWith? ==> OneLine(ending.reason))
    ensures ParseInvoke(ExitLine(program, ending)).None? && ParseExit(ExitLine(program, ending)) == Some(program)
    ensures !StartsWith(ExitLine(program, ending), TRUNCATED)
  {
    var tail := match ending case Success => SUCCESS case FailedWith(reason) => FAILED + reason;
    assert ExitLine(program, ending) == PROGRAM + program + tail;
    TailIsExit(ending);
    IdReadsBack(program, tail);
    NotInvoke(tail);
  }

  lemma TailIsExit(ending: Ending)
    requires ending.FailedWith? ==> OneLine(ending.reason)
    ensures var tail := match ending case Success => SUCCESS case FailedWith(reason) => FAILED + reason;
            && |tail| > 1 && tail[0] == ' ' && tail[1] != 'i' && tail[|tail| - 1] != '\n'
            && (tail == SUCCESS || (StartsWith(tail, FAILED) && OneLine(tail)))
  {
    if ending.FailedWith? {
      AfterPrefix(FAILED, ending.reason);
    }
  }

  lemma NotInvoke(tail: string)
    requires |tail| > 1 && tail[1] != 'i'
    ensures !StartsWith(tail, INVOKE)
  {
    PrefixAt(tail, INVOKE, 1);
  }

  /** A run that starts with fewer base58 characters than an id has names no program. */
  lemma NoId(line: string)
    requires StartsWith(line, PROGRAM) && Run(Chomped(line)[|PROGRAM|..], IsIdChar()) < 32
    ensures ParseInvoke(line).None? && ParseExit(line).None? && !StartsWith(line, TRUNCATED)
  {
    NotTruncated(line);
  }

  /** Whatever a program logs stays a log line. */
  lemma LogIsNoFrame(text: string)
    ensures var line := LogLine(text);
            ParseInvoke(line).None? && ParseExit(line).None? && !StartsWith(line, TRUNCATED)
  {
    var line := LogLine(text);
    assert line == PROGRAM + ("log: " + text);
    AfterPrefix(PROGRAM, "log: " + text);
    assert Chomped(line)[|PROGRAM| + 1] == 'o';
    assert Chomped(line)[|PROGRAM|..][0] == 'l' && !IsIdChar()('l');
    NoId(line);
  }

  /** What the runtime itself says of a run: what it used, and the data it left. */
  lemma RuntimeLinesAreNeutral(program: string, what: string)
    requires IsProgramId(program) && OneLine(what)
    ensures Neutral(DataLine(what)) && Neutral(ConsumedLine(program, what))
  {
    DataIsNoFrame(what);
    DataIsNoMemo(what);
    ConsumedIsNoFrame(program, what);
    ConsumedIsNoMemo(program, what);
  }

  function DataLine(what: string): string { PROGRAM + "data: " + what }

  function ConsumedLine(program: string, what: string): string { PROGRAM + program + (" consumed " + what) }

  lemma DataIsNoMemo(what: string)
    ensures MemoOf(DataLine(what)).None?
  {
    PrefixAt(Chomped(DataLine(what)), MEMO_LOG, 8);
  }

  lemma DataIsNoFrame(what: string)
    ensures var line := DataLine(what);
            ParseInvoke(line).None? && ParseExit(line).None? && !StartsWith(line, TRUNCATED)
  {
    var line := PROGRAM + "data: " + what;
    assert line == PROGRAM + ("data: " + what);
    AfterPrefix(PROGRAM, "data: " + what);
    var rest := Chomped(line)[|PROGRAM|..];
    assert rest[4] == ':' && !IsIdChar()(':');
    RunStops(rest, 4, IsIdChar());
    NoId(line);
  }

  lemma ConsumedIsNoFrame(program: string, what: string)
    requires IsProgramId(program) && OneLine(what)
    ensures var line := ConsumedLine(program, what);
            ParseInvoke(line).None? && ParseExit(line).None? && !StartsWith(line, TRUNCATED)
  {
    var tail := " consumed " + what;
    IdReadsBack(program, tail);
    PrefixAt(tail, INVOKE, 1);
    PrefixAt(tail, FAILED, 1);
    assert tail[1] != SUCCESS[1];
  }

  /** No id has the colon that a log line has in its place. */
  lemma ConsumedIsNoMemo(program: string, what: string)
    requires IsProgramId(program) && OneLine(what)
    ensures MemoOf(ConsumedLine(program, what)).None?
  {
    var line := PROGRAM + program + (" consumed " + what);
    IdReadsBack(program, " consumed " + what);
    PrefixAt(line, MEMO_LOG, 11);
    assert line[11] == program[3] && IsIdChar()(program[3]);
    assert MEMO_LOG[11] == ':';
  }

  lemma {:induction false} RunStops(s: string, at: nat, kind: char -> bool)
    requires at < |s| && !kind(s[at])
    ensures Run(s, kind) <= at
  {
    if at > 0 && kind(s[0]) {
      RunStops(s[1..], at - 1, kind);
    }
  }

  // --- Reading back what was rendered --------------------------------------------------------

  lemma {:induction false} ReadJoined(r: Reader, a: seq<string>, b: seq<string>)
    ensures ReadAll(r, a + b) == ReadAll(ReadAll(r, a), b)
  {
    if b == [] {
      assert a + b == a;
    } else {
      assert (a + b)[..|a + b| - 1] == a + b[..|b| - 1];
      ReadJoined(r, a, b[..|b| - 1]);
    }
  }

  lemma ReadOne(r: Reader, line: string)
    ensures ReadAll(r, [line]) == ReadLine(r, line)
  {
    assert [line][..0] == [];
  }

  /** What a reader gains from a trace at its place. */
  function Gain(t: Trace, stack: seq<string>): seq<string> {
    if stack == [] then TopMemos(t)
    else if stack == [MEMO_PROGRAM_ID] then DirectMemos(t)
    else []
  }

  function LogGain(text: string, stack: seq<string>): seq<string> {
    if stack == [MEMO_PROGRAM_ID] && MemoOf(LogLine(text)).Some? then [MemoOf(LogLine(text)).value] else []
  }

  lemma ReadLog(text: string, memos: seq<string>, stack: seq<string>)
    ensures ReadAll(Reading(memos, stack), [LogLine(text)]) == Reading(memos + LogGain(text, stack), stack)
  {
    LogIsNoFrame(text);
    ReadOne(Reading(memos, stack), LogLine(text));
    assert memos + [] == memos;
  }

  lemma ReadNoted(line: string, memos: seq<string>, stack: seq<string>)
    requires Neutral(line)
    ensures ReadAll(Reading(memos, stack), [line]) == Reading(memos, stack)
  {
    ReadOne(Reading(memos, stack), line);
  }

  lemma ReadInvoke(program: string, memos: seq<string>, stack: seq<string>)
    requires IsProgramId(program)
    ensures ReadAll(Reading(memos, stack), [InvokeLine(program, |stack| + 1)]) == Reading(memos, stack + [program])
  {
    InvokeReadsBack(program, |stack| + 1);
    ReadOne(Reading(memos, stack), InvokeLine(program, |stack| + 1));
  }

  lemma ReadExit(program: string, ending: Ending, memos: seq<string>, stack: seq<string>)
    requires IsProgramId(program) && (ending.FailedWith? ==> OneLine(ending.reason))
    ensures ReadAll(Reading(memos, stack + [program]), [ExitLine(program, ending)]) == Reading(memos, stack)
  {
    ExitReadsBack(program, ending);
    ReadOne(Reading(memos, stack + [program]), ExitLine(program, ending));
    Leaves(ExitLine(program, ending), program, memos, stack);
  }

  lemma Leaves(line: string, program: string, memos: seq<string>, stack: seq<string>)
    requires !StartsWith(line, TRUNCATED) && ParseInvoke(line).None? && ParseExit(line) == Some(program)
    ensures ReadLine(Reading(memos, stack + [program]), line) == Reading(memos, stack)
  {
    assert (stack + [program])[..|stack|] == stack;
  }

  lemma ReadThen(r: Reader, a: seq<string>, b: seq<string>, mid: Reader, end: Reader)
    requires ReadAll(r, a) == mid && ReadAll(mid, b) == end
    ensures ReadAll(r, a + b) == end
  {
    ReadJoined(r, a, b);
  }

  function CallLines(program: string, body: Trace, ending: Ending, depth: nat): seq<string> {
    [InvokeLine(program, depth)] + Render(body, depth + 1) + [ExitLine(program, ending)]
  }

  lemma ReadCall(program: string, body: Trace, ending: Ending, memos: seq<string>, stack: seq<string>,
                 gained: seq<string>)
    requires IsProgramId(program) && (ending.FailedWith? ==> OneLine(ending.reason))
    requires ReadAll(Reading(memos, stack + [program]), Render(body, |stack| + 2)) == Reading(gained, stack + [program])
    ensures ReadAll(Reading(memos, stack), CallLines(program, body, ending, |stack| + 1)) == Reading(gained, stack)
  {
    var r, inside := Reading(memos, stack), Reading(gained, stack + [program]);
    var invoke, lines := [InvokeLine(program, |stack| + 1)], Render(body, |stack| + 2);
    ReadInvoke(program, memos, stack);
    ReadThen(r, invoke, lines, Reading(memos, stack + [program]), inside);
    ReadExit(program, ending, gained, stack);
    ReadThen(r, invoke + lines, [ExitLine(program, ending)], inside, Reading(gained, stack));
  }

  lemma Appended(memos: seq<string>, a: seq<string>, b: seq<string>)
    ensures memos + a + b == memos + (a + b) && memos + [] == memos
  {
  }

  /** Whatever the frames log, reading the rendered lines gives back the stack as it was
      and exactly the memos of the memo program's own frames at the top level. */
  lemma {:induction false} ReadsBack(t: Trace, memos: seq<string>, stack: seq<string>)
    requires ValidTrace(t)
    ensures ReadAll(Reading(memos, stack), Render(t, |stack| + 1)) == Reading(memos + Gain(t, stack), stack)
    decreases t
  {
    match t
    case End =>
      Appended(memos, [], []);
    case Log(text, next) =>
      ReadsLog(text, next, memos, stack);
    case Noted(line, next) =>
      ReadNoted(line, memos, stack);
      ReadsBack(next, memos, stack);
      ReadThen(Reading(memos, stack), [line], Render(next, |stack| + 1), Reading(memos, stack),
               Reading(memos + Gain(next, stack), stack));
    case Call(program, body, ending, next) =>
      var gained := memos + Gain(body, stack + [program]);
      ReadsBack(body, memos, stack + [program]);
      ReadCall(program, body, ending, memos, stack, gained);
      ReadsBack(next, gained, stack);
      ReadThen(Reading(memos, stack), CallLines(program, body, ending, |stack| + 1), Render(next, |stack| + 1),
               Reading(gained, stack), Reading(gained + Gain(next, stack), stack));
      CallGain(program, body, ending, next, stack);
      Appended(memos, Gain(body, stack + [program]), Gain(next, stack));
  }

  lemma ReadsLog(text: string, next: Trace, memos: seq<string>, stack: seq<string>)
    requires ValidTrace(next)
    ensures ReadAll(Reading(memos, stack), Render(Log(text, next), |stack| + 1))
            == Reading(memos + Gain(Log(text, next), stack), stack)
    decreases Log(text, next), 0
  {
    var gained := memos + LogGain(text, stack);
    ReadLog(text, memos, stack);
    ReadsBack(next, gained, stack);
    ReadThen(Reading(memos, stack), [LogLine(text)], Render(next, |stack| + 1), Reading(gained, stack),
             Reading(gained + Gain(next, stack), stack));
    Appended(memos, LogGain(text, stack), Gain(next, stack));
    LogGained(text, next, stack);
  }

  lemma LogGained(text: string, next: Trace, stack: seq<string>)
    ensures LogGain(text, stack) + Gain(next, stack) == Gain(Log(text, next), stack)
  {
  }

  lemma CallGain(program: string, body: Trace, ending: Ending, next: Trace, stack: seq<string>)
    ensures Gain(body, stack + [program]) + Gain(next, stack) == Gain(Call(program, body, ending, next), stack)
  {
    if stack == [] {
      assert stack + [program] == [program];
    } else {
      assert |stack + [program]| > 1;
    }
  }

  // --- The text of a burn memo ------------------------------------------------------------------

  const FULL_BPS: nat := 10_000
  const SENTENCE: string := "pumpling burn "

  /** The memo for a share in basis points: a percentage with no trailing zeros. */
  function MemoText(bps: nat): string {
    SENTENCE + Digits(bps / 100) + Fraction(bps % 100) + "%"
  }

  function Fraction(hundredths: nat): string
    requires hundredths < 100
  {
    if hundredths == 0 then ""
    else if hundredths % 10 == 0 then "." + Digits(hundredths / 10)
    else "." + Digits(hundredths / 10) + Digits(hundredths % 10)
  }

  /** 0 to 100 with at most two decimals, nothing before the number but its own
      digits. */
  function BpsOfNumber(number: string): Option<nat> {
    if number == "100" then Some(FULL_BPS)
    else
      var k := Run(number, IsDigit());
      var rest := number[k..];
      if k == 0 || k > 2 || (k == 2 && number[0] == '0') then None
      else if rest == "" then Some(100 * Value(number[..k]))
      else if rest[0] == '.' && 2 <= |rest| <= 3 && AllDigits(rest[1..]) then
        Some(100 * Value(number[..k]) + Value(rest[1..]) * if |rest| == 2 then 10 else 1)
      else None
  }

  function BurnBpsFromMemoText(text: string): Option<nat> {
    var line := Chomped(text);
    if !StartsWith(line, SENTENCE) then None
    else
      var rest := line[|SENTENCE|..];
      if rest == "" || rest[|rest| - 1] != '%' then None
      else BpsOfNumber(rest[..|rest| - 1])
  }

  lemma DigitsOfSmall(n: nat)
    requires n < 100
    ensures n < 10 ==> |Digits(n)| == 1
    ensures n >= 10 ==> |Digits(n)| == 2 && Digits(n)[0] != '0'
  {
    if n >= 10 {
      assert Digits(n / 10) == [('0' as int + n / 10 % 10) as char];
    }
  }

  lemma ValueOfTwo(a: nat, b: nat)
    requires a < 10 && b < 10
    ensures AllDigits(Digits(a) + Digits(b)) && Value(Digits(a) + Digits(b)) == 10 * a + b
    ensures |Digits(a) + Digits(b)| == 2
  {
    DigitsOfSmall(a);
    DigitsOfSmall(b);
    DigitsReadBack(a);
    var both := Digits(a) + Digits(b);
    assert both[..1] == Digits(a);
  }

  lemma FractionReadsBack(hundredths: nat)
    requires hundredths < 100
    ensures var f := Fraction(hundredths);
            hundredths == 0 <==> f == ""
    ensures var f := Fraction(hundredths);
            hundredths > 0 ==> f[0] == '.' && 2 <= |f| <= 3 && AllDigits(f[1..])
                               && Value(f[1..]) * (if |f| == 2 then 10 else 1) == hundredths
  {
    if hundredths > 0 {
      var f := Fraction(hundredths);
      DigitsOfSmall(hundredths / 10);
      DigitsReadBack(hundredths / 10);
      if hundredths % 10 == 0 {
        assert f[1..] == Digits(hundredths / 10);
      } else {
        ValueOfTwo(hundredths / 10, hundredths % 10);
        assert f[1..] == Digits(hundredths / 10) + Digits(hundredths % 10);
      }
    }
  }

  /** One or two digits without a leading zero, then nothing or a fraction. */
  lemma NumberParses(whole: string, f: string)
    requires AllDigits(whole) && 1 <= |whole| <= 2 && (|whole| == 2 ==> whole[0] != '0')
    requires f == "" || (f[0] == '.' && 2 <= |f| <= 3 && AllDigits(f[1..]))
    ensures BpsOfNumber(whole + f)
            == Some(100 * Value(whole) + if f == "" then 0 else Value(f[1..]) * if |f| == 2 then 10 else 1)
  {
    RunOf(whole, f, IsDigit());
    Cut(whole, f);
    NotHundred(whole, f);
  }

  lemma Cut(a: string, b: string)
    ensures (a + b)[..|a|] == a && (a + b)[|a|..] == b
  {
  }

  lemma NumberReadsBack(bps: nat)
    requires bps <= FULL_BPS
    ensures BpsOfNumber(Digits(bps / 100) + Fraction(bps % 100)) == Some(bps)
  {
    FractionReadsBack(bps % 100);
    if bps == FULL_BPS {
      Hundred();
      assert Digits(100) + "" == "100";
    } else {
      DigitsOfSmall(bps / 100);
      DigitsReadBack(bps / 100);
      NumberParses(Digits(bps / 100), Fraction(bps % 100));
    }
  }

  lemma Hundred()
    ensures Digits(100) == "100"
  {
    assert Digits(1) == "1" && Digits(10) == Digits(1) + "0";
  }

  lemma NotHundred(whole: string, f: string)
    requires 1 <= |whole| <= 2 && (f == "" || f[0] == '.')
    ensures whole + f != "100"
  {
    if f != "" {
      assert (whole + f)[|whole|] == '.';
    }
  }

  lemma TextReadsBack(number: string)
    ensures BurnBpsFromMemoText(SENTENCE + (number + "%")) == BpsOfNumber(number)
  {
    AfterPrefix(SENTENCE, number + "%");
    Cut(number, "%");
    assert (number + "%")[|number|] == '%';
  }

  lemma SentenceRegroups(a: string, b: string, c: string, d: string)
    ensures a + b + c + d == a + ((b + c) + d)
  {
  }

  /** Every share the site writes into a memo reads back as itself. */
  lemma MemoTextReadsBack(bps: nat)
    requires bps <= FULL_BPS
    ensures BurnBpsFromMemoText(MemoText(bps)) == Some(bps) && OneLine(MemoText(bps))
  {
    SentenceRegroups(SENTENCE, Digits(bps / 100), Fraction(bps % 100), "%");
    TextReadsBack(Digits(bps / 100) + Fraction(bps % 100));
    NumberReadsBack(bps);
    FractionReadsBack(bps % 100);
    NumberIsOneLine(Digits(bps / 100), Fraction(bps % 100));
  }

  lemma NumberIsOneLine(whole: string, f: string)
    requires AllDigits(whole) && (f == "" || (f[0] == '.' && AllDigits(f[1..])))
    ensures OneLine(SENTENCE + whole + f + "%")
  {
    assert forall i | 0 <= i < |whole| :: IsDigit()(whole[i]) && whole[i] != '\n';
    assert f != "" ==> f == [f[0]] + f[1..];
    assert forall i | 1 <= i < |f| :: IsDigit()(f[1..][i - 1]) && f[i] == f[1..][i - 1] != '\n';
  }

  /** No text asks for more than everything. */
  lemma NoMoreThanAll(text: string)
    ensures var bps := BurnBpsFromMemoText(text); bps.Some? ==> bps.value <= FULL_BPS
  {
    var line := Chomped(text);
    if StartsWith(line, SENTENCE) && line[|SENTENCE|..] != "" {
      var rest := line[|SENTENCE|..];
      NumberWithin(rest[..|rest| - 1]);
    }
  }

  lemma {:induction false} ValueWithin(s: string)
    requires AllDigits(s)
    ensures |s| == 1 ==> Value(s) <= 9
    ensures |s| == 2 ==> Value(s) <= 99
  {
    if s != "" {
      ValueWithin(s[..|s| - 1]);
      assert IsDigit()(s[|s| - 1]);
      assert |s| == 1 ==> s[..0] == "";
    }
  }

  lemma NumberWithin(number: string)
    ensures var bps := BpsOfNumber(number); bps.Some? ==> bps.value <= FULL_BPS
  {
    var k := Run(number, IsDigit());
    ValueWithin(number[..k]);
    if number[k..] != "" && AllDigits(number[k..][1..]) {
      ValueWithin(number[k..][1..]);
    }
  }

  // --- The share a commit asks for -----------------------------------------------------------------

  /** The shares among the memos. */
  function BurnsAmong(memos: seq<string>): seq<nat> {
    if memos == [] then []
    else
      var before, bps := BurnsAmong(memos[..|memos| - 1]), BurnBpsFromMemoText(memos[|memos| - 1]);
      if bps.Some? then before + [bps.value] else before
  }

  method BurnBpsFromLogs(logs: seq<string>) returns (bps: nat)
    ensures match ReadAll(Reading([], []), logs)
            case Distrusted => bps == 0
            case Reading(memos, _) => bps == if |BurnsAmong(memos)| == 1 then BurnsAmong(memos)[0] else 0
  {
    if logs == [] { return 0; }
    var memos := TopLevelMemos(logs);
    if memos.None? { return 0; }
    var found := BurnsAmong(memos.value);
    bps := if |found| == 1 then found[0] else 0;
  }

  lemma ReadsWhole(t: Trace)
    requires ValidTrace(t)
    ensures ReadAll(Reading([], []), Render(t, 1)) == Reading(TopMemos(t), [])
  {
    ReadsBack(t, [], []);
    NothingBefore(Gain(t, []));
  }

  lemma NothingBefore(memos: seq<string>)
    ensures [] + memos == memos
  {
  }

  /** The share a transaction asks for: the one burn memo the wallet itself put at the top
      level; with none or several it is zero. */
  function CommitOf(t: Trace): nat {
    var found := BurnsAmong(TopMemos(t));
    if |found| == 1 then found[0] else 0
  }

  /** A commit's share is read as it is meant, whatever the programs of the transaction
      log. */
  method ReadCommit(t: Trace) returns (bps: nat)
    requires ValidTrace(t)
    ensures bps == CommitOf(t)
  {
    ReadsWhole(t);
    bps := BurnBpsFromLogs(Render(t, 1));
  }

  /** What the memo program logs of a text. */
  function MemoLog(text: string): string {
    MEMO_HEAD + (Digits(Utf8Length(text)) + (MEMO_TEXT + (text + "\"")))
  }

  lemma Regroup(a: string, b: string, c: string)
    ensures a + (b + c) == (a + b) + c
  {
  }

  lemma QuotedReadsBack(text: string)
    requires OneLine(text)
    ensures ParseQuoted(MEMO_TEXT + (text + "\"")) == Some(text)
  {
    AfterPrefix(MEMO_TEXT, text + "\"");
    assert (text + "\"")[..|text|] == text;
  }

  lemma LengthReadsBack(n: nat, tail: string, text: string)
    requires ParseQuoted(tail) == Some(text) && tail != [] && !IsDigit()(tail[0])
    ensures ParseLength(Digits(n) + tail) == Some((n, text))
  {
    RunOf(Digits(n), tail, IsDigit());
    assert (Digits(n) + tail)[|Digits(n)|..] == tail && (Digits(n) + tail)[..|Digits(n)|] == Digits(n);
    DigitsReadBack(n);
  }

  lemma MemoReadsBack(rest: string)
    requires rest != [] && rest[|rest| - 1] != '\n'
    ensures ParseMemo(LogLine(MEMO_HEAD + rest)) == ParseLength(rest)
  {
    Regroup(LOG, MEMO_HEAD, rest);
    var line := LogLine(MEMO_HEAD + rest);
    assert line == MEMO_LOG + rest;
    AfterPrefix(MEMO_LOG, rest);
    assert Chomped(line) == line;
  }

  lemma MemoLogReadsBack(text: string)
    requires OneLine(text)
    ensures MemoOf(LogLine(MemoLog(text))) == Some(text)
  {
    var tail := MEMO_TEXT + (text + "\"");
    QuotedReadsBack(text);
    LengthReadsBack(Utf8Length(text), tail, text);
    MemoReadsBack(Digits(Utf8Length(text)) + tail);
  }

  lemma OneMemo(text: string)
    requires OneLine(text)
    ensures DirectMemos(Log(MemoLog(text), End)) == [text]
  {
    MemoLogReadsBack(text);
    assert DirectMemos(Log(MemoLog(text), End)) == [text] + [] == [text];
  }

  lemma OneBurn(memos: seq<string>, text: string, bps: nat)
    requires memos == [text] && BurnBpsFromMemoText(text) == Some(bps)
    ensures BurnsAmong(memos) == [bps]
  {
    assert memos[..0] == [];
  }

  /** A run of programs and another after it. */
  function Followed(t: Trace, more: Trace): Trace {
    match t
    case End => more
    case Log(text, next) => Log(text, Followed(next, more))
    case Noted(line, next) => Noted(line, Followed(next, more))
    case Call(program, body, ending, next) => Call(program, body, ending, Followed(next, more))
  }

  lemma {:induction false} MemosFollow(t: Trace, more: Trace)
    ensures TopMemos(Followed(t, more)) == TopMemos(t) + TopMemos(more)
  {
    match t
    case End =>
    case Log(_, next) => MemosFollow(next, more);
    case Noted(_, next) => MemosFollow(next, more);
    case Call(program, body, _, next) =>
      MemosFollow(next, more);
      var own := if program == MEMO_PROGRAM_ID then DirectMemos(body) else [];
      assert own + (TopMemos(next) + TopMemos(more)) == (own + TopMemos(next)) + TopMemos(more);
  }

  lemma {:induction false} BurnsJoin(a: seq<string>, b: seq<string>)
    ensures BurnsAmong(a + b) == BurnsAmong(a) + BurnsAmong(b)
  {
    if b == [] {
      assert a + b == a;
    } else {
      assert (a + b)[..|a + b| - 1] == a + b[..|b| - 1];
      BurnsJoin(a, b[..|b| - 1]);
    }
  }

  lemma OneShare(before: Trace, body: Trace, text: string, ending: Ending, rest: Trace, bps: nat)
    requires DirectMemos(body) == [text] && BurnBpsFromMemoText(text) == Some(bps)
    requires BurnsAmong(TopMemos(before)) == BurnsAmong(TopMemos(rest)) == []
    ensures CommitOf(Followed(before, Call(MEMO_PROGRAM_ID, body, ending, rest))) == bps
  {
    hide BurnBpsFromMemoText;
    var commit := Call(MEMO_PROGRAM_ID, body, ending, rest);
    OneBurn([text], text, bps);
    BurnsJoin([text], TopMemos(rest));
    MemosFollow(before, commit);
    BurnsJoin(TopMemos(before), TopMemos(commit));
  }

  /** A transaction in which the wallet runs the memo program once, with the memo for a
      share, and whatever it runs before and after leaves no burn memo at the top level,
      asks for exactly that share. */
  lemma CommitAsksForItsShare(before: Trace, bps: nat, ending: Ending, rest: Trace)
    requires bps <= FULL_BPS && BurnsAmong(TopMemos(before)) == BurnsAmong(TopMemos(rest)) == []
    ensures CommitOf(Followed(before, Call(MEMO_PROGRAM_ID, Log(MemoLog(MemoText(bps)), End), ending, rest))) == bps
  {
    hide *;
    MemoTextReadsBack(bps);
    OneMemo(MemoText(bps));
    OneShare(before, Log(MemoLog(MemoText(bps)), End), MemoText(bps), ending, rest, bps);
  }

  /** A log that was cut is not read at all. */
  lemma {:induction false} TruncatedIsDistrusted(logs: seq<string>, i: nat)
    requires i < |logs| && StartsWith(logs[i], TRUNCATED)
    ensures ReadAll(Reading([], []), logs) == Distrusted
  {
    var n := |logs| - 1;
    if i < n {
      TruncatedIsDistrusted(logs[..n], i);
    }
  }
}
