/** The test log generator `gen_log`: it writes one file per rotation index,
    from `testlog.log.<rotations>` down to `testlog.log`, or none when
    `rotations` is negative, each holding `max(lines, 0)` synthetic log lines
    whose timestamps come from one cursor shared by the whole run. The clock
    reading and the random source are parameters; the files are returned as a
    sequence in the order they are written. */
module GenLog {
  import opened Text

  /** Rust's `i32`, the type of `lines`, `rotations`, `count` and `i`. */
  newtype I32 = x: int | -0x8000_0000 <= x < 0x8000_0000

  /** Rust's `u64` (and `usize` on a 64-bit target): one value of the random source. */
  newtype U64 = x: int | 0 <= x < 0x1_0000_0000_0000_0000

  /** The random source: `draws(j)` is the value `rand::random` yields on its
      `j`-th call (counting from 0) during the run. */
  type Draws = nat -> U64

  datatype Option<T> = None | Some(value: T)

  /** Renders the cursor, in milliseconds since the epoch, as the text that
      replaces `{dt}`; gen_log uses chrono's `%Y-%m-%d %H:%M:%S`, modelled by
      `Timestamp.FormatTs`. */
  type Formatter = int -> string

  /** The parsed values of the `l` (lines) and `r` (rotations) options, absent
      when the option is not given. */
  datatype Args = Args(lines: Option<I32>, rotations: Option<I32>)

  datatype Config = Config(lines: I32, rotations: I32)

  /** One written file: its name and its lines in the order they were written. */
  datatype LogFile = LogFile(name: string, lines: seq<string>)

  const DefaultLines: I32 := 100
  const DefaultRotations: I32 := 0

  /** The cursor starts this many milliseconds before the clock reading. */
  const TenDaysMs: int := 10 * 24 * 60 * 60 * 1000

  /** Gaps between consecutive lines are drawn below this many milliseconds. */
  const GapBoundMs: nat := 10000

  const BaseName: string := "testlog.log"

  const TemplateCount: nat := 5

  /** The end of every message body. */
  const LineNumberLabel: string := " Its line number "

  /** What the five message templates hold between their two placeholders,
      in order TRACE, DEBUG, INFO, WARN, ERROR: the level, a sentence and the
      label before the counter. */
  const MessageBodies: seq<string> := [
    " TRACE" + " This is a trace message." + LineNumberLabel,
    " DEBUG" + " This is a debug message." + LineNumberLabel,
    " INFO" + " This is an info message." + LineNumberLabel,
    " WARN" + " This is a warning message." + LineNumberLabel,
    " ERROR" + " This is an error message." + LineNumberLabel
  ]

  /** The five message templates, each the timestamp placeholder `{dt}`, a
      body, the counter placeholder `{count}` and a newline. */
  const Templates: seq<string> := [
    "{dt}" + MessageBodies[0] + "{count}\n",
    "{dt}" + MessageBodies[1] + "{count}\n",
    "{dt}" + MessageBodies[2] + "{count}\n",
    "{dt}" + MessageBodies[3] + "{count}\n",
    "{dt}" + MessageBodies[4] + "{count}\n"
  ]

  /** Defaults for absent options. */
  function Configure(args: Args): (c: Config)
    ensures args.lines.None? ==> c.lines == DefaultLines
    ensures args.lines.Some? ==> c.lines == args.lines.value
    ensures args.rotations.None? ==> c.rotations == DefaultRotations
    ensures args.rotations.Some? ==> c.rotations == args.rotations.value
  {
    Config(
      match args.lines case Some(l) => l case None => DefaultLines,
      match args.rotations case Some(r) => r case None => DefaultRotations)
  }

  /** Number of files written: one per value of `count` from `rotations` down to 0. */
  function FileCount(c: Config): nat {
    if c.rotations >= 0 then c.rotations as int + 1 else 0
  }

  /** Number of lines in each file: `0..lines` is empty when `lines <= 0`. */
  function LinesPerFile(c: Config): nat {
    if c.lines > 0 then c.lines as int else 0
  }

  /** The largest counter, `rotations * lines + lines - 1`, fits in an `i32`. */
  predicate CounterFits(c: Config) {
    c.rotations < 0 || c.lines <= 0 || (c.rotations as int + 1) * c.lines as int <= 0x8000_0000
  }

  /** The name of the file written for rotation index `count`. */
  function FileName(count: nat): string {
    if count == 0 then BaseName else BaseName + "." + NatToString(count)
  }

  /** The template picked by a random value: the value modulo the number of
      templates, so the lookup in the table never fails. */
  function TemplateChoice(draw: U64): (k: nat)
    ensures k < TemplateCount
  {
    draw as int % TemplateCount
  }

  /** The milliseconds a random value adds to the cursor: the value modulo 10000. */
  function Gap(draw: U64): (g: nat)
    ensures g < GapBoundMs
  {
    draw as int % GapBoundMs
  }

  /** The timestamp text never contains `{`, the first character of both
      placeholders (chrono's output holds digits and separators only). */
  ghost predicate BraceFree(fmt: Formatter) {
    forall ms :: '{' !in fmt(ms)
  }

  /** A line as it is written: timestamp text, the template's body, the
      counter in decimal and a newline. */
  function LineText(k: nat, stamp: string, counter: nat): string
    requires k < TemplateCount
  {
    stamp + MessageBodies[k] + NatToString(counter) + "\n"
  }

  /** A line as gen_log builds it: the template with every `{dt}` replaced by
      the timestamp text and then every `{count}` replaced by the counter. */
  function RenderLine(k: nat, stamp: string, counter: nat): string
    requires k < TemplateCount
  {
    Replace(Replace(Templates[k], "{dt}", stamp), "{count}", NatToString(counter))
  }

  /** No message body contains `{`, the first character of both placeholders. */
  lemma BodiesBraceFree(k: nat)
    requires k < TemplateCount
    ensures |MessageBodies| == TemplateCount
    ensures '{' !in MessageBodies[k]
  {
    if k == 0 {
      BodyBraceFree(" TRACE", " This is a trace message.");
    } else if k == 1 {
      BodyBraceFree(" DEBUG", " This is a debug message.");
    } else if k == 2 {
      BodyBraceFree(" INFO", " This is an info message.");
    } else if k == 3 {
      BodyBraceFree(" WARN", " This is a warning message.");
    } else {
      BodyBraceFree(" ERROR", " This is an error message.");
    }
  }

  /** A body built from a level and a sentence free of `{` is free of `{`. */
  lemma BodyBraceFree(level: string, sentence: string)
    requires '{' !in level && '{' !in sentence
    ensures '{' !in level + sentence + LineNumberLabel
  {
    assert '{' !in LineNumberLabel;
  }

  /** The text after the body, `{count}\n`, holds no `{dt}`. */
  lemma DtAbsentFromTail(stamp: string)
    ensures Replace("{count}\n", "{dt}", stamp) == "{count}\n"
  {
    var tail := "{count}\n";
    assert tail[..4] != "{dt}" by { assert tail[1] == 'c'; }
    assert '{' !in tail[1..] by { assert tail[1..] == "count}\n"; }
    assert [tail[0]] + tail[1..] == tail;
  }

  /** Substituting `{dt}` in `{dt}<body>{count}\n`, the body holding no `{`. */
  lemma SubstituteDt(body: string, stamp: string)
    requires '{' !in body
    ensures Replace("{dt}" + body + "{count}\n", "{dt}", stamp) == stamp + body + "{count}\n"
  {
    var tail := "{count}\n";
    assert "{dt}" + body + tail == "{dt}" + (body + tail);
    ReplaceAtHead("{dt}", body + tail, stamp);
    ReplaceSkip(body, tail, "{dt}", stamp);
    DtAbsentFromTail(stamp);
    assert stamp + (body + tail) == stamp + body + tail;
  }

  /** Substituting `{count}` in `<prefix>{count}\n`, the prefix holding no `{`. */
  lemma SubstituteCount(prefix: string, digits: string)
    requires '{' !in prefix
    ensures Replace(prefix + "{count}\n", "{count}", digits) == prefix + digits + "\n"
  {
    var tail := "{count}\n";
    ReplaceSkip(prefix, tail, "{count}", digits);
    assert tail == "{count}" + "\n";
    ReplaceAtHead("{count}", "\n", digits);
    assert Replace("\n", "{count}", digits) == "\n";
    assert prefix + (digits + "\n") == prefix + digits + "\n";
  }

  /** Substituting `{dt}` and then `{count}` in `{dt}<body>{count}\n` yields
      the stamp, the body, the digits and the newline, provided neither the
      stamp nor the body holds a `{`. */
  lemma SubstituteShape(body: string, stamp: string, digits: string)
    requires '{' !in body && '{' !in stamp
    ensures Replace(Replace("{dt}" + body + "{count}\n", "{dt}", stamp), "{count}", digits)
         == stamp + body + digits + "\n"
  {
    SubstituteDt(body, stamp);
    assert '{' !in stamp + body;
    SubstituteCount(stamp + body, digits);
  }

  /** Substituting both placeholders of a template yields the timestamp, the
      body, the counter and the newline, provided the timestamp holds no `{`. */
  lemma RenderLineShape(k: nat, stamp: string, counter: nat)
    requires k < TemplateCount && '{' !in stamp
    ensures RenderLine(k, stamp, counter) == LineText(k, stamp, counter)
  {
    BodiesBraceFree(k);
    SubstituteShape(MessageBodies[k], stamp, NatToString(counter));
  }

  /** The cursor when the `k`-th line of the run (counting from 0) is written.
      Every line draws two random values, the template first and the gap
      second, so the gap drawn after line `k - 1` is `draws(2 * k - 1)`. */
  function Cursor(now: int, draws: Draws, k: nat): (t: int)
    ensures now - TenDaysMs <= t <= now - TenDaysMs + (GapBoundMs - 1) * k
  {
    if k == 0 then now - TenDaysMs else Cursor(now, draws, k - 1) + Gap(draws(2 * k - 1))
  }

  /** The cursor after line `k` moves on by the gap drawn second for that line. */
  lemma CursorStep(now: int, draws: Draws, k: nat)
    ensures Cursor(now, draws, k + 1) == Cursor(now, draws, k) + Gap(draws(2 * k + 1))
  {
  }

  /** The `k`-th line of the run (counting from 0) when it carries the counter
      `counter`: the template picked by `draws(2 * k)` filled with the cursor
      of that line. */
  function RunLine(fmt: Formatter, now: int, draws: Draws, k: nat, counter: nat): string {
    LineText(TemplateChoice(draws(2 * k)), fmt(Cursor(now, draws, k)), counter)
  }

  /** The `n` lines written from position `k0` of the run on, with the
      counters `base`, `base + 1`, and so on. */
  function FileLines(fmt: Formatter, now: int, draws: Draws, k0: nat, base: nat, n: nat): (lines: seq<string>)
    ensures |lines| == n
  {
    seq(n, j requires 0 <= j < n => RunLine(fmt, now, draws, k0 + j, base + j))
  }

  /** Appending the next line to the first `n` lines of a file. */
  lemma FileLinesExtend(fmt: Formatter, now: int, draws: Draws, k0: nat, base: nat, n: nat,
                        k: nat, counter: nat, body: seq<string>, line: string)
    requires k == k0 + n && counter == base + n
    requires body == FileLines(fmt, now, draws, k0, base, n)
    requires line == RunLine(fmt, now, draws, k, counter)
    ensures body + [line] == FileLines(fmt, now, draws, k0, base, n + 1)
  {
    var longer := FileLines(fmt, now, draws, k0, base, n + 1);
    forall j | 0 <= j < n + 1 ensures (body + [line])[j] == longer[j] {
    }
  }

  /** The number of lines `n` files hold. It is the counter of the first line
      of the file for rotation index `n` (the `n` files of lower index hold
      the lower counters), and the position in the run of the first line of
      the file written after `n` others. */
  function LinesInFiles(c: Config, n: nat): nat {
    if n == 0 then 0 else LinesInFiles(c, n - 1) + LinesPerFile(c)
  }

  /** That number is `n * lines` (`count * lines` in gen_log's counter). */
  lemma {:induction false} LinesInFilesProduct(c: Config, n: nat)
    ensures LinesInFiles(c, n) == n * LinesPerFile(c)
    decreases n
  {
    if n > 0 {
      LinesInFilesProduct(c, n - 1);
      assert n * LinesPerFile(c) == (n - 1) * LinesPerFile(c) + LinesPerFile(c);
    }
  }

  /** The files written for rotation indices `count` down to 0, the first of
      them starting at position `k0` of the run. */
  function FilesFrom(c: Config, fmt: Formatter, now: int, draws: Draws, count: int, k0: nat): seq<LogFile>
    decreases count + 1
  {
    if count < 0 then []
    else
      [LogFile(FileName(count), FileLines(fmt, now, draws, k0, LinesInFiles(c, count), LinesPerFile(c)))]
      + FilesFrom(c, fmt, now, draws, count - 1, k0 + LinesPerFile(c))
  }

  /** Everything gen_log writes: all its files, in the order it writes them,
      rotation index `rotations` first and the base file last. */
  function ExpectedRun(c: Config, fmt: Formatter, now: int, draws: Draws): seq<LogFile> {
    FilesFrom(c, fmt, now, draws, c.rotations as int, 0)
  }

  /** gen_log. `now` is the clock reading in milliseconds since the epoch. */
  method GenLog(args: Args, fmt: Formatter, now: int, draws: Draws) returns (files: seq<LogFile>)
    requires BraceFree(fmt)
    requires CounterFits(Configure(args))
    ensures files == ExpectedRun(Configure(args), fmt, now, draws)
  {
    var c := Configure(args);
    var rotations := c.rotations;
    var ts := now - TenDaysMs;
    var next := 0;
    files := [];
    var count := rotations;
    ghost var k: nat := 0;
    assert files + FilesFrom(c, fmt, now, draws, count as int, k) == ExpectedRun(c, fmt, now, draws);
    while count >= 0
      invariant count <= rotations && (rotations >= 0 ==> -1 <= count)
      invariant next == 2 * k && ts == Cursor(now, draws, k)
      invariant files + FilesFrom(c, fmt, now, draws, count as int, k) == ExpectedRun(c, fmt, now, draws)
    {
      var name := FileName(count as int);
      CounterBound(c, count);
      var body;
      ghost var k1;
      body, ts, next, k1 := WriteFile(c, fmt, count, now, draws, ts, next, k, LinesInFiles(c, count as int));
      FilesFromStep(c, fmt, now, draws, count as int, k, k1, files, name, body);
      files := files + [LogFile(name, body)];
      k := k1;
      count := count - 1;
    }
  }

  /** The counters of the file for rotation index `count` fit in an `i32`. */
  lemma CounterBound(c: Config, count: I32)
    requires CounterFits(c) && 0 <= count <= c.rotations
    ensures c.lines > 0 ==> LinesInFiles(c, count as int) + c.lines as int <= 0x8000_0000
  {
    if c.lines > 0 {
      LinesInFilesProduct(c, count as int + 1);
      assert (count as int + 1) * LinesPerFile(c) <= (c.rotations as int + 1) * LinesPerFile(c);
    }
  }

  /** Writing the file for rotation index `count` moves it from the files
      still to come to the files written. */
  lemma FilesFromStep(c: Config, fmt: Formatter, now: int, draws: Draws, count: nat, k: nat, k1: nat,
                      files: seq<LogFile>, name: string, body: seq<string>)
    requires k1 == k + LinesPerFile(c) && name == FileName(count)
    requires body == FileLines(fmt, now, draws, k, LinesInFiles(c, count), LinesPerFile(c))
    ensures files + FilesFrom(c, fmt, now, draws, count, k)
         == (files + [LogFile(name, body)]) + FilesFrom(c, fmt, now, draws, count - 1, k1)
  {
    var rest := FilesFrom(c, fmt, now, draws, count - 1, k1);
    assert FilesFrom(c, fmt, now, draws, count, k) == [LogFile(name, body)] + rest;
    assert files + ([LogFile(name, body)] + rest) == (files + [LogFile(name, body)]) + rest;
  }

  /** The inner loop of gen_log, over `i` from 0 up to `lines`: the lines of
      the file for rotation index `count`, written with the cursor `ts0` and
      the random source at position `next0`, the `k0`-th line of the run
      being the first and carrying the counter `base`; returns the advanced
      cursor and position, and the run position `k1` that follows. */
  method WriteFile(c: Config, fmt: Formatter, count: I32, now: int, draws: Draws, ts0: int, next0: nat,
                   ghost k0: nat, ghost base: nat)
    returns (body: seq<string>, ts: int, next: nat, ghost k1: nat)
    requires BraceFree(fmt) && 0 <= count
    requires next0 == 2 * k0 && ts0 == Cursor(now, draws, k0)
    requires base == LinesInFiles(c, count as int)
    requires c.lines > 0 ==> base + c.lines as int <= 0x8000_0000
    ensures body == FileLines(fmt, now, draws, k0, base, LinesPerFile(c))
    ensures k1 == k0 + LinesPerFile(c)
    ensures next == 2 * k1 && ts == Cursor(now, draws, k1)
  {
    var lines := c.lines;
    ts, next := ts0, next0;
    body := [];
    var i: I32 := 0;
    ghost var k := k0;
    LinesInFilesProduct(c, count as int);
    while i < lines
      invariant 0 <= i as int <= LinesPerFile(c) && k == k0 + i as int
      invariant next == 2 * k && ts == Cursor(now, draws, k)
      invariant body == FileLines(fmt, now, draws, k0, base, i as int)
    {
      var counter := count * lines + i;
      var line := WriteLine(fmt, now, draws, ts, next, k, counter as int);
      FileLinesExtend(fmt, now, draws, k0, base, i as int, k, counter as int, body, line);
      CursorStep(now, draws, k);
      body := body + [line];
      ts := ts + Gap(draws(next + 1));
      next := next + 2;
      i := i + 1;
      k := k + 1;
    }
    k1 := k;
  }

  /** One line of the file: the template picked by the random value at
      position `next`, filled with the cursor `ts` and the counter. */
  method WriteLine(fmt: Formatter, now: int, draws: Draws, ts: int, next: nat, ghost k: nat, counter: nat)
    returns (line: string)
    requires BraceFree(fmt)
    requires next == 2 * k && ts == Cursor(now, draws, k)
    ensures line == RunLine(fmt, now, draws, k, counter)
  {
    var msgIdx := TemplateChoice(draws(next));
    line := FillTemplate(msgIdx, fmt(ts), counter);
  }

  /** The placeholder substitution of gen_log for one line. */
  method FillTemplate(k: nat, stamp: string, counter: nat) returns (line: string)
    requires k < TemplateCount && '{' !in stamp
    ensures line == LineText(k, stamp, counter)
  {
    line := Templates[k];
    line := Replace(line, "{dt}", stamp);
    line := Replace(line, "{count}", NatToString(counter));
    RenderLineShape(k, stamp, counter);
  }
}
