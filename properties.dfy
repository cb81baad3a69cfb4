/** What gen_log promises about the files it writes, stated about the
    specification `GenLog.ExpectedRun` that the method `GenLog.GenLog` is
    proved to produce: the configuration defaults, the file names, the number
    and order of the files and lines, the counters, the timestamps and the
    shape of every line. */
module GenLogProperties {
  import opened Text
  import opened Timestamp
  import opened GenLog

  /* ---------------- Configuration ---------------- */

  /** Without the `l` and `r` options, gen_log writes the single file
      `testlog.log` holding 100 lines. */
  lemma DefaultRun(fmt: Formatter, now: int, draws: Draws)
    ensures var run := ExpectedRun(Configure(Args(None, None)), fmt, now, draws);
      |run| == 1 && run[0].name == "testlog.log" && |run[0].lines| == 100
  {
    var c := Configure(Args(None, None));
    assert c == Config(100, 0);
    RunFileAt(c, fmt, now, draws, 0);
  }

  /* ---------------- File names ---------------- */

  /** The rotation index a file name stands for: `testlog.log` is 0 and
      `testlog.log.<n>` is `n` for a canonical decimal `n` other than 0;
      any other name stands for none. */
  function FileIndex(name: string): Option<nat> {
    if name == BaseName then Some(0)
    else if |name| > |BaseName| + 1 && name[..|BaseName| + 1] == BaseName + "." then
      var digits := name[|BaseName| + 1..];
      if AllDigits(digits) && digits[0] != '0' then Some(DecimalValue(digits)) else None
    else None
  }

  /** Every file name reads back as its rotation index. */
  lemma FileIndexOfName(n: nat)
    ensures FileIndex(FileName(n)) == Some(n)
  {
    if n > 0 {
      var digits := NatToString(n);
      var name := BaseName + "." + digits;
      assert name[..|BaseName| + 1] == BaseName + ".";
      assert name[|BaseName| + 1..] == digits;
      NatToStringRoundTrip(n);
      if |digits| == 1 {
        assert digits == [DigitChar(n)];
      }
      assert name != BaseName by { assert |name| > |BaseName|; }
    }
  }

  /** Every name that stands for a rotation index is the name of that index. */
  lemma FileNameOfIndex(name: string, n: nat)
    requires FileIndex(name) == Some(n)
    ensures FileName(n) == name
  {
    if name != BaseName {
      var digits := name[|BaseName| + 1..];
      DecimalValueRoundTrip(digits);
      LeadingDigitPositive(digits);
      assert name == name[..|BaseName| + 1] + digits;
    }
  }

  /** Distinct rotation indices give distinct file names. */
  lemma FileNameInjective(a: nat, b: nat)
    ensures FileName(a) == FileName(b) ==> a == b
  {
    FileIndexOfName(a);
    FileIndexOfName(b);
  }

  /** Index 0 names `testlog.log`; any other index `n` names `testlog.log.`
      followed by the decimal digits of `n`, without leading zero. */
  lemma FileNameShape(n: nat)
    ensures n == 0 ==> FileName(n) == "testlog.log"
    ensures n > 0 ==> var name := FileName(n);
      && |name| > 12 && name[..12] == "testlog.log."
      && AllDigits(name[12..]) && name[12] != '0' && DecimalValue(name[12..]) == n
  {
    if n > 0 {
      FileIndexOfName(n);
      assert |BaseName| + 1 == 12;
    }
  }

  /* ---------------- Files and lines of a run ---------------- */

  /** The number of lines of the whole run. */
  function RunLength(c: Config): nat {
    LinesInFiles(c, FileCount(c))
  }

  /** The run holds `(rotations + 1) * lines` lines when both are positive,
      and none otherwise. */
  lemma RunLengthValue(c: Config)
    ensures RunLength(c) == FileCount(c) * LinesPerFile(c)
    ensures c.rotations >= 0 && c.lines > 0 ==> RunLength(c) == (c.rotations as int + 1) * c.lines as int
    ensures c.rotations < 0 || c.lines <= 0 ==> RunLength(c) == 0
  {
    LinesInFilesProduct(c, FileCount(c));
  }

  /** Position in write order of line `i` of the `f`-th file written (both
      counting from 0). */
  function LinePosition(c: Config, f: nat, i: nat): nat {
    LinesInFiles(c, f) + i
  }

  /** That position is `f * lines + i`. */
  lemma LinePositionValue(c: Config, f: nat, i: nat)
    ensures LinePosition(c, f, i) == f * LinesPerFile(c) + i
  {
    LinesInFilesProduct(c, f);
  }

  /** More files hold more lines, by at least one file's worth. */
  lemma {:induction false} LinesInFilesMonotone(c: Config, m: nat, n: nat)
    requires m < n
    ensures LinesInFiles(c, m) + LinesPerFile(c) <= LinesInFiles(c, n)
    decreases n
  {
    if m < n - 1 {
      LinesInFilesMonotone(c, m, n - 1);
    }
  }

  /** The counter gen_log writes on line `i` of the `f`-th file written, the
      file for rotation index `rotations - f`. */
  function LineCounter(c: Config, f: nat, i: nat): nat
    requires f < FileCount(c)
  {
    LinesInFiles(c, c.rotations as int - f) + i
  }

  /** That counter is `count * lines + i` for the file's rotation index `count`. */
  lemma LineCounterValue(c: Config, f: nat, i: nat)
    requires f < FileCount(c)
    ensures LineCounter(c, f, i) == (c.rotations as int - f) * LinesPerFile(c) + i
  {
    LinesInFilesProduct(c, c.rotations as int - f);
  }

  lemma {:induction false} FilesFromLength(c: Config, fmt: Formatter, now: int, draws: Draws, count: int, k0: nat)
    ensures |FilesFrom(c, fmt, now, draws, count, k0)| == if count < 0 then 0 else count + 1
    decreases count + 1
  {
    if count >= 0 {
      FilesFromLength(c, fmt, now, draws, count - 1, k0 + LinesPerFile(c));
    }
  }

  /** The `j`-th file from rotation index `count` on is the file for index
      `idx == count - j`, whose first line sits `j` files' worth of lines after
      `k0`, at `pos`. */
  lemma {:induction false} FilesFromAt(c: Config, fmt: Formatter, now: int, draws: Draws, count: nat, k0: nat,
                                       j: nat, idx: nat, pos: nat)
    requires j <= count && idx == count - j && pos == k0 + LinesInFiles(c, j)
    ensures |FilesFrom(c, fmt, now, draws, count, k0)| == count + 1
    ensures FilesFrom(c, fmt, now, draws, count, k0)[j]
         == LogFile(FileName(idx), FileLines(fmt, now, draws, pos, LinesInFiles(c, idx), LinesPerFile(c)))
    decreases j
  {
    FilesFromLength(c, fmt, now, draws, count, k0);
    if j > 0 {
      var k1 := k0 + LinesPerFile(c);
      var rest := FilesFrom(c, fmt, now, draws, count - 1, k1);
      assert FilesFrom(c, fmt, now, draws, count, k0)[j] == rest[j - 1];
      assert pos == k1 + LinesInFiles(c, j - 1);
      FilesFromAt(c, fmt, now, draws, count - 1, k1, j - 1, idx, pos);
    }
  }

  /** gen_log writes one file per rotation index: `rotations + 1` files when
      `rotations >= 0` and none otherwise. */
  lemma RunFileCount(c: Config, fmt: Formatter, now: int, draws: Draws)
    ensures |ExpectedRun(c, fmt, now, draws)| == FileCount(c)
    ensures c.rotations < 0 ==> ExpectedRun(c, fmt, now, draws) == []
  {
    FilesFromLength(c, fmt, now, draws, c.rotations as int, 0);
  }

  /** The `f`-th file written is the one for rotation index `rotations - f`;
      it holds `max(lines, 0)` lines, and its line `i` is the `f * lines + i`-th
      line of the run, carrying the counter `LineCounter(c, f, i)`. */
  lemma RunFileAt(c: Config, fmt: Formatter, now: int, draws: Draws, f: nat)
    requires f < FileCount(c)
    ensures |ExpectedRun(c, fmt, now, draws)| == FileCount(c)
    ensures var file := ExpectedRun(c, fmt, now, draws)[f];
      && file.name == FileName(c.rotations as int - f)
      && |file.lines| == LinesPerFile(c)
      && forall i :: 0 <= i < LinesPerFile(c) ==>
           file.lines[i] == RunLine(fmt, now, draws, LinePosition(c, f, i), LineCounter(c, f, i))
  {
    var r := c.rotations as int;
    FilesFromAt(c, fmt, now, draws, r, 0, f, r - f, LinesInFiles(c, f));
  }

  /** Putting the files one after the other gives `RunLength(c)` lines. */
  lemma RunLineCount(c: Config, fmt: Formatter, now: int, draws: Draws)
    ensures LinesIn(ExpectedRun(c, fmt, now, draws)) == RunLength(c)
  {
    var run := ExpectedRun(c, fmt, now, draws);
    RunFileCount(c, fmt, now, draws);
    forall f | 0 <= f < |run| ensures |run[f].lines| == LinesPerFile(c) {
      RunFileAt(c, fmt, now, draws, f);
    }
    LinesInUniform(run, LinesPerFile(c));
    LinesInFilesProduct(c, FileCount(c));
  }

  /** Number of lines over a sequence of files. */
  function LinesIn(files: seq<LogFile>): nat {
    if files == [] then 0 else LinesIn(files[..|files| - 1]) + |files[|files| - 1].lines|
  }

  lemma {:induction false} LinesInUniform(files: seq<LogFile>, l: nat)
    requires forall f :: 0 <= f < |files| ==> |files[f].lines| == l
    ensures LinesIn(files) == |files| * l
    decreases |files|
  {
    if files != [] {
      var n := |files| - 1;
      LinesInUniform(files[..n], l);
      assert n * l + l == |files| * l;
    }
  }

  /* ---------------- Counters ---------------- */

  /** `CounterFits` is exact: it fails just when the largest counter of the
      run, on the last line of the first file, does not fit in an `i32`. */
  lemma CounterFitsExact(c: Config)
    ensures FileCount(c) == 0 || LinesPerFile(c) == 0 ==> CounterFits(c)
    ensures FileCount(c) > 0 && LinesPerFile(c) > 0 ==>
      (CounterFits(c) <==> LineCounter(c, 0, LinesPerFile(c) - 1) < 0x8000_0000)
  {
    if FileCount(c) > 0 && LinesPerFile(c) > 0 {
      var r, l := c.rotations as int, LinesPerFile(c);
      LineCounterValue(c, 0, l - 1);
      assert (r + 1) * l == r * l + l;
    }
  }

  /** Every counter of the run lies in `0 .. RunLength(c) - 1`. */
  lemma CounterBounds(c: Config, f: nat, i: nat)
    requires f < FileCount(c) && i < LinesPerFile(c)
    ensures LineCounter(c, f, i) < RunLength(c)
  {
    var count := c.rotations as int - f;
    if count + 1 < FileCount(c) {
      LinesInFilesMonotone(c, count + 1, FileCount(c));
    }
  }

  /** No counter is written twice. */
  lemma CounterInjective(c: Config, f1: nat, i1: nat, f2: nat, i2: nat)
    requires f1 < FileCount(c) && i1 < LinesPerFile(c)
    requires f2 < FileCount(c) && i2 < LinesPerFile(c)
    requires LineCounter(c, f1, i1) == LineCounter(c, f2, i2)
    ensures f1 == f2 && i1 == i2
  {
    if f1 < f2 {
      EarlierFilesHigherCounters(c, f1, i1, f2, i2);
    } else if f2 < f1 {
      EarlierFilesHigherCounters(c, f2, i2, f1, i1);
    }
  }

  /** Every number below `RunLength(c)` is written as a counter, on the line
      returned. */
  lemma CounterOnto(c: Config, n: nat) returns (f: nat, i: nat)
    requires n < RunLength(c)
    ensures f < FileCount(c) && i < LinesPerFile(c) && LineCounter(c, f, i) == n
  {
    var count := FileHolding(c, n, FileCount(c));
    f, i := c.rotations as int - count, n - LinesInFiles(c, count);
  }

  /** The rotation index below `m` whose file holds the counter `n`. */
  lemma {:induction false} FileHolding(c: Config, n: nat, m: nat) returns (count: nat)
    requires n < LinesInFiles(c, m)
    ensures count < m && LinesInFiles(c, count) <= n < LinesInFiles(c, count) + LinesPerFile(c)
    decreases m
  {
    if n >= LinesInFiles(c, m - 1) {
      count := m - 1;
    } else {
      count := FileHolding(c, n, m - 1);
    }
  }

  /** The file written earlier holds the higher counters. */
  lemma EarlierFilesHigherCounters(c: Config, f1: nat, i1: nat, f2: nat, i2: nat)
    requires f1 < f2 < FileCount(c) && i1 < LinesPerFile(c) && i2 < LinesPerFile(c)
    ensures LineCounter(c, f1, i1) > LineCounter(c, f2, i2)
  {
    var r := c.rotations as int;
    LinesInFilesMonotone(c, r - f2, r - f1);
  }

  /** Within a file the counters go up by one from line to line. */
  lemma CountersConsecutive(c: Config, f: nat, i: nat)
    requires f < FileCount(c) && i + 1 < LinesPerFile(c)
    ensures LineCounter(c, f, i + 1) == LineCounter(c, f, i) + 1
  {
  }

  /** The base file `testlog.log` is written last and holds the counters
      `0 .. lines - 1`. */
  lemma BaseFileCounters(c: Config, fmt: Formatter, now: int, draws: Draws, i: nat)
    requires c.rotations >= 0 && i < LinesPerFile(c)
    ensures |ExpectedRun(c, fmt, now, draws)| == c.rotations as int + 1
    ensures ExpectedRun(c, fmt, now, draws)[c.rotations as int].name == "testlog.log"
    ensures LineCounter(c, c.rotations as int, i) == i
  {
    RunFileAt(c, fmt, now, draws, c.rotations as int);
  }

  /* ---------------- Timestamps ---------------- */

  /** The cursor starts ten days before the clock reading, and each line moves
      it on by less than 10000 ms. */
  lemma CursorGap(now: int, draws: Draws, k: nat)
    ensures Cursor(now, draws, 0) == now - 10 * 24 * 60 * 60 * 1000
    ensures Cursor(now, draws, k) <= Cursor(now, draws, k + 1) < Cursor(now, draws, k) + 10000
  {
    CursorStep(now, draws, k);
  }

  /** The cursor never goes back, and over `k2 - k1` lines it moves on by at
      most 9999 ms per line. */
  lemma {:induction false} CursorMonotone(now: int, draws: Draws, k1: nat, k2: nat)
    requires k1 <= k2
    ensures Cursor(now, draws, k1) <= Cursor(now, draws, k2)
    ensures Cursor(now, draws, k2) - Cursor(now, draws, k1) <= (GapBoundMs - 1) * (k2 - k1)
    decreases k2 - k1
  {
    if k1 < k2 {
      CursorMonotone(now, draws, k1, k2 - 1);
      CursorStep(now, draws, k2 - 1);
      assert (GapBoundMs - 1) * (k2 - 1 - k1) + (GapBoundMs - 1) == (GapBoundMs - 1) * (k2 - k1);
    }
  }

  /** A line written after another in the run, in the same file or a later
      one, sits at a later position. */
  lemma PositionOrder(c: Config, f1: nat, i1: nat, f2: nat, i2: nat)
    requires i1 < LinesPerFile(c) && i2 < LinesPerFile(c)
    requires f1 < f2 || (f1 == f2 && i1 < i2)
    ensures LinePosition(c, f1, i1) < LinePosition(c, f2, i2)
  {
    if f1 < f2 {
      LinesInFilesMonotone(c, f1, f2);
    }
  }

  /** Timestamps never decrease in write order, across all files. */
  lemma RunTimestampsOrdered(c: Config, now: int, draws: Draws, f1: nat, i1: nat, f2: nat, i2: nat)
    requires i1 < LinesPerFile(c) && i2 < LinesPerFile(c)
    requires f1 < f2 || (f1 == f2 && i1 <= i2)
    ensures Cursor(now, draws, LinePosition(c, f1, i1)) <= Cursor(now, draws, LinePosition(c, f2, i2))
  {
    if f1 != f2 || i1 != i2 {
      PositionOrder(c, f1, i1, f2, i2);
      CursorMonotone(now, draws, LinePosition(c, f1, i1), LinePosition(c, f2, i2));
    }
  }

  /* ---------------- Lines ---------------- */

  /** Where the parts of a line sit: the timestamp first, the counter's
      digits just before the final newline. */
  lemma LineLayout(stamp: string, body: string, digits: string)
    ensures var line := stamp + body + digits + "\n";
      && line[..|stamp|] == stamp
      && line[|line| - 1 - |digits|..|line| - 1] == digits
      && line[|line| - 1] == '\n'
  {
    var line := stamp + body + digits + "\n";
    assert line == stamp + (body + digits + "\n");
    assert line == (stamp + body) + digits + "\n";
  }

  /** Every line written is one of the five templates with `{dt}` replaced by
      the timestamp of its cursor and `{count}` by its counter: the timestamp,
      the template's body, the counter's digits and a final newline. */
  lemma RunLineShape(fmt: Formatter, now: int, draws: Draws, k: nat, counter: nat)
    requires BraceFree(fmt)
    ensures var line := RunLine(fmt, now, draws, k, counter);
      var t, stamp, digits := TemplateChoice(draws(2 * k)), fmt(Cursor(now, draws, k)), NatToString(counter);
      && line == RenderLine(t, stamp, counter)
      && line == stamp + MessageBodies[t] + digits + "\n"
      && line[..|stamp|] == stamp
      && line[|line| - 1 - |digits|..|line| - 1] == digits
      && line[|line| - 1] == '\n'
  {
    var t, stamp := TemplateChoice(draws(2 * k)), fmt(Cursor(now, draws, k));
    RenderLineShape(t, stamp, counter);
    BodiesBraceFree(t);
    LineLayout(stamp, MessageBodies[t], NatToString(counter));
  }

  /** chrono's rendering, as modelled, never holds a `{`, so gen_log with it
      meets the requirement `BraceFree` of `GenLog.GenLog`. */
  lemma FormatTsBraceFree()
    ensures BraceFree(FormatTs)
  {
    forall ms: int ensures '{' !in FormatTs(ms) {
    }
  }
}
