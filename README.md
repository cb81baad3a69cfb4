# genlog in Dafny

A model of `gen_log`, the test log generator of logtopus/genlog, with proofs
of what it writes. Given the `lines` and `rotations` options, it writes the
files `testlog.log.<rotations>`, …, `testlog.log.1` and `testlog.log`, in
that order, or no file at all when `rotations` is negative. Each file holds
`max(lines, 0)` log lines. A line is one of five message
templates, chosen at random, with two placeholders filled in:

- `{dt}` gets a timestamp cursor. The cursor starts ten days before the clock
  reading, moves on by a random gap below 10000 ms after every line, and
  carries over from one file to the next.
- `{count}` gets the counter `count * lines + i`.

The modules:

- `Text` (text.dfy): decimal rendering of natural numbers, its inverse, zero
  padding, and Rust's `str::replace`.
- `Timestamp` (timestamp.dfy): chrono's `%Y-%m-%d %H:%M:%S` rendering of a UTC
  instant given in milliseconds, in the proleptic Gregorian calendar.
- `GenLog` (genlog.dfy):
  - the entities: options, configuration and written files;
  - the template table, the file names, the template and gap choices;
  - the method `GenLog` with its two loops;
  - the specification `ExpectedRun` that the method is proved to produce.
- `GenLogProperties` (properties.dfy): what gen_log promises, as lemmas
  about `ExpectedRun`.

The environment is passed in as parameters:

- the clock reading `now`, in milliseconds since the epoch;
- the random source `draws`, where `draws(j)` is the `j`-th value drawn in the
  run. Line `k` of the run draws its template from `draws(2k)` and its gap
  from `draws(2k + 1)`, matching the call order in the loop body;
- the timestamp renderer `fmt`. chrono's renderer is modelled by
  `Timestamp.FormatTs`, and `FormatTsBraceFree` shows that it meets the only
  thing `GenLog` requires of `fmt`.

Files come back as a sequence of (name, lines) values, in the order they are
written.

## Model

| member | source | states |
|---|---|---|
| GenLog.Configure | src/main.rs:19-26 | An absent `l` option gives 100 lines and an absent `r` option gives 0 rotations; a given option passes its value through. |
| GenLog.FileCount | src/main.rs:40-41 | Defines the number of files: one per value of `count` from `rotations` down to 0, so `rotations + 1`, or none when `rotations` is negative. |
| GenLog.LinesPerFile | src/main.rs:51 | Defines the number of lines per file: the length of `0..lines`, so `max(lines, 0)`. |
| GenLog.CounterFits | src/main.rs:56 | Defines the inputs for which `count * lines + i` never leaves `i32`: `(rotations + 1) * lines <= 2^31` whenever both are positive. |
| GenLogProperties.DefaultRun | src/main.rs:19-46 | With neither option, the run is exactly one file, named `testlog.log`, holding 100 lines. |
| GenLog.FileName | src/main.rs:42-46 | Defines the name for rotation index `count`: `testlog.log` for index 0, and otherwise `testlog.log.` followed by the index in decimal. Its shape and its inverse `FileIndex` are proved in the lemmas below. |
| GenLogProperties.FileNameShape | src/main.rs:42-46 | Index 0 names exactly `testlog.log`. Index n > 0 names `testlog.log.` followed by canonical digits whose value is n. |
| GenLogProperties.FileIndexOfName | src/main.rs:42-46 | Parsing a file name back gives its rotation index, for every index. |
| GenLogProperties.FileNameOfIndex | src/main.rs:42-46 | Every name that parses to an index is the name gen_log gives that index. |
| GenLogProperties.FileNameInjective | src/main.rs:42-46 | Distinct rotation indices get distinct file names. |
| GenLog.TemplateChoice | src/main.rs:52-54 | The chosen template index is below 5, so the table lookup never fails. |
| GenLog.MessageBodies | src/main.rs:29-35 | Defines what each of the five templates holds between its placeholders: the level, the sentence and ` Its line number `. |
| GenLog.Templates | src/main.rs:29-35 | Defines the five templates, TRACE to ERROR: `{dt}`, the body, `{count}` and a newline. |
| GenLog.Gap | src/main.rs:59 | The gap added after a line is below 10000 ms. |
| GenLog.CursorStep | src/main.rs:59-60 | After line k the cursor moves on by exactly the gap drawn second for that line. |
| GenLog.Cursor | src/main.rs:38-60 | Defines the timestamp of run line k: ten days before `now` plus the gaps of the k lines before it. It lies between `now - 10 days` and that plus 9999 * k ms. |
| GenLog.BodiesBraceFree | src/main.rs:29-35 | There are five template bodies, and none holds a `{`. |
| GenLog.DtAbsentFromTail | src/main.rs:55 | Replacing `{dt}` leaves the template's `{count}` tail unchanged. |
| GenLog.SubstituteDt | src/main.rs:55 | Replacing `{dt}` in a template yields the stamp, the body and the `{count}` tail. |
| GenLog.SubstituteCount | src/main.rs:56 | Replacing `{count}` after a `{`-free prefix yields the prefix, the digits and the newline. |
| GenLog.SubstituteShape | src/main.rs:55-56 | The two replacements in sequence turn a template into stamp + body + digits + newline. |
| GenLog.RenderLineShape | src/main.rs:54-56 | Template k with both placeholders replaced equals the direct line text, for any `{`-free stamp. |
| GenLog.FillTemplate | src/main.rs:54-56 | The line built by the two replacements is the stamp, the body of template k, the counter's digits and a newline. |
| GenLog.WriteLine | src/main.rs:52-56 | The line written at run position k is the template picked by the position's first draw, filled with that position's cursor. |
| GenLog.LineText | src/main.rs:52-56 | Defines the text of a line directly: stamp, body of template k, the counter in decimal, and a newline. |
| GenLog.RenderLine | src/main.rs:54-56 | Defines a line as gen_log builds it: template k with `{dt}` replaced and then `{count}` replaced. |
| GenLog.RunLine | src/main.rs:52-56 | Defines run line k with a given counter: the template picked by `draws(2k)`, filled with the cursor of line k. |
| GenLog.FileLines | src/main.rs:51 | The lines of a file number exactly n. |
| GenLog.FileLinesExtend | src/main.rs:51-57 | Appending the next line to the first n lines gives the first n + 1 lines. |
| GenLog.WriteFile | src/main.rs:51-61 | The inner loop writes every line of the file for index `count`, in order, with counters `count * lines + i`, and leaves the cursor and the random source lines later. |
| GenLog.LinesInFilesProduct | src/main.rs:56 | The counter base of the file for index `count` is `count * lines`. |
| GenLog.CounterBound | src/main.rs:56 | Under `CounterFits`, every counter of the file for index `count` fits in an `i32`. |
| GenLog.LinesInFiles | src/main.rs:56 | Defines the lines n files hold, n times `max(lines, 0)` (`LinesInFilesProduct`): the counter base of the file for index n, and the run position reached after n files. |
| GenLog.FilesFromStep | src/main.rs:40-63 | Writing the file for index `count` moves it from the files still to come onto the end of the files written. |
| GenLog.FilesFrom | src/main.rs:40-63 | Defines the files for rotation indices `count` down to 0, each named for its index and holding its lines, the first starting at run position `k0`. |
| GenLog.ExpectedRun | src/main.rs:40-63 | Defines everything gen_log writes: the files from index `rotations` down to 0, starting at run position 0. |
| GenLog.GenLog | src/main.rs:37-63 | The files written are exactly `ExpectedRun`: one per index from `rotations` down to 0, each with all its lines. |
| GenLogProperties.RunFileCount | src/main.rs:40-62 | The run has `rotations + 1` files when `rotations >= 0`, and none otherwise. |
| GenLogProperties.FilesFromLength | src/main.rs:40-62 | From index `count` down to 0 there are `count + 1` files, or none for a negative index. |
| GenLogProperties.FilesFromAt | src/main.rs:40-61 | The j-th remaining file is the one for index `count - j`, and its first line is j files' worth of lines further on. |
| GenLogProperties.RunFileAt | src/main.rs:40-61 | File f of the run is named for index `rotations - f` and holds `max(lines, 0)` lines. Its line i is the run line at position `f * lines + i`, with counter `(rotations - f) * lines + i`. |
| GenLogProperties.RunLengthValue | src/main.rs:40-51 | The run holds `(rotations + 1) * lines` lines when both are positive, and none otherwise. |
| GenLogProperties.RunLineCount | src/main.rs:40-51 | Taken together, the files hold exactly that many lines; no file stops early. |
| GenLogProperties.LinesInUniform | src/main.rs:51 | Files of l lines each hold, in total, l times the number of files. |
| GenLogProperties.LinePosition | src/main.rs:40-60 | Defines the run position of line i of the f-th file written. That position fixes the two draws the line uses and its cursor value. |
| GenLogProperties.LinePositionValue | src/main.rs:40-51 | Line i of file f is written at position `f * lines + i` of the run. |
| GenLogProperties.LineCounter | src/main.rs:56 | Defines the counter on line i of the f-th file written, `count * lines + i` with `count = rotations - f`. |
| GenLogProperties.LineCounterValue | src/main.rs:56 | The counter on line i of file f is `count * lines + i`, with `count = rotations - f`. |
| GenLogProperties.LinesInFilesMonotone | src/main.rs:56 | More files hold more lines, by at least one file's worth. |
| GenLogProperties.CounterFitsExact | src/main.rs:40-56 | `CounterFits` holds exactly when the largest counter written, on the last line of the first file, is below 2^31; with no file or no lines it always holds. |
| GenLogProperties.CounterBounds | src/main.rs:56 | Every counter of the run lies in `0 .. (rotations + 1) * lines - 1`. |
| GenLogProperties.CounterInjective | src/main.rs:56 | No two lines of the run carry the same counter. |
| GenLogProperties.CounterOnto | src/main.rs:56 | Every number in the counter range is written, on the line returned. |
| GenLogProperties.FileHolding | src/main.rs:56 | A number below the lines of the first m files falls in the counter span of one of them. |
| GenLogProperties.EarlierFilesHigherCounters | src/main.rs:40-56 | A file written earlier holds only higher counters than any file written later. |
| GenLogProperties.CountersConsecutive | src/main.rs:51-56 | Within a file the counters go up by 1 from line to line. |
| GenLogProperties.BaseFileCounters | src/main.rs:40-56 | The last file written is `testlog.log`, and it holds the counters 0 to `lines - 1`. |
| GenLogProperties.CursorGap | src/main.rs:38-60 | The cursor starts 10 days (864000000 ms) before `now`, and each line advances it by between 0 and 9999 ms. |
| GenLogProperties.CursorMonotone | src/main.rs:59-60 | The cursor never goes back. Over m lines it advances by at most 9999 * m ms. |
| GenLogProperties.PositionOrder | src/main.rs:40-51 | A line written later, in the same file or a later one, has a later run position. |
| GenLogProperties.RunTimestampsOrdered | src/main.rs:38-62 | Timestamps never decrease in write order, across all files. |
| GenLogProperties.LineLayout | src/main.rs:55-56 | In stamp + body + digits + newline, the stamp comes first and the digits sit just before the final newline. |
| GenLogProperties.RunLineShape | src/main.rs:29-57 | Every line is the chosen template with both placeholders replaced. It starts with its timestamp, ends with its counter's digits and a newline, and carries the body between them. |
| GenLogProperties.FormatTsBraceFree | src/main.rs:55 | chrono's rendering, as modelled, never holds a `{`, so it can stand in for `fmt`. |
| Text.NatToString | src/main.rs:56 | A number renders as a non-empty digit string with no leading zero, one digit exactly when it is below 10. |
| Text.NatToStringRoundTrip | src/main.rs:56 | Reading the rendering back gives the number. |
| Text.DecimalValueRoundTrip | src/main.rs:56 | A canonical digit string is the rendering of its value. |
| Text.NatToStringInjective | src/main.rs:56 | Distinct numbers render differently. |
| Text.LeadingDigitPositive | src/main.rs:45 | A digit string with no leading zero denotes at least 1. |
| Text.NatToStringWidth | src/main.rs:55 | A number below 10^w renders in at most w digits. |
| Text.ZeroPad | src/main.rs:55 | Zero padding reaches the width, keeps the string's digits, and keeps its value. |
| Text.LeadingZero | src/main.rs:55 | A leading zero changes no digit string's value. |
| Text.Replace | src/main.rs:55-56 | A string without the pattern's first character is returned unchanged. |
| Text.ReplaceStep | src/main.rs:55-56 | A character that cannot start the pattern is copied, and the scan goes on after it. |
| Text.ReplaceSkip | src/main.rs:55-56 | A prefix without the pattern's first character is copied unchanged. |
| Text.ReplaceAtHead | src/main.rs:55-56 | An occurrence at the head is replaced, and the scan resumes after it. |
| Timestamp.CivilFromDays | src/main.rs:55 | Every day number maps to a date whose month is in 1..12 and whose day is in 1..31. |
| Timestamp.SecondOfDay | src/main.rs:55 | The second of the day is below 86400. |
| Timestamp.DateOf | src/main.rs:55 | Defines the calendar date of an instant, from the whole seconds rounded toward the past. Its month is in 1..12 and its day in 1..31. |
| Timestamp.Pad2 | src/main.rs:55 | Two-digit zero-padded rendering: digits whose value is n, two of them when n < 100. |
| Timestamp.Pad4 | src/main.rs:55 | Four-digit zero-padded rendering: digits whose value is n, four of them when n < 10000. |
| Timestamp.YearText | src/main.rs:55 | A year in 0..9999 renders as four digits whose value is the year. |
| Timestamp.DateText | src/main.rs:55 | For years 0 to 9999 the date is 10 characters, with `-` at positions 4 and 7. |
| Timestamp.DateTextFields | src/main.rs:55 | The year, month and day fields of the date read back as the date. |
| Timestamp.TimeText | src/main.rs:55 | The time of day is 8 characters, with `:` at positions 2 and 5. |
| Timestamp.TimeTextFields | src/main.rs:55 | The hour, minute and second fields read back as the time of day. |
| Timestamp.StampText | src/main.rs:55 | For years 0 to 9999 the stamp is 19 characters of digits and separators in the layout `YYYY-MM-DD HH:MM:SS`. |
| Timestamp.StampTextFields | src/main.rs:55 | All six fields of the stamp read back as the date and the time of day. |
| Timestamp.FormatTs | src/main.rs:55 | The rendering holds only digits and separators, and so no `{`. |
| Timestamp.FormatTsLayout | src/main.rs:55 | For years 0 to 9999 the rendering has the 19-character layout `YYYY-MM-DD HH:MM:SS`. |
| Timestamp.FormatTsFields | src/main.rs:55 | The fields of the rendering read back as the instant's calendar date and its hours, minutes and seconds. |

## Left out

- Command-line parsing by clap (`parse_cli`, src/main.rs:66-97) is not modelled. `Args` holds the already parsed optional values.
- Parse failures are not modelled. An option that does not parse as an `i32` makes `.parse().unwrap()` panic (src/main.rs:21, 25).
- The output directory (option `o`, src/main.rs:27) and the joining of paths are not modelled. File names are relative to that directory.
- `println!`, `File::create` and `write_all` are I/O, and their `unwrap` panics are not modelled (src/main.rs:48-50, 57). Each file is returned as a value, holding the lines written to it.
- `rand::random` is a foreign source and becomes the parameter `draws`. The model keeps the reduction by `% 5` and `% 10000` itself.
- `chrono::Utc::now` becomes the parameter `now`, in whole milliseconds. The output does not depend on the finer part: gaps are whole milliseconds and the rendering keeps whole seconds.
- The instants chrono cannot represent are not modelled: the subtraction and addition of durations panic outside its range.
- GenLog.GenLog: when the counter `count * lines + i` overflows `i32`, Rust panics in debug builds and wraps silently in release builds. The model covers neither: the precondition `CounterFits` holds exactly for the inputs where no counter overflows (`CounterFitsExact`).
- `main`, `VERSION` and `AUTHORS` (src/main.rs:9-16) are glue with no logic.
- gen_log has no begin or end window, no maximum-gap option and no early stop, so the model has none either.
- Timestamp.CivilFromDays: its contract states only the ranges of month and day. The date arithmetic is not proved against an independent calendar definition.
- Timestamp.YearText: for years outside 0..9999 (a sign and at least four digits), only the character set is proved, not the exact text chrono prints there.
