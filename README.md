# zcount in Dafny

`zcount` counts the zero bytes (0x00) in each file named on its command line,
or in standard input when no file is named. A large count hints that a
filesystem checker zero-filled lost data. By default it writes nothing. Each
`-v` raises the verbosity. `-u NUMBER1` stops counting at NUMBER1 zero bytes
(0 means no limit). `-l NUMBER2` sets the count from which a file is reported
as "seems corrupted". The exit status is a tally of inputs.

This project models the C program `zcount.c`: the counter `countZB`, the
branches of the option callback `parse_opt` that set up and update
`struct arguments`, and `main`'s return of `retcode`.

- `limits.dfy` (module `Limits`): `ULONG_MAX` (64-bit `unsigned long`),
  `INT_MAX` (32-bit `int`) and the type `ULong`.
- `scanner.dfy` (module `Scanner`): `CountZB`, a `while` loop over a byte
  array, proved equal to `ScanResult`. `ScanResult` is the smaller of the limit
  and the number of zero bytes before the first byte the loop reads as EOF.
  The variable `c` of `countZB` is a `char`, and the model takes it to be
  signed. So a 0xFF byte compares equal to EOF and ends the scan.
- `policy.dfy` (module `Policy`): the `struct arguments` record plus the lines
  written so far (`Args`). Each `parse_opt` branch is a pure function on it.
  Output lines are structured `Event` values: the stream, clean or
  corrupted, the file or stdin, and the count. They are not formatted text.
- `cli.dfy` (module `Cli`): class `Arguments` has the fields of
  `struct arguments` and a log of lines. Its methods are the `parse_opt`
  branches and update the fields in place, one call after another. Each method
  is proved to have exactly the effect of its `Policy` function. Method
  `Zcount` runs the options in order and then the file arguments (or stdin),
  and returns `main`'s exit status and the lines written.
- `laws.dfy` (module `Laws`): properties of whole runs. They cover the option
  record, the tally as a closed form, the thresholds, and which lines appear
  where.
- `scenarios.dfy` (module `Scenarios`): concrete runs, plus the input that
  shows the tally ignoring the lower threshold.

Where the code departs from what its documentation or a reader would expect, the model follows the code:

- The tally adds one for every opened input whose count is not zero
  (`zeros != 0`, zcount.c:151 and 178). The usage text at zcount.c:64-65
  promises to count the inputs with at least NUMBER2 zero bytes instead.
  `Scenarios.TallyIgnoresLower` gives a run where the two differ.
- A malformed `-u`/`-l` number makes `parse_opt` return EINVAL (zcount.c:121-124,
  132-135). The option parser then stops, and `main` ignores its result and returns
  `retcode` (zcount.c:217-219). So the run exits with status 0, not with a
  distinct usage-error status. This relies on the documented behaviour of
  the option parser: parsing stops when a callback returns an error, and
  the callback is called once more with ARGP_KEY_ERROR.
- The scan ends at the first 0xFF byte, not only at the end of the stream,
  because of the signed `char` (zcount.c:37, 42).

## Model

| member | source | states |
|---|---|---|
| `Scanner.CountZB` | zcount.c:35-47 | The loop returns the limit (ULONG_MAX when `upper` is 0) or the number of zero bytes before end of input or the first 0xFF byte, whichever is smaller. It never exceeds a non-zero `upper`. With no limit it is the exact count whenever that fits in an `unsigned long`. |
| `Scanner.AsSignedChar` | zcount.c:37-43 | Storing `getc`'s result in a signed `char` gives EOF exactly for EOF and for the byte 0xFF, and gives 0 exactly for the byte 0x00. |
| `Scanner.ScannedBytes` | zcount.c:42 | The bytes the scan can see form the longest prefix without 0xFF. It is all of the input, or it stops just before a 0xFF byte. |
| `Scanner.ZeroCount` | zcount.c:43 | The number of 0x00 bytes is at most the length of the input. |
| `Scanner.ZeroCountMultiplicity` | zcount.c:43 | The zero count equals the multiplicity of 0x00 in the multiset of the input's bytes. |
| `Scanner.Cap` | zcount.c:40 | An `upper` of 0 becomes the non-zero limit ULONG_MAX. Any other `upper` is kept. |
| `Scanner.ScanStops` | zcount.c:42-45 | The loop stops at the limit, at end of input or at a 0xFF byte. Each of these leaves the capped count of the visible bytes. |
| `Scanner.ZeroCountSnoc` | zcount.c:43 | One more byte adds exactly one to the count if it is 0x00, and nothing otherwise. |
| `Scanner.ZeroCountAppend` | zcount.c:43 | The count of two stretches of input read one after the other is the sum of their counts. |
| `Scanner.ZeroCountPrefix` | zcount.c:42-43 | Reading further never lowers the count. |
| `Scanner.ScannedBytesFull` | zcount.c:42 | Input without a 0xFF byte is scanned in full. |
| `Scanner.ScanExtend` | zcount.c:42-43 | For a stream without 0xFF, one more byte other than 0xFF changes the result as follows. A non-zero byte leaves it unchanged. A zero byte raises it by one unless the limit is already reached. |
| `Scanner.ZeroCountZeros` | zcount.c:43 | A stream of n zero bytes counts n. |
| `Scanner.ScanResult` | zcount.c:35-47 | What `countZB` returns is at most the limit and at most the number of visible zero bytes. It equals one of the two. |
| `Scanner.LimitStopsCount` | zcount.c:32-34 | With a non-zero limit u, u+5 zero bytes give exactly u. The counter does not overrun the limit. |
| `Policy.Defaults` | zcount.c:103-108 | The initial record keeps verbosity and retcode in range. |
| `Policy.AddVerbose` | zcount.c:111-114 | `-v` raises verbosity by one below INT_MAX and leaves it at INT_MAX otherwise. Nothing else changes. |
| `Policy.ApplyOption` | zcount.c:111-136 | `-v` has the effect of `AddVerbose`. `-u` and `-l` store their number and change nothing else. A malformed number adds only its error line. All options keep the record in range. |
| `Policy.Clamp` | zcount.c:146-148 | The lower threshold is never raised. It becomes `upper` exactly when `upper` is non-zero and below it. Otherwise it is unchanged. |
| `Policy.Tally` | zcount.c:150-152 | retcode rises by one for a non-zero count while below INT_MAX. It is unchanged for a count of 0 and at INT_MAX, and stays in 0..INT_MAX. |
| `Policy.Reports` | zcount.c:154-162 | Verbosity 0 writes nothing. Verbosity 1 writes a line exactly when the count reaches the lower threshold. From verbosity 2 there is always exactly one line. A line is clean iff the count is below the threshold, goes to stdout iff it is clean, and names the input and its count. |
| `Policy.Evaluate` | zcount.c:146-162 | After an input is scanned, verbosity and upper are unchanged. lower is unchanged or lowered to exactly `upper`, and `lower <= upper` holds when `upper` is non-zero. At most one line is appended, and earlier lines are kept. |
| `Policy.OnFile` | zcount.c:139-167 | A file that fails to open adds exactly one error line naming its path. Nothing else changes: no scan, clamp or tally. |
| `Policy.ParseOptions` | zcount.c:111-136 | Processing the options in order, up to the first malformed number and the ARGP_KEY_ERROR line, never touches retcode. It keeps the record in range and only appends lines. |
| `Policy.OnStdin` | zcount.c:170-190 | Standard input is always scanned, so `lower` is always clamped against `upper`. retcode takes one tally step for stdin's count. verbosity and upper stay fixed, and at most one line is appended. |
| `Policy.OnFiles` | zcount.c:139-167 | Across all the file arguments, verbosity and upper stay fixed and the record stays in range. Lines are only appended; earlier ones never change. |
| `Policy.Run` | zcount.c:211-219 | The exit status of a whole run is always within 0..INT_MAX. It is 0 when an option was rejected. |
| `Cli.Arguments.Init` | zcount.c:103-108 | The new object holds the defaults: verbosity 0, upper 0, lower 1, retcode 0, nothing written. |
| `Cli.Arguments.Verbose` | zcount.c:111-114 | In place, verbosity is incremented below INT_MAX and left alone at INT_MAX. |
| `Cli.Arguments.SetUpper` | zcount.c:117-125 | In place, `upper` gets the number and nothing else changes. |
| `Cli.Arguments.SetLower` | zcount.c:128-136 | In place, `lower` gets the number and nothing else changes. |
| `Cli.Arguments.RejectNumber` | zcount.c:121-124 | A "not a non-negative integer" line is appended and no field changes. |
| `Cli.Arguments.Abort` | zcount.c:193-195 | The "parsing terminated" line is appended and no field changes. |
| `Cli.Arguments.Option` | zcount.c:100-136 | Dispatching on the option key has the effect of `Policy.ApplyOption`. |
| `Cli.Arguments.SanityCheck` | zcount.c:146-148 | In place, `lower` becomes `Policy.Clamp(upper, lower)` and nothing else changes. |
| `Cli.Arguments.CountSuspicious` | zcount.c:150-152 | In place, `retcode` becomes `Policy.Tally(retcode, zeros)` and nothing else changes. |
| `Cli.Arguments.Report` | zcount.c:154-162 | The lines of `Policy.Reports` are appended and no field changes. |
| `Cli.Arguments.Evaluate` | zcount.c:146-162 | The three steps together have the effect of `Policy.Evaluate`. Afterwards `lower <= upper` holds when `upper` is non-zero. |
| `Cli.Arguments.ProcessFile` | zcount.c:139-167 | Opening, scanning and evaluating a file argument in place has the effect of `Policy.OnFile`. |
| `Cli.Arguments.ProcessStdin` | zcount.c:170-190 | Scanning and evaluating standard input in place has the effect of `Policy.OnStdin`. |
| `Cli.Zcount` | zcount.c:211-219 | The program's exit status and the lines it writes are those of `Policy.Run`. Options go first, in order, then each file argument in order, or stdin once when there are no file arguments. |
| `Laws.OptionsSet` | zcount.c:111-136 | Accepted options set verbosity to the number of `-v` (saturated at INT_MAX), `upper` and `lower` to the last `-u` and `-l` given, and change nothing else. |
| `Laws.RunOptions` | zcount.c:103-136 | Before any input, the record is (min(INT_MAX, #`-v`), last `-u` or 0, last `-l` or 1, retcode 0, nothing written). |
| `Laws.RejectedOptions` | zcount.c:117-136 | A malformed number stops option processing. Only its error line and the abort line are added, and retcode is untouched. |
| `Laws.RunRejected` | zcount.c:193-195 | A run with a malformed number writes exactly those two lines, scans no input and exits with status 0. |
| `Laws.FilesEffect` | zcount.c:139-167 | Over the file arguments, verbosity and upper stay fixed. retcode grows by the number of opened files with a non-zero count, saturated at INT_MAX. lower is clamped exactly when some file opened. |
| `Laws.RunTally` | zcount.c:151-152 | The exit status is the number of opened inputs with a non-zero count, saturated at INT_MAX. For stdin it is 1 or 0. The lower threshold plays no part. |
| `Laws.RunThresholds` | zcount.c:147-148 | After a run, `upper` is the last `-u`. `lower` is the last `-l` (default 1), clamped to a non-zero `upper` when stdin or at least one file was scanned. Otherwise it is untouched. |
| `Laws.VerboseLinePerInput` | zcount.c:157-165 | From verbosity 2, the number of lines grows by exactly one per file argument, whether it opened or not. |
| `Laws.SilentOnlyFailures` | zcount.c:155-165 | At verbosity 0 the only lines are the open failures, one per file that did not open, in order. |
| `Laws.StdoutOnlyClean` | zcount.c:155-162 | Every line on stdout is a "clean" line and appears only at verbosity 2 or more. Everything else goes to stderr. |
| `Scenarios.MixedCount` | zcount.c:42-43 | The ten bytes 0,1,0,2,0,3,0,4,0,5 are scanned in full and count 5. |
| `Scenarios.OneFile` | zcount.c:139 | A single file argument is processed once. |
| `Scenarios.SilentSuspicious` | zcount.c:103-108 | With default options that file writes nothing and the exit status is 1. |
| `Scenarios.ReportFive` | zcount.c:157-161 | At verbosity 2 with default thresholds, a count of 5 writes one stderr "seems corrupted" line and sets retcode to 1. |
| `Scenarios.TwoVerbose` | zcount.c:111-114 | `-v -v` is accepted and sets verbosity 2. |
| `Scenarios.VeryVerboseSuspicious` | zcount.c:155-162 | With `-v -v` that file writes exactly one stderr "seems corrupted, 5" line and the exit status is 1. |
| `Scenarios.UpperStopsScan` | zcount.c:40-43 | With `-u 2`, three zero bytes count 2, the file is suspicious and the exit status is 1. |
| `Scenarios.EmptyStdin` | zcount.c:170-190 | Empty stdin with no options counts 0, writes nothing and exits with 0. |
| `Scenarios.MissingThenClean` | zcount.c:141-165 | With `-v`, a file that fails to open and then a clean file write only the open failure, and the exit status is 0. |
| `Scenarios.TallyIgnoresLower` | zcount.c:151-152 | With `-v -l 5`, a file with one zero byte is not reported but still raises the exit status to 1. |
| `Scenarios.ClampedBoundary` | zcount.c:147-148 | With `-l` above a non-zero `-u`, lower becomes `upper`. At verbosity 1 a line appears exactly when the count reaches the limit. |

## Left out

- Option-parsing machinery: permuting options and arguments, unknown options,
  `--help`, `--version` and the usage text. That code belongs to the option
  parser, which is not part of this model. Options are taken before the file
  arguments, in command-line order, as the parser delivers them by default.
- Converting the numbers of `-u` and `-l` (`strtoul` with base prefixes, sign
  and overflow behaviour). `-u`/`-l` arrive as validated `ULong` values, and
  a number with trailing characters arrives as `Opt.Malformed`.
- Policy.ApplyOption: for a malformed number it does not store the partial
  result of `strtoul` into `upper` or `lower`. No input is scanned after it,
  so the value is never used.
- `fopen`, `fclose`, `getc`, `strerror`. An opened file is its byte sequence
  and a failed open carries its error text unchanged. A read error during the
  scan is not modelled; it would look to the loop like an earlier end of input.
- Scanner.CountZB: does not model how far the stream has been read when the
  scan stops. The file is closed right after, and stdin is read only once.
- The target where `char` is unsigned. There `c` never equals EOF, so at end of
  input the loop reads EOF forever unless the limit was reached.
- `fprintf` formatting and `%lu` rendering. Lines are logged as structured
  events.
- The operating system's truncation of the exit status to 8 bits.
