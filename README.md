# vmstat / jstat report: a Dafny model of `Report.java`

This project models the core of the vmstat/jstat report tool. The tool reads CSV logs of `vmstat` or `jstat` samples and turns them into charts, one per category, plus an optional file of statistics. The model covers:

- **Argument loop and files** (`Arguments`): the command-line loop in `main`, and the choice of input files. The settings are a value (`Options`) that the loop threads through, instead of static fields. The result is `Usage` for `-h`, `--help` or a trailing `-o`, `Crash` when `charAt(0)` or `substring(0, 2)` throws, or the settings and file names. `Resolve` then chooses between printing the usage text and processing the files, in single-file mode when there is exactly one.
- **Category tables** (`Categories`):
  - the selected, capacity and counter categories, and the title translator;
  - the unit naming convention;
  - the capacity companion name: drop the last character, append `C`;
  - the alphanumeric sanitising of stats names.
- **Derived series** (`Series`): the x-axis `period * n`, the first difference (the "rate" of a counter), and the running cumulative average. Each is a method with its loop, proved against a reference definition (`Axis`, `Diff`, `Means`).
- **Statistics** (`Statistics`): the `writeStatsToFile` loop, kept exactly as written. `values[0]` seeds min, max and the average. The loop folds `values[1..]` into min, max, the sum, the average and the stdev recurrence. The reported sample count is `length - 1`.
- **Report assembly** (`Reports`, `ChartMaps`):
  - the header split, where a vmstat `procs` line is skipped;
  - the column filter loop of `createReports`, with every exception it can throw;
  - the companion capacity series;
  - the chart map, a `LinkedHashMap`, modelled as its entries in insertion order (`ChartMaps.Put`);
  - the statistics blocks, in the order they are written.

  `ReportOfFile` feeds the real number reader, `Numbers.ParseDouble`, into the general `ReportOf`.

`Numbers` models the decimal subset of `Double.parseDouble` that the logs use. Its `None` stands for `NumberFormatException`. Samples are real numbers.

Where documented behaviour and the code differ, the model follows the code:

- **Capacity companion name.** The name is the column name without its last character, plus `C`. So `S0` maps to `SC`, not `S0C`, and gets no companion. `S0U` maps to `S0C` (`Categories.CapacityNameExamples`).
- **Statistics.** The sum and the average cover `values[1..]` only: the first value seeds the average, and the first update drops it (`Statistics.MeanAtIsMean`). On `[1, 2, 3, 4, 5]` the sum is 14 and the average 3.5. The reported SAMPLES is `length - 1`.
- **NaN samples.** The guard at line 532 compares with `== Double.NaN`, so it never skips a sample. The model has no NaN, so it has no skip either.
- **Titles.** A category without a translator entry gets no title (`null`) (`Categories.Title`). An example is a column that is charted only under `-a` and has no entry: the metaspace column `MU` of newer `jstat` versions. The five counters' rate keys all have entries (`Categories.RateTitles`).

All source paths below are in `src/main/java/org/mobicents/qa/report/vmstat/Report.java`.

## Model

| member | source | states |
|---|---|---|
| Categories.Title | src/main/java/org/mobicents/qa/report/vmstat/Report.java:447 | a title exists exactly for the categories in the translator table, and it is that entry; any other category has none |
| Categories.RateTitles | src/main/java/org/mobicents/qa/report/vmstat/Report.java:150-154 | the rate key of every counter category has a title |
| Categories.Unit | src/main/java/org/mobicents/qa/report/vmstat/Report.java:386-387 | the unit is "kbytes" iff the name ends in U, "sec" iff it ends in T, "collections" iff it ends in C, and "unit" iff it ends in none of them |
| Categories.RateUnit | src/main/java/org/mobicents/qa/report/vmstat/Report.java:414 | the rate's unit is "sec/sec" iff the counter's name ends in T, else "collections/sec" |
| Categories.CapacityName | src/main/java/org/mobicents/qa/report/vmstat/Report.java:392 | the companion name has the column name's length, keeps all but its last character and ends in C |
| Categories.CapacityNameExamples | src/main/java/org/mobicents/qa/report/vmstat/Report.java:392 | EU gives EC and S0U gives S0C, but S0 gives SC and E gives C |
| Categories.CapacityNameMatches | src/main/java/org/mobicents/qa/report/vmstat/Report.java:392-393 | a column has a capacity companion category iff it is a three-letter S0x/S1x name or a two-letter Ex/Ox/Px name |
| Categories.Sanitize | src/main/java/org/mobicents/qa/report/vmstat/Report.java:555 | the sanitised name contains only ASCII letters and digits and is no longer than the original |
| Categories.SanitizeAppend | src/main/java/org/mobicents/qa/report/vmstat/Report.java:555 | sanitising distributes over concatenation |
| Categories.SanitizeChar | src/main/java/org/mobicents/qa/report/vmstat/Report.java:555 | a single character is kept iff it is an ASCII letter or digit |
| Categories.SanitizeAlphanumeric | src/main/java/org/mobicents/qa/report/vmstat/Report.java:555 | an all-alphanumeric name is left as it is |
| Categories.SanitizeIdempotent | src/main/java/org/mobicents/qa/report/vmstat/Report.java:555 | sanitising twice is sanitising once |
| Categories.SanitizeRateName | src/main/java/org/mobicents/qa/report/vmstat/Report.java:414 | a rate block is named after the sanitised counter name followed by "ddt" |
| Numbers.ParseNatToString | src/main/java/org/mobicents/qa/report/vmstat/Report.java:484 | the number reader reads the decimal rendering of every natural number back as that number |
| Numbers.ParseNegative | src/main/java/org/mobicents/qa/report/vmstat/Report.java:484 | a leading minus sign keeps a cell numeric iff it was, and negates its value |
| Numbers.ParseDouble | src/main/java/org/mobicents/qa/report/vmstat/Report.java:484 | the number reader used for cells here, at line 372 and for -t at line 256: an empty string is not a number, and a string of digits is read as the integer it denotes |
| Numbers.Find | src/main/java/org/mobicents/qa/report/vmstat/Report.java:484 | the result is the first position holding either character, or the length when there is none |
| Series.ReferenceData | src/main/java/org/mobicents/qa/report/vmstat/Report.java:342-346 | the x-axis fill loop produces sample n's time period * n, for every row |
| Series.DiffOperator | src/main/java/org/mobicents/qa/report/vmstat/Report.java:489-499 | the result is the first difference: 0, then each sample minus the one before; an empty input comes back empty |
| Series.RunningAverage | src/main/java/org/mobicents/qa/report/vmstat/Report.java:501-512 | an empty input is the IllegalArgumentException; otherwise entry n is the arithmetic mean of samples 0..n |
| Series.MeansStep | src/main/java/org/mobicents/qa/report/vmstat/Report.java:508 | the incremental update the loop applies turns the mean of samples 0..n-1 into the mean of samples 0..n |
| Series.MeansFirst | src/main/java/org/mobicents/qa/report/vmstat/Report.java:505 | the first running average is the first sample |
| Series.MeansConstant | src/main/java/org/mobicents/qa/report/vmstat/Report.java:501-512 | the running average of a constant series is that series |
| Series.MeansWithinBounds | src/main/java/org/mobicents/qa/report/vmstat/Report.java:501-512 | every running average lies within any bounds that hold for all samples |
| Series.DiffTelescopes | src/main/java/org/mobicents/qa/report/vmstat/Report.java:489-499 | summing the rate series up to n gives sample n minus sample 0, so the prefix sum undoes the first difference |
| Statistics.MinOf | src/main/java/org/mobicents/qa/report/vmstat/Report.java:524-537 | the minimum is one of the values and no value is below it |
| Statistics.MaxOf | src/main/java/org/mobicents/qa/report/vmstat/Report.java:525-540 | the maximum is one of the values and no value is above it |
| Statistics.FoldStep | src/main/java/org/mobicents/qa/report/vmstat/Report.java:535-541 | one iteration's min, max and sum updates extend the minimum, maximum and sum of the prefix by the next value |
| Statistics.AverageUpdate | src/main/java/org/mobicents/qa/report/vmstat/Report.java:542-543 | one iteration's average update yields the average after that iteration |
| Statistics.StdevUpdate | src/main/java/org/mobicents/qa/report/vmstat/Report.java:546-551 | one iteration's stdev update, including the special first step, yields the recurrence's value after that iteration |
| Statistics.MeanAtIsMean | src/main/java/org/mobicents/qa/report/vmstat/Report.java:526-543 | after k iterations the average is the arithmetic mean of values 1..k: the seed values[0] is dropped |
| Statistics.StdevNonNegative | src/main/java/org/mobicents/qa/report/vmstat/Report.java:527-551 | the stdev recurrence never becomes negative |
| Statistics.StdevConstant | src/main/java/org/mobicents/qa/report/vmstat/Report.java:546-551 | a constant input has a zero stdev |
| Statistics.StatsMeaning | src/main/java/org/mobicents/qa/report/vmstat/Report.java:524-562 | SAMPLES is length - 1, SUM is the sum of values[1..], MIN and MAX are the least and greatest value, AVG is the mean of values[1..] (values[0] for a single value), STD is non-negative, and the name is alphanumeric |
| Statistics.StatsOfConstant | src/main/java/org/mobicents/qa/report/vmstat/Report.java:524-552 | on a constant input, min, max and average are the constant and the stdev is zero |
| Statistics.FoldMoments | src/main/java/org/mobicents/qa/report/vmstat/Report.java:542-551 | the loop's update of the average and the stdev by the next value gives their values after that iteration |
| Statistics.WriteStatsToFile | src/main/java/org/mobicents/qa/report/vmstat/Report.java:514-562 | nothing is written iff there are no values or no stream; otherwise the block written is the statistics of the values, under the sanitised name |
| Arguments.CsvFiles | src/main/java/org/mobicents/qa/report/vmstat/Report.java:278-291 | the files picked up are exactly the listed names that end in ".csv" |
| Arguments.Resolve | src/main/java/org/mobicents/qa/report/vmstat/Report.java:269-304 | the usage text is shown for a usage outcome, or when no file was named and none is found; named files are processed as given, otherwise the ".csv" files listed; single-file mode holds iff there is exactly one file; processing keeps the parsed settings |
| Arguments.RunInOutput | src/main/java/org/mobicents/qa/report/vmstat/Report.java:219-248 | the loop expects an output name exactly after an "-o" that is not itself an output name |
| Arguments.RunFiles | src/main/java/org/mobicents/qa/report/vmstat/Report.java:225-227 | the file names collected are exactly the tokens not starting with '-' that are not output names |
| Arguments.StepFlag | src/main/java/org/mobicents/qa/report/vmstat/Report.java:229-253 | one token sets a flag iff it is that flag's option outside an output name, and no token clears one |
| Arguments.RunFlag | src/main/java/org/mobicents/qa/report/vmstat/Report.java:229-253 | each of -a, -p, -b, -s is set iff that option occurs as a token that is not an output name |
| Arguments.RunOutput | src/main/java/org/mobicents/qa/report/vmstat/Report.java:219-224 | the output name is the last token that follows an "-o", or the default |
| Arguments.StepPeriod | src/main/java/org/mobicents/qa/report/vmstat/Report.java:254-262 | a "-t" token sets the period iff the rest of it is a number, and otherwise leaves it |
| Arguments.RunPeriod | src/main/java/org/mobicents/qa/report/vmstat/Report.java:254-262 | the period is that of the last "-t" token with a numeric rest, or the default 1 |
| Arguments.ProceedState | src/main/java/org/mobicents/qa/report/vmstat/Report.java:218-272 | when the loop completes normally, the files, flags, output name and period are those the tokens give |
| Arguments.OutputTakesNextToken | src/main/java/org/mobicents/qa/report/vmstat/Report.java:219-248 | "-o" takes the next token as the output name, whatever it is, and not as a file |
| Arguments.RunStops | src/main/java/org/mobicents/qa/report/vmstat/Report.java:263-266 | once the loop has returned or thrown, later tokens change nothing |
| Arguments.HelpStops | src/main/java/org/mobicents/qa/report/vmstat/Report.java:263-266 | a -h or --help token outside an output name ends in the usage text |
| Arguments.ShortTokenCrashes | src/main/java/org/mobicents/qa/report/vmstat/Report.java:225-254 | an empty token or a lone "-" outside an output name throws |
| Arguments.TrailingOutputOption | src/main/java/org/mobicents/qa/report/vmstat/Report.java:269-272 | an "-o" as the last token ends in the usage text |
| Arguments.ParseArguments | src/main/java/org/mobicents/qa/report/vmstat/Report.java:216-272 | the argument loop's outcome is that of the token-by-token model |
| ChartMaps.Put | src/main/java/org/mobicents/qa/report/vmstat/Report.java:407 | putting a new key appends its chart; putting a known key keeps the map's length and key order |
| ChartMaps.PutMembers | src/main/java/org/mobicents/qa/report/vmstat/Report.java:407 | after a put the map contains the new chart, and every chart in it was there before or is the new one |
| ChartMaps.InsertAllMembers | src/main/java/org/mobicents/qa/report/vmstat/Report.java:349 | the map's keys are exactly the keys put |
| ChartMaps.InsertAllDistinct | src/main/java/org/mobicents/qa/report/vmstat/Report.java:349 | when no key is put twice, the key order is the put order |
| ChartMaps.PutAllKeys | src/main/java/org/mobicents/qa/report/vmstat/Report.java:407-419 | further puts continue the key order of the earlier ones |
| ChartMaps.PutAllFresh | src/main/java/org/mobicents/qa/report/vmstat/Report.java:407-419 | putting charts with new, distinct keys appends them in order |
| ChartMaps.PutAllMembers | src/main/java/org/mobicents/qa/report/vmstat/Report.java:407-419 | every chart after a series of puts was there before or was put |
| Reports.ColumnValues | src/main/java/org/mobicents/qa/report/vmstat/Report.java:479-487 | a column read has one value per data row |
| Reports.ColumnValuesMeaning | src/main/java/org/mobicents/qa/report/vmstat/Report.java:479-487 | value r is cell r of the column; the read succeeds iff every row has a numeric cell there; a failure is the first failing row's exception |
| Reports.ColumnFailureStays | src/main/java/org/mobicents/qa/report/vmstat/Report.java:483-485 | an exception in the first m rows is the exception of the whole read |
| Reports.GetDoubleFromValues | src/main/java/org/mobicents/qa/report/vmstat/Report.java:479-487 | the loop computes the column read |
| Reports.FirstIndex | src/main/java/org/mobicents/qa/report/vmstat/Report.java:394-401 | the index is at the first occurrence of the name, and is the header's length iff the name is absent |
| Reports.FindColumn | src/main/java/org/mobicents/qa/report/vmstat/Report.java:394-401 | the search loop finds the first column of that name |
| Reports.CapacityLines | src/main/java/org/mobicents/qa/report/vmstat/Report.java:392-403 | at most one capacity series is added |
| Reports.CapacityLinesMeaning | src/main/java/org/mobicents/qa/report/vmstat/Report.java:392-403 | a capacity series is added iff the companion name is a capacity category present in the header; it is "name capacity" over the x-axis with the first such column's values; reading that column can throw |
| Reports.CapacitySeries | src/main/java/org/mobicents/qa/report/vmstat/Report.java:392-403 | the companion lookup computes the capacity series above |
| Reports.ColumnStats | src/main/java/org/mobicents/qa/report/vmstat/Report.java:385-415 | a column writes one block per key it puts, under the sanitised key, each reporting rows - 1 samples |
| Reports.ColumnCharts | src/main/java/org/mobicents/qa/report/vmstat/Report.java:405-419 | a column puts its name, and also name#d/dt when it is a counter |
| Reports.SplitHeader | src/main/java/org/mobicents/qa/report/vmstat/Report.java:320-337 | a "procs" first line is skipped; the header is missing iff there is no first line, it has no fields, or nothing follows "procs"; the rest are the data rows |
| Reports.ColumnPartShape | src/main/java/org/mobicents/qa/report/vmstat/Report.java:359-420 | a column contributes iff it is selected (or all charts are on), is not a capacity column, and its row-0 cell is numeric; it then contributes its charts, and its blocks only when stats are on |
| Reports.ChartColumn | src/main/java/org/mobicents/qa/report/vmstat/Report.java:384-420 | the body after the filters is one step of the column fold |
| Reports.ProcessColumn | src/main/java/org/mobicents/qa/report/vmstat/Report.java:359-420 | one loop iteration is one step of the column fold: skip, throw, or put and write |
| Reports.CreateCharts | src/main/java/org/mobicents/qa/report/vmstat/Report.java:342-421 | the column loop computes the fold over all columns |
| Reports.CreateReports | src/main/java/org/mobicents/qa/report/vmstat/Report.java:314-421 | createReports computes the report of the file's lines, or its exception |
| Reports.FoldFailureStays | src/main/java/org/mobicents/qa/report/vmstat/Report.java:359-421 | an exception in the first k columns is the exception of the whole loop |
| Reports.FoldSuccess | src/main/java/org/mobicents/qa/report/vmstat/Report.java:359-421 | a loop that completes had no column throwing |
| Reports.FoldKeys | src/main/java/org/mobicents/qa/report/vmstat/Report.java:407-419 | the map's key order is the insertion order of all puts |
| Reports.FoldFresh | src/main/java/org/mobicents/qa/report/vmstat/Report.java:407-419 | when no key is put twice, the map is the puts in order |
| Reports.FoldStats | src/main/java/org/mobicents/qa/report/vmstat/Report.java:385-415 | the blocks are those of every column, in column order |
| Reports.FoldMembers | src/main/java/org/mobicents/qa/report/vmstat/Report.java:407-419 | every chart in the map was put by some column |
| Reports.ChartKeys | src/main/java/org/mobicents/qa/report/vmstat/Report.java:349-420 | the map's keys are exactly the keys the kept columns put; on a header without repeated names or rate-like names, they come in header order |
| Reports.KeyLogMembers | src/main/java/org/mobicents/qa/report/vmstat/Report.java:359-420 | a key is put iff some kept column puts it |
| Reports.KeyLogDistinct | src/main/java/org/mobicents/qa/report/vmstat/Report.java:359-420 | on such a header no key is put twice |
| Reports.AddedDisjoint | src/main/java/org/mobicents/qa/report/vmstat/Report.java:407-419 | on such a header two columns never put the same key |
| Reports.ColumnCharted | src/main/java/org/mobicents/qa/report/vmstat/Report.java:360-419 | a column's name is a key iff the column is kept, and its rate key is one iff it is kept and a counter |
| Reports.ChartOrder | src/main/java/org/mobicents/qa/report/vmstat/Report.java:349-420 | a kept column's key sits right after the keys of earlier columns, its rate key right after it, and both before any later column's keys |
| Reports.ChartContents | src/main/java/org/mobicents/qa/report/vmstat/Report.java:392-419 | a kept column's chart holds its capacity series if any, its running average and its raw values; a counter's rate chart holds the running average of the rate and the rate |
| Reports.LinesAligned | src/main/java/org/mobicents/qa/report/vmstat/Report.java:342-418 | every series in the map lies on the shared x-axis and has one value per data row |
| Reports.StatsBlocks | src/main/java/org/mobicents/qa/report/vmstat/Report.java:385-415 | with stats on, one block is written per key put, in put order, sanitised, each with rows - 1 samples; with stats off, none |
| Reports.StatsContents | src/main/java/org/mobicents/qa/report/vmstat/Report.java:385-415 | with stats on, the block at a kept column's key position is the statistics of its values under its unit; for a counter, the next is the statistics of its rate under the rate unit |
| Reports.EmptyData | src/main/java/org/mobicents/qa/report/vmstat/Report.java:336-372 | with no data rows the loop throws iff some column passes the category filters, and otherwise gives an empty report |

## Left out

- Logging and the debug dump of the arguments: they do not affect the result.
- The directory scan (lines 276-287): the directory's file names are passed to `Resolve` as `listing`. The `UnsupportedEncodingException` fallback is not modelled.
- The CSV reader `OpenCsvReader`: each file comes as a sequence of lines, each a sequence of fields. An IOException while reading is not modelled.
- Opening and naming the stats and PDF files (lines 352-357, 433, 443, 459). `FileNotFoundException` is not modelled either. The stats stream is open exactly when stats are on.
- The PDF and PNG rendering, `bigCharts` sizing and the `printCharts` export (lines 429-468) are not modelled. The early return for an empty map (lines 424-427) only skips that rendering; the map itself is still modelled. Rendering can still change what the program does, in two ways this model does not capture:
  - With `-b`, the image width is `period * (rows - 1)` truncated to an int (line 436). When that is 0 or less, for example with one data row, `createBufferedImage` at line 453 throws an IllegalArgumentException. Lines 470-476 do not catch it, so it ends `main` and later files are never processed.
  - With `-p`, a counter's rate key such as `YGC#d/dt` becomes part of the image path at line 462. That path names a directory that does not exist, so the FileNotFoundException is caught at line 470. `document.close()` at line 468 is then skipped, and the PDF is left unfinished.
- The text formatting of stats values (`#0.000`, infinities and NaN shown as `0`): a block is its six numbers, not the text.
- `categoryTypes` (lines 350, 373, 376): it is written but never read.
- Floating point: samples are real numbers, so IEEE-754 rounding, infinities and NaN are absent. This also makes the NaN guard at line 532 dead code.
- Categories.CapacityName: names are sequences of Unicode scalar values, while Java's `substring(0, length() - 1)` at line 392 cuts a UTF-16 code unit. When a name's last character lies outside the Basic Multilingual Plane, the two differ. The model gives `E` followed by an emoji the companion `EC`, which is a capacity category. Java gives `E`, a lone high surrogate and `C`, which is not one. The other string operations of the model agree with Java on such names.
- `Numbers.ParseDouble`: only the decimal subset of `Double.parseDouble` — an optional sign, digits, an optional fraction and an optional exponent. Whitespace trimming, `NaN`, `Infinity`, hexadecimal forms and `d`/`f` suffixes are not modelled.
- `Reports.CreateReports`: a crash returns only the exception. Stats blocks already written to the stream before it are not returned.
- `Series.DiffOperator`: on an empty input the source returns the same array object. The model returns an equal empty sequence, so aliasing is not modelled.
- Several files run in turn (line 307). The model covers one `createReports` call, and static fields that keep the settings between files are passed as `Options`. Each `Crash` of the model is an uncaught runtime exception: `NotANumber`, `RowTooShort`, `NoDataRows`, `EmptyCategoryName` and `MissingHeader`. It escapes `createReports` and `main`, so the files not yet processed in the set never are. Only the I/O and document exceptions are caught per file (lines 470-476). The iteration over the files, in `HashSet` order, is not modelled.
