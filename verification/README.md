# php-fpm status to Cloud Monitoring: a Dafny model

`main.php` reads the plain-text status page of a php-fpm pool. `FpmStatus`
parses it into a map of fields, and `FpmReporter::writeSeriesData` turns
those fields into batches of monitoring time series, one batch per metric
group. This project models the part of that which is pure logic:

- `FpmStatus::parse` works in four steps:
  - it rewrites line endings (`str_replace(["\r\n","\r"], "\n", ...)`);
  - it splits the text into lines (`explode`);
  - it matches each line against `/^(\w[\w\s]*\w)\s*:\s*(.+)\s*$/`;
  - it collapses each whitespace run in the key into `_` and stores the entries last-write-wins.
- The lookups `__get` and `__isset`.
- The `METRIC_TYPES` table and the descriptor kind of each group.
- The series plan inside `writeSeriesData`:
  - which groups are sent, and in what order;
  - which `value_type` labels each group sends, and which fields they read;
  - the metric type, resource and interval of each series.

Modules, one per file:

- `CharClasses`: PCRE's `\w` (`[A-Za-z0-9_]`) and `\s` (space, tab, line feed,
  vertical tab, form feed, carriage return). This is the default character
  table with no `u` modifier.
- `TextLines` covers the two replacement passes, `explode` and `implode`. It
  also has a reference splitter that treats `\r\n`, a lone `\r` and `\n` each
  as one separator.
- `LinePattern` models the line pattern twice:
  - `IsPatternMatch` is the pattern read as a grammar: every way a line can be
    cut into its parts.
  - `MatchSpan`/`MatchLine` is a hand-written matcher.
  - `MatchSpanIsPcreChoice` proves that the matcher returns exactly the cut
    PCRE's backtracking order reaches first.
- `StatusKey`: `preg_replace('/\s+/', '_', $key)`.
- `FpmStatus` covers the parse fold, the `Status` value with `Get`
  (`__get`) and `IsSet` (`__isset`), and the last-write-wins and replacement
  properties.
- `Sample`: the example report from the doc comment of `parse` and its
  fourteen entries.
- `FpmReporter`: the groups, metric types and field tables, and
  `WriteSeriesData`, the list of `createTimeSeries` batches as a pure function.
- `SampleSeries`: what the reporter sends for the example report.

Inputs the model cannot compute are parameters:

- The wall clock (`time()`) is the parameter `now`.
- The date parser (`strtotime`) is the function parameter `strtotime`. It is
  applied to the `__get('start_time')` result, which is `null` (`None`) when
  the field is missing.

## Model

| member | source | states |
|---|---|---|
| TextLines.LinesSplitAtEverySeparator | main.php:298-299 | after the two replacement passes no carriage return is left; the lines `parse` iterates over are the pieces between every `\r\n`, lone `\r` and `\n`, as an independent splitter cuts them |
| TextLines.JoinExplode | main.php:299 | joining the pieces of `explode` with line feeds gives back the text |
| TextLines.ExplodeJoin | main.php:299 | exploding lines joined with line feeds gives back the lines, when no line holds a line feed |
| TextLines.ExplodeIsSubsequence | main.php:299 | every character of every line `explode` produces comes from the text it splits |
| LinePattern.MatchSpanIsPcreChoice | main.php:303 | on a line without a line feed, the matcher fails exactly when no cut of the line fits the pattern; when it succeeds, its cut fits and no other fitting cut comes earlier in PCRE's backtracking order (longest key, then longest padding after the colon, then longest value) |
| LinePattern.MatchLine | main.php:303-306 | a captured key is two or more word or whitespace characters, has a word character first and last, and holds no colon; the captured value is not empty |
| LinePattern.MatchWellFormedLine | main.php:303-306 | key, whitespace, colon, whitespace, value (without a line feed, as on every line `parse` matches): the groups are exactly the key and the value, and the value keeps any further colons and its trailing whitespace |
| LinePattern.MatchBlankValue | main.php:303-306 | when only whitespace other than the line feed follows the colon, the value is the last whitespace character |
| LinePattern.UnmatchedLines | main.php:303-305 | an empty line, a line without a colon, a line starting with whitespace, and a line whose first colon is its last character do not match |
| LinePattern.OneCharacterKey | main.php:303-305 | a one-character key does not match, whatever whitespace follows it |
| StatusKey.NormalizeKeyShape | main.php:307 | replacing whitespace runs never lengthens a key, leaves only word characters in a key of word and whitespace characters, and keeps a non-whitespace first and last character |
| StatusKey.NormalizedKeyIsStatusKey | main.php:303-307 | every captured key becomes a key of two or more word characters, with the same first and last character |
| StatusKey.NormalizeKeyFixedPoints | main.php:307 | a key is left unchanged exactly when it holds no whitespace |
| StatusKey.NormalizeKeyIdempotent | main.php:307 | replacing twice is replacing once |
| StatusKey.NormalizeWordThenSpace | main.php:307 | a whitespace run between a word and the rest becomes exactly one `_` |
| FpmStatus.Entry | main.php:302-308 | a line contributes an entry exactly when it matches; the entry's key is a status key and its value is non-empty |
| FpmStatus.Parse | main.php:296-311 | every parsed key consists of two or more word characters and maps to a non-empty value |
| FpmStatus.ParseLinesLastWriteWins | main.php:300-309 | after the loop a key is present exactly when it was present before or some line sets it; its value is that of the last line setting it; a key no line sets keeps its old value |
| FpmStatus.ParseLastWriteWins | main.php:296-311 | a key is parsed exactly when some line sets it, with the value of the last such line |
| FpmStatus.UnmatchedLineIgnored | main.php:303-305 | inserting a non-matching line anywhere does not change the result |
| FpmStatus.ParsedReplacesData | main.php:308-320 | `parse` replaces the stored map: the old entries have no influence; `__isset(k)` holds exactly when some line sets `k`; `__get(k)` is the last such line's value, and `null` when no line sets `k` |
| FpmStatus.NewStatus | main.php:257-267 | a new status keeps its URL and has no fields set |
| Sample.SampleReportParses | main.php:281-294 | the example report parses to exactly its fourteen entries, among them `process_manager` = `dynamic` and `start_time` = `23/Jun/2019:12:13:50 +0200` |
| FpmReporter.MetricType | main.php:70-74 | each group's metric type is the common `custom.googleapis.com/php_fpm/` prefix followed by the group's key |
| FpmReporter.MetricTypesDistinct | main.php:70-74 | the three groups have three different metric types |
| FpmReporter.FieldsWellFormed | main.php:196-219 | within a group the `value_type` labels are distinct, and every field read has the shape of a parsed key (two or more word characters) |
| FpmReporter.GroupInterval | main.php:191-215 | the interval ends at `now`; it has a start time exactly for the group declared CUMULATIVE (requests, main.php:149; processes and queues are GAUGE, main.php:100 and main.php:125); that start time is `strtotime` of the `start_time` field |
| FpmReporter.GroupSeries | main.php:224-244 | one series per table entry, in table order, each with the group's metric type, the entry's label, the entry's field value or `null`, the group's interval and the `global` resource of the project |
| FpmReporter.GroupBatch | main.php:196-222 | a group is skipped exactly when it is queues and `listen_queue` is not set; otherwise its batch has one series per table entry |
| FpmReporter.PlanGroupsEmitted | main.php:190-249 | the batches sent are those of the groups not skipped, in loop order, each that group's own batch |
| FpmReporter.PlanSeriesTotal | main.php:190-249 | the number of series sent is the number of table entries of the groups not skipped |
| FpmReporter.EmittedGroups | main.php:190-222 | the groups are sent in order processes, queues, requests when `listen_queue` is set, whatever its value, and processes, requests otherwise |
| FpmReporter.SeriesSent | main.php:190-244 | every series sent has its group's metric type, its table entry's label and field value, the project's `global` resource, an end time of `now`, and a start time exactly for the cumulative group |
| FpmReporter.SeriesCount | main.php:190-247 | nine series are sent when `listen_queue` is set, six otherwise |
| FpmReporter.NothingParsed | main.php:196-202 | with no fields parsed, processes still sends four series and requests two, all without values |
| FpmReporter.ZeroListenQueueSent | main.php:203-209 | a `listen_queue` of `0` still sends the queues batch, whose `listen` series reports `0` |
| SampleSeries.SampleSeriesSent | main.php:183-251 | for the example report, all three groups are sent: processes 6, 1, 7, 13; queues 0, 0, 0; requests 37211 and 0, starting at `strtotime` of the example's start time |

## Left out

- Fetching the status page (`file_get_contents`) and the exception when its content is falsy, which includes the text `0`. This is network I/O.
- Credentials, environment variables and command-line flags. These are process and environment I/O.
- Every `MetricServiceClient` call: `createMetricDescriptor`, `deleteMetricDescriptor`, `createTimeSeries` and the protobuf objects. These are calls into the Cloud SDK. The model stops at the list of batches `createTimeSeries` would receive. From the descriptors it keeps only each group's metric kind.
- `time()` is read once per group in the source. The model reads it once, as `now`, because the clock is not part of the model.
- `strtotime` is not modelled. It is a date-parsing library with timezone rules, so it is a parameter. That parameter also covers PHP's handling of a `false` result.
- Conversion of the raw field strings to int64 inside `GCM_TypedValue`. This is library behaviour; the model carries values as raw strings, or `None` for `null`.
- The `LogicException` branch of `writeSeriesData` cannot be reached: `METRIC_TYPES` has exactly the three groups, and the model's `Group` type has exactly those three values.
- PCRE's backtracking and recursion limits, under which `preg_match` fails with an error. These are runtime resource limits.
- Locale-dependent or Unicode character classes. The pattern has no `u` modifier, so `\w` and `\s` are taken to be the ASCII classes of PCRE's default table.
- `print_r` debug output.
- LinePattern.MatchLine: agrees with `preg_match` only on lines without a line feed. On a line that holds one, PCRE's `$` and `.` treat the line feed specially, and this model does not handle that. `parse` only matches pieces produced by splitting on `\n`, so it never passes one.
- LinePattern.MatchSpanIsPcreChoice: stated only for lines without a line feed, for the same reason.
