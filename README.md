# dstat translator of the sample input plugin

This project models the part of the Logstash `sample` input plugin that turns
one dstat CSV dump into metric events (`create_dstat_event`), together with
the fixed lookup table that names each metric column (`resolve_key`). The
proofs are about that model.

dstat writes a dump with a banner on lines 0-4. Line 5 holds the category
header (`total cpu usage,,,,,`, `memory usage,,,`, ...). Line 6 holds the
sub-metric header (`usr,sys,idl,...`). Line 7 holds one sample. The
translator works line by line:

- it deletes every double quote from each line, in place;
- it skips lines that are then empty, but those lines still take up their
  position;
- it stores line 5, parsed as CSV and forward-filled with whitespace turned
  into `_`, in `@first_keys`;
- it stores line 6, split on commas, in `@second_keys`;
- it pairs each cell of line 7 with the two headers by position, and emits
  `{stat, value, host}` when `resolve_key` names the column.

Files:

- `wrappers.dfy`: `Option` and `Result`.
- `text.dfy` (module `Text`): the Ruby string operations the translator
  uses:
  - `String#delete!("\"")`;
  - `gsub(/\s/, '_')`;
  - `CSV.parse_line` on a quote-free line, which is a comma split that reads
    empty cells as nil;
  - `String#split(",")`, which drops trailing empty fields.

  The split and join functions come with their round-trip lemmas.
- `key_map.dfy` (module `KeyMap`): `resolve_key` as a function over the
  ten-category table, the same table as a list of rows, and lemmas relating
  the two.
- `dstat_spec.dfy` (module `Dstat`): the translator as functions:
  - the forward-fill of line 5;
  - the pairing of line 7;
  - `Fold`, the line-by-line walk with the header state threaded through;
  - `Translate`, a closed form of that walk.

  `FoldIsTranslate` proves the two agree, and the properties of a call are
  proved from the closed form.
- `sample_input.dfy` (module `SampleInput`): the plugin object as a class
  `Sample`:
  - fields `host`, `firstKeys` and `secondKeys` for `@host`, `@first_keys`
    and `@second_keys`;
  - `CreateDstatEvent`, which takes the lines as an array that it changes
    in place;
  - loop methods for line 5 (`StoreCategoryHeader`) and line 7
    (`EmitEvents`), each proved against the functions of `Dstat`.
- `scenarios.dfy` (module `Scenarios`): worked inputs. They include a
  category row with gaps, and a whole dump of the CPU columns that yields
  six events.

Three behaviours of the code are worth stating on their own:

- **Misaligned headers are not rejected.** A value row longer than its
  headers is not an error. The code reads past the end of a Ruby array as
  nil, so `resolve_key` returns nil and the column is skipped
  (`PastHeaderColumnIgnored`, `NilHeaderIsTheOnlyError`).
- **Headers carry over between calls.** The headers live in instance
  fields, so a dump without lines 5 and 6 is paired with the headers of an
  earlier dump (`HeadersCarriedOver`).
- **A nil header raises `NoMethodError`.** This happens when line 7 is met
  while `@first_keys` or `@second_keys` is still nil. The model returns
  `Failure(NilHeader)` there. The lines up to 7 have already lost their
  quotes by then, and the headers set earlier in the same call stay set
  (`CreateDstatEvent`, `NilHeaderIsTheOnlyError`).

## Model

| member | source | states |
|---|---|---|
| Text.DeleteQuotes | lib/logstash/inputs/sample.rb:86 | `line.delete!("\"")`: the line with every double quote removed, never longer than the line (its other properties are in the next row) |
| Text.DeleteQuotesRemovesOnlyQuotes | lib/logstash/inputs/sample.rb:86 | after `delete!("\"")` no double quote is left, every other character keeps its number of occurrences, and a line without quotes is unchanged |
| Text.DeleteQuotesAppend | lib/logstash/inputs/sample.rb:86 | quote deletion works piece by piece: deleting from `a + b` equals deleting from `a` then from `b`, so the surviving characters keep their order |
| Text.ReplaceWhitespace | lib/logstash/inputs/sample.rb:97 | `gsub(/\s/, '_')` keeps the length, leaves no whitespace, keeps every non-whitespace character in place and puts exactly one `_` where each whitespace character was |
| Text.ReplaceWhitespaceAppend | lib/logstash/inputs/sample.rb:97 | the replacement works piece by piece, so runs of whitespace are not collapsed |
| Text.SplitFieldsExcludeSeparator | lib/logstash/inputs/sample.rb:91 | no field produced by the comma split contains a comma |
| Text.JoinSplit | lib/logstash/inputs/sample.rb:91 | the comma split loses nothing: its fields joined with commas give the line back |
| Text.SplitJoin | lib/logstash/inputs/sample.rb:91 | comma-free fields are recovered exactly by splitting their join |
| Text.ParseCsvLine | lib/logstash/inputs/sample.rb:91 | `CSV.parse_line` on a quote-free line gives one cell per comma-separated field (at least one), and never a present-but-empty cell: empty fields, trailing ones included, are nil |
| Text.CsvCellsRejoin | lib/logstash/inputs/sample.rb:104 | the cells of `CSV.parse_line`, with nil read as "", joined with commas give the line back |
| Text.CsvParseJoin | lib/logstash/inputs/sample.rb:104 | comma-free cells joined with commas are read back one for one, an empty cell as nil |
| Text.DropTrailingEmpty | lib/logstash/inputs/sample.rb:102 | the result is a prefix of the fields that does not end in "", and every field it drops is "" |
| Text.SplitDroppingTrailing | lib/logstash/inputs/sample.rb:102 | `String#split(",")`: a prefix of the comma fields that does not end in an empty field, with no comma in any field |
| Text.SplitDroppingTrailingJoin | lib/logstash/inputs/sample.rb:102 | `String#split(",")` gives back comma-free fields whose last one is non-empty, interior empty fields included |
| KeyMap.ResolveKey | lib/logstash/inputs/sample.rb:130 | a nil category or nil sub-metric gives nil |
| KeyMap.EntriesResolve | lib/logstash/inputs/sample.rb:119-128 | each of the 28 (category, sub-metric, stat) rows of the table is a lookup `resolve_key` answers with that stat |
| KeyMap.ResolvedIsEntry | lib/logstash/inputs/sample.rb:117-130 | every name `resolve_key` returns is one of the 28 listed rows |
| KeyMap.ResolveKeyIffEntry | lib/logstash/inputs/sample.rb:117-131 | `resolve_key(f, s)` is a given name exactly when both keys are present and (f, s, name) is a row of the table; nil otherwise, nil keys included |
| KeyMap.TenCategories | lib/logstash/inputs/sample.rb:118-128 | the table has exactly the ten categories `load_avg`, `total_cpu_usage`, `net/total`, `/`, `memory_usage`, `dsk/total`, `paging`, `system`, `swap`, `procs` |
| KeyMap.StatNamesDistinct | lib/logstash/inputs/sample.rb:119-128 | no two columns share a stat name |
| KeyMap.ResolveKeyExamples | lib/logstash/inputs/sample.rb:119-130 | `swap/used` is `swap-used`, `total_cpu_usage/siq` is `cpu-siq`, `swap/bogus` and `bogus/used` are nil |
| Dstat.FillCategories | lib/logstash/inputs/sample.rb:92-100 | the forward-fill keeps the number of cells |
| Dstat.FillKeepsNonBlank | lib/logstash/inputs/sample.rb:96-97 | a non-blank cell becomes its own whitespace-replaced text, whatever its neighbours hold |
| Dstat.FillCopiesLeft | lib/logstash/inputs/sample.rb:94-95 | a blank cell after the first takes the value its left neighbour ended up with (`pre_key`) |
| Dstat.FillFromNearest | lib/logstash/inputs/sample.rb:92-100 | a blank cell takes the normalised text of the nearest earlier non-blank cell |
| Dstat.FillWithoutEarlier | lib/logstash/inputs/sample.rb:92-95 | a blank cell with no non-blank cell before it takes the starting `pre_key`, "" |
| Dstat.FillSpreadsGroup | lib/logstash/inputs/sample.rb:92-100 | a category followed only by blank cells fills every column of its group |
| Dstat.FillHasNoWhitespace | lib/logstash/inputs/sample.rb:97-99 | starting from a whitespace-free key, no filled cell contains whitespace |
| Dstat.CategoryHeader | lib/logstash/inputs/sample.rb:91-100 | what line 5 stores in `@first_keys`: the CSV cells forward-filled from "", with one key per parsed cell and no whitespace in any key |
| Dstat.SubMetricHeader | lib/logstash/inputs/sample.rb:102 | what line 6 stores in `@second_keys`: at most one field per CSV cell, no comma in any field, and no trailing empty field |
| Dstat.KeyAt | lib/logstash/inputs/sample.rb:105 | indexing a header array gives a key exactly when the index is inside it, nil past its end |
| Dstat.PairRow | lib/logstash/inputs/sample.rb:104-110 | a value row gives at most one event per cell |
| Dstat.ResolvedColumnsAre | lib/logstash/inputs/sample.rb:104-106 | the columns that produce events are increasing and are exactly the columns below the row length whose pair of keys resolves |
| Dstat.PairRowByColumn | lib/logstash/inputs/sample.rb:104-110 | there is one event per resolved column, in column order; the k-th event has the resolved stat of its column, that column's raw cell as value and the given host |
| Dstat.FullyResolvedRow | lib/logstash/inputs/sample.rb:104-110 | when every column resolves, the row gives exactly one event per cell, in order, each carrying its cell unchanged |
| Dstat.PastHeaderColumnIgnored | lib/logstash/inputs/sample.rb:105-106 | a column past the end of either header never produces an event |
| Dstat.RowEvents | lib/logstash/inputs/sample.rb:103-110 | line 7 paired with the stored headers: it raises exactly when either header is nil, and otherwise gives at most one event per cell |
| Dstat.ProcessLine | lib/logstash/inputs/sample.rb:87-111 | the `next` and `case line_number` dispatch for one quote-free line: an empty line or a line outside 5-7 changes nothing; line 5 alone changes `@first_keys`, line 6 alone changes `@second_keys`, line 7 alone emits; only line 7 with a nil header raises |
| Dstat.Fold | lib/logstash/inputs/sample.rb:84-114 | the `each_with_index` walk: each line loses its quotes and then goes through the dispatch with the headers held so far, its events are appended, and the first raise ends the walk (its properties are the `FoldIsTranslate` row and those after it) |
| Dstat.FoldNext | lib/logstash/inputs/sample.rb:85-111 | one more line that does not raise extends the walk's headers and events by that line's effect |
| Dstat.FoldNextFails | lib/logstash/inputs/sample.rb:103-105 | a line that raises can only be line 7, and the whole call ends with the error and the headers held at that point |
| Dstat.TranslatePrefix | lib/logstash/inputs/sample.rb:88-111 | lines past line 7 change neither the headers nor the outcome |
| Dstat.FoldIsTranslate | lib/logstash/inputs/sample.rb:83-115 | the line-by-line walk equals the closed form: lines 5 and 6 set the headers when non-blank, and a non-blank line 7 alone gives the events or the error |
| Dstat.OnlyValueLineEmits | lib/logstash/inputs/sample.rb:88-111 | events come only from a non-blank line 7, and they are that row paired with the headers held then |
| Dstat.OtherLinesIgnored | lib/logstash/inputs/sample.rb:88-89 | replacing any line other than 5, 6 and 7 changes neither the headers nor the outcome |
| Dstat.BlankLineKeepsSlot | lib/logstash/inputs/sample.rb:85-87 | a line that is blank once its quotes are gone acts as an empty line at its own position: at 5 or 6 it leaves that header as it was, at 7 it gives no events |
| Dstat.HeadersCarriedOver | lib/logstash/inputs/sample.rb:90-105 | without a non-blank line 5 or 6, the headers stay as an earlier call left them and line 7 is paired with them |
| Dstat.NilHeaderIsTheOnlyError | lib/logstash/inputs/sample.rb:103-106 | the call fails exactly when a non-blank line 7 meets a header still unset; headers of different lengths are not an error |
| Dstat.FreshHeadersOverrideState | lib/logstash/inputs/sample.rb:90-102 | with non-blank lines 5 and 6 the result does not depend on the headers left by earlier calls |
| Dstat.FullDumpEvents | lib/logstash/inputs/sample.rb:83-115 | a full quote-free dump gives its value row paired with its own two header rows, whatever was stored before |
| Dstat.RepeatedCallSameResult | lib/logstash/inputs/sample.rb:83-115 | running the same lines again from the headers the first run left gives the same headers and outcome |
| SampleInput.Sample.constructor | lib/logstash/inputs/sample.rb:28-32 | a new input has the given host and no headers yet |
| SampleInput.Sample.StoreCategoryHeader | lib/logstash/inputs/sample.rb:90-100 | the loop with `pre_key` stores in `@first_keys` exactly the forward-filled, whitespace-replaced category header |
| SampleInput.Sample.EmitEvents | lib/logstash/inputs/sample.rb:103-110 | the loop pushing events gives the row paired with the stored headers, or the nil-header error |
| SampleInput.Sample.HandleLine | lib/logstash/inputs/sample.rb:88-111 | the `case line_number` dispatch does what one step of the walk does to the headers and events, and leaves the headers alone when it raises |
| SampleInput.Sample.CreateDstatEvent | lib/logstash/inputs/sample.rb:83-115 | the result and the new header fields are the closed form of the call on the old headers and lines; every visited line loses its quotes in place, and after an error the lines past 7 are untouched |
| Scenarios.TotalCpuUsageNormalised | lib/logstash/inputs/sample.rb:97 | `total cpu usage` becomes `total_cpu_usage`, the table's key |
| Scenarios.GappedCategoryFill | lib/logstash/inputs/sample.rb:92-100 | the cells `cpu`, nil, nil, `mem`, nil fill to `cpu, cpu, cpu, mem, mem` |
| Scenarios.GappedCategoryHeader | lib/logstash/inputs/sample.rb:90-100 | the line `cpu,,,mem,` becomes the header `cpu, cpu, cpu, mem, mem` |
| Scenarios.CpuCategoryFill | lib/logstash/inputs/sample.rb:92-100 | `total cpu usage` followed by five empty cells fills all six columns with `total_cpu_usage` |
| Scenarios.CpuColumnsResolve | lib/logstash/inputs/sample.rb:120 | the six CPU columns resolve to `cpu-usr` ... `cpu-siq` |
| Scenarios.CpuPairing | lib/logstash/inputs/sample.rb:104-110 | the CPU headers paired with `10,5,80,2,1,2` give six events in column order with the raw cell texts |
| Scenarios.CpuCategoryRow | lib/logstash/inputs/sample.rb:90-100 | the row `total cpu usage,,,,,` is stored as six `total_cpu_usage` keys |
| Scenarios.CpuSubMetricRow | lib/logstash/inputs/sample.rb:101-102 | the row `usr,sys,idl,wai,hiq,siq` is stored as its six fields |
| Scenarios.CpuValueRow | lib/logstash/inputs/sample.rb:104 | the row `10,5,80,2,1,2` is read as six present cells |
| Scenarios.CpuDumpRows | lib/logstash/inputs/sample.rb:83-115 | a dump with those three rows at positions 5-7 gives the CPU headers paired with the six cells |
| Scenarios.CpuScenario | lib/logstash/inputs/sample.rb:83-115 | whatever the banner lines say, that dump gives the six events `cpu-usr`=10, `cpu-sys`=5, `cpu-idl`=80, `cpu-wai`=2, `cpu-hiq`=1, `cpu-siq`=2 for the host |

## Left out

- `run` and `Stud.stoppable_sleep` (lib/logstash/inputs/sample.rb:34-50) are left out. They are a polling loop with cooperative cancellation, a wall-clock sleep, and delivery through the framework's `decorate` and queue.
- `exec_dstat` (lib/logstash/inputs/sample.rb:60-73) is left out. It runs a shell command, reads a file and logs any exception. The model starts from the line array that method returns. The path where it returns no array after an exception is not modelled.
- `touch_or_truncate` (lib/logstash/inputs/sample.rb:75-81) is left out. It is a filesystem side effect and a shell `touch`.
- `register` (lib/logstash/inputs/sample.rb:28-32) is left out. The host name it looks up becomes the constructor's `host` parameter. The dstat command string it builds is not used by the translator.
- `stop`, the logger calls, the `config` and `default` declarations, and the internals of `LogStash::Event` are left out. An event is the plain datatype `Event(stat, value, host)`.
- Ruby's `CSV` library is modelled only on the lines it receives here. Those lines have no double quotes and are not empty, so the library acts as a comma split. With its automatic row separator, `CSV.parse_line` treats the first carriage return as the end of the row. So on a CRLF-terminated dump it drops the trailing `\r`, and a carriage return in mid-line cuts the row short. The model keeps every `\r` in its cell (`Some("b\r")` for `a,b\r`). `String#split(",")` keeps it too, as the model does.
- Exceptions become a result value. The `NoMethodError` on a nil header becomes `Failure(NilHeader)`, and the events collected before it are dropped, as the exception would drop them.
- SampleInput.Sample.StoreCategoryHeader: builds the filled header as a new sequence and then assigns `@first_keys`. Ruby instead assigns the parsed array first and rewrites its cells in place. Nothing else can observe that array during the loop, so the final value is the same.
- SampleInput.Sample.CreateDstatEvent: the lines are an array of immutable strings, and each element is replaced by its quote-free version. Ruby instead mutates each string object in place, which other references to the same string would also see. Such aliasing is not modelled.
