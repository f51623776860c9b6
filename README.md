# expense-tracker: record codec, store, paths and argument scanner in Dafny

This project models the core of the `expense-tracker` command-line tool.

- **Record codec** (`psv_codec.dfy`).
  - An `Expense` is written as one line: `timestamp|category|amount|"description"|"tags"\n`.
  - Category and tags are lowercased when written. An absent description is written as the empty string.
  - The loader's loop body reads a line back by trimming it, splitting it on `|` and decoding five fields.
  - Nothing is escaped, so the round trip holds for the expenses described by `Encodable`.
- **Expense store** (`expense_store.dfy`).
  - `ExpenseList` is a class whose `expenseList` field the loader extends line by line, stopping at the first line that fails.
  - Also modelled: listing, the running total (a loop), the filter closure (with its tag loop) and the append-only writer.
- **Path helpers** (`path.rs`, modelled in `path.dfy`).
  - `~/` expansion follows `Path::starts_with` and `PathBuf::push` on Unix.
  - Also modelled: the existence checks, and the choice between the supplied path and the default file.
- **Argument scanner** (`args_parser.dfy`).
  - `filter_parse_args` and `add_parse_args` are loops over the even indices from 2.
  - `parse_args` dispatches on the number of arguments.
- **Category set** (`category.dfy`): `CategoryList` is a class over a set of names.
- **Shared modules.**
  - `text.dfy` models `str::trim` (Unicode White_Space), `split`, `join` and ASCII `to_lowercase`.
  - `wrappers.dfy` holds `Option` and `Result`.

Things the code does but the model receives as parameters:

- The file content (`None` when it cannot be read).
- The home directory.
- `exists` and `is_file`.
- The clock reading.
- The argument list.
- The amount and timestamp formatting and parsing, held in `Formats`. `Formats` holds what `{}`, `str::parse::<f64>` and chrono's `TIME_FORMAT` do.

Panics of the source become explicit error variants:

| Panic | Error variant |
|---|---|
| Out-of-range index | `MissingField`, `MissingValue`, `MissingCommand` |
| Short slice | `UnquotableField`, `SliceOutOfRange` |
| `unwrap` of `None` | `UnwrapNone` |
| `expect` | `UnparsableAmount` |
| `exit(1)` after a message | `UsageExit`, `InvalidArgument`, `DescriptionNotFilterable` |

Some behaviours of the code differ from what a reader would expect; the model keeps the code's behaviour:

- **Empty file.** The file is trimmed and split on newlines, so an empty or blank file has one empty line. That line fails with a missing third field (`EmptyFileDoesNotLoad`), so an empty store does not total 0.
- **Blank lines inside the file** are decoded too, and fail. They are not skipped.
- **Filter tags.** The tag filter keeps an entry when the *last* query tag is among its tags, not when any of them is. The flag is overwritten on every pass of the loop (`LastQueryTagPresent`, `LastTagWinsExample`). The "any tag" reading is `AnyQueryTagPresent`, related by `LastTagImpliesAnyTag` and `SingleTagQueriesAgree`.
- **No escaping.** A `,` inside a tag splits it (`CommaInTagSplits`), and a `|` inside a field shifts the fields after it (`PipeInDescriptionShifts`).
- **Byte slicing.** The quotes are removed by byte slicing, so a quoted field whose first or last character takes more than one byte panics (`CanUnquote`, `QuotedFieldCutsCharacter`).
- **No validation.** `Expense::new` does not check the amount or the category.

## Model

| member | source | states |
|---|---|---|
| PsvCodec.NewExpense | src/expense.rs:56-69 | The expense holds the given amount, category and description, and the clock reading. Absent tags become the empty list. |
| PsvCodec.RecordIsBodyAndNewline | src/expense.rs:84-93 | A record is its five fields joined by `\|`, followed by exactly one newline. |
| PsvCodec.ToPsvRecord | src/expense.rs:84-93 | No ensures; defined as the timestamp, the lowercased category, the amount, the quoted description (empty when absent) and the quoted lowercased comma-joined tags, joined by the pipe character and ended by a newline. `RecordIsBodyAndNewline`, `RoundTrip` and `PipeInDescriptionShifts` state what it guarantees. |
| PsvCodec.DescriptionText | src/expense.rs:90 | No ensures; defined as the description when present, and the empty string otherwise. `AbsentDescriptionReadsBackEmpty` states its effect on the read-back. |
| PsvCodec.Quote | src/expense.rs:86-91 | The quoted field is two characters longer than the text and starts and ends with `"`. `QuoteEdges` and `Unquote` state that it can be undone. |
| PsvCodec.CanUnquote | src/expense.rs:40-42 | No ensures; defined as: the field has at least two characters, and its first and last characters are one byte each. This is exactly when the slice `[1..len - 1]` does not panic. |
| PsvCodec.Unquote | src/expense.rs:40-42 | Requires `CanUnquote`. The result is the field less its first and last characters: two characters shorter, each character the one after it in the field. For a field that starts and ends with `"`, quoting the result gives the field back. |
| PsvCodec.RecordShape | src/expense.rs:84-93 | When no field holds `\|` or a newline, the record ends in its only newline. Splitting it on `\|` gives back the timestamp, the lowercased category, the amount, the quoted description (empty when absent) and the quoted, lowercased, comma-joined tags. |
| PsvCodec.FieldsSafe | src/expense.rs:84-93 | Lowercasing and quoting add no `\|` or newline to the written fields. |
| PsvCodec.DecodeLine | src/expense.rs:37-48 | A decoded line always has a present description and at least one tag. |
| PsvCodec.DecodeFieldList | src/expense.rs:38-48 | The same, for the struct literal evaluated in its written order: amount, description, category, tags, timestamp. |
| PsvCodec.DecodeLineSucceeds | src/expense.rs:37-48 | A line decodes exactly when it has at least five fields (any further fields are ignored), the quoted fields can be byte-sliced (at least two characters, and one-byte first and last characters), and the trimmed amount and the timestamp parse. |
| PsvCodec.QuotedFieldCutsCharacter | src/expense.rs:40 | A description field whose last character takes more than one byte panics on the slice, even when the amount parses. |
| PsvCodec.DecodeShortLine | src/expense.rs:39-47 | A line with fewer than five fields fails. With fewer than three fields it fails on `fields[2]` before anything is parsed. |
| PsvCodec.DecodeIgnoresExtraFields | src/expense.rs:37-48 | Fields after the fifth make no difference. |
| PsvCodec.DecodeFields | src/expense.rs:39-47 | A line built from five fields decodes to them as follows: category as written, quotes dropped from the description, tags trimmed and split on `,`. |
| PsvCodec.DecodeJoinedRecord | src/expense.rs:36-48 | A newline-ended line joined from `\|`-free fields, with no whitespace at its ends, decodes as that field list. |
| PsvCodec.PipeDescriptionRecord | src/expense.rs:84-93 | The record of the description `a\|b` is six `\|`-separated pieces: the quoted description is cut in two. |
| PsvCodec.PipeInDescriptionShifts | src/expense.rs:37-48 | With the description `a\|b`, the record reads back with an empty description and the tags `[""]`. The real tag field is ignored as a sixth field. |
| PsvCodec.SplitJoinedLine | src/expense.rs:37 | A line joined from fields without `\|`, and with no whitespace at its ends, is trimmed and split back into those fields. |
| PsvCodec.JoinedLineEdges | src/expense.rs:36-37 | Such a line is non-empty, has no whitespace at its ends and holds no newline. |
| PsvCodec.DecodeOfTrimmed | src/expense.rs:37 | Decoding depends only on the trimmed line. |
| PsvCodec.DecodeIgnoresNewline | src/expense.rs:36-37 | A trailing newline does not change a line's decoding. |
| PsvCodec.ReadBack | src/expense.rs:84-93 | Reading back keeps the amount and the timestamp, and always yields a description and at least one tag. |
| PsvCodec.TagTextRoundTrip | src/expense.rs:42-46 | A tag list free of `\|`, newlines and `,`, with no outer whitespace, comes back lowercased from join, lowercase, trim and split. The empty list comes back as `[""]`. |
| PsvCodec.JoinFive | src/expense.rs:86 | Five pieces joined are the pieces with the delimiter between each two. |
| PsvCodec.TagsRoundTrip | src/expense.rs:42-46 | The tags of an encodable expense survive join, lowercase, trim and split, lowercased. |
| PsvCodec.DecodeRecordBody | src/expense.rs:37-48 | The record of an encodable expense, without its newline, decodes to its read-back form. |
| PsvCodec.RecordBodyEdges | src/expense.rs:84-93 | That record body is non-empty, has no newline and no whitespace at its ends. |
| PsvCodec.RoundTrip | src/expense.rs:37-48 | Decoding the record of an encodable expense gives it back. Category and tags come back lowercased and the description present. |
| PsvCodec.RoundTripExact | src/expense.rs:84-93 | For a lowercase category, non-empty lowercase tags and a present description, the round trip is the identity. |
| PsvCodec.AbsentDescriptionReadsBackEmpty | src/expense.rs:90 | An absent description reads back as `Some("")`. |
| PsvCodec.EmptyTagsReadBackAsOneEmptyTag | src/expense.rs:42-46 | An empty tag list reads back as `[""]`. |
| PsvCodec.CommaInTagSplits | src/expense.rs:91 | The single tag `a,b` reads back as the tags `a` and `b`, because nothing is escaped. |
| PsvCodec.QuoteEdges | src/expense.rs:86 | A quoted field has no whitespace at its ends. |
| Text.ToLowerEdges | src/expense.rs:88 | Lowercasing keeps each end of a string free of whitespace. |
| ExpenseStore.ReadLines | src/expense.rs:36 | The loader always visits at least one line. |
| ExpenseStore.DecodeEach | src/expense.rs:36-48 | There is one result per line, and each is that line decoded on its own. |
| ExpenseStore.Collect | src/expense.rs:36-49 | The loop keeps at most one value per result, and stops early exactly when it keeps fewer values than there are results. |
| ExpenseStore.CollectCollectsAs | src/expense.rs:36-49 | The kept values are those of the first results, in order. A stop is the error right after them. |
| ExpenseStore.CollectsAsCollect | src/expense.rs:36-49 | Whatever fits that description is exactly what the loop keeps. |
| ExpenseStore.CollectAllOk | src/expense.rs:36-49 | Results that are all values are kept completely, in order. |
| ExpenseStore.DecodeLines | src/expense.rs:36-49 | A load has at most one entry per line, and it fails exactly when it has fewer entries than lines. |
| ExpenseStore.DecodeLinesLoadsAs | src/expense.rs:36-49 | The loaded entries are the decodings of the first lines, in order. A failure is the error of the line right after them. |
| ExpenseStore.LoadsAsDecodeLines | src/expense.rs:36-49 | Whatever fits that description is exactly what the load gives. |
| ExpenseStore.DecodeLinesAllDecode | src/expense.rs:36-49 | Lines that all decode load completely, to their decodings in order. |
| ExpenseStore.LoadPsv | src/expense.rs:31-52 | An unreadable file loads nothing and fails with `Unreadable`. |
| ExpenseStore.LoadResult | src/expense.rs:31-52 | The load is `Ok` exactly when it has no failure; then its value is the entries, otherwise the error is the failure. |
| ExpenseStore.ExpenseList.constructor | src/expense.rs:25-29 | A new list is empty. |
| ExpenseStore.ExpenseList.LoadExpensesFromPsv | src/expense.rs:31-52 | The list grows by the loaded entries in file order, and the ones pushed before a failing line stay. Returns `Ok` exactly when every line decoded, otherwise the first failure. |
| ExpenseStore.ExpenseList.PushDecodedLines | src/expense.rs:36-49 | The loop keeps the old entries, and what it appends and how it ends fit the load description. |
| ExpenseStore.GetExpenseListFromPsv | src/expense.rs:137-145 | On success, a fresh list holding the loaded entries; otherwise the load's failure. |
| ExpenseStore.ListExpenses | src/expense.rs:117-123 | Returns the loaded entries in file order, or the load's failure. |
| ExpenseStore.TotalAppend | src/expense.rs:125-135 | The total of two runs of entries is the sum of their totals. |
| ExpenseStore.TotalPositive | src/expense.rs:125-135 | With positive amounts, the total is positive exactly when there is an entry, and no amount exceeds it. |
| ExpenseStore.Total | src/expense.rs:128-132 | No ensures; defined as the sum of the amounts, added left to right from 0.0. `TotalAppend`, `TotalPositive` and `ExpenseTotal` state its properties. |
| ExpenseStore.ExpenseTotal | src/expense.rs:125-135 | The loop's result is the sum of all loaded amounts, or the load's failure. |
| ExpenseStore.TagsFlag | src/expense.rs:168-180 | The tag loop's flag is true exactly when the entry has tags and the last query tag is among them. |
| ExpenseStore.LastQueryTagPresent | src/expense.rs:168-180 | No ensures; defined as: the entry has tags, the query has tags, and the last query tag is among the entry's tags. `TagsFlag` ties the loop to it. |
| ExpenseStore.Matches | src/expense.rs:155-183 | No ensures; defined as: each given filter agrees with the entry, with the amount compared exactly, the category compared as stored, and the tags compared by `LastQueryTagPresent`. `Filter` and `FilterNothingOmitted` state what it decides. |
| ExpenseStore.LastTagImpliesAnyTag | src/expense.rs:173-175 | When the last query tag matches, some query tag matches. |
| ExpenseStore.SingleTagQueriesAgree | src/expense.rs:173-175 | For a one-tag query, the last-tag and any-tag readings agree. |
| ExpenseStore.EarlierQueryTagsIgnored | src/expense.rs:173-175 | Query tags before the last make no difference. |
| ExpenseStore.LastTagWinsExample | src/expense.rs:173-175 | The entry tagged `work, urgent` is dropped by the query `urgent, missing`, although one of its tags was asked for. |
| ExpenseStore.Filter | src/expense.rs:155-184 | The kept entries are exactly the entries that pass the closure. |
| ExpenseStore.FilterAppend | src/expense.rs:155-184 | Filtering keeps order: the filter of a concatenation is the concatenation of the filters. |
| ExpenseStore.FilterIdempotent | src/expense.rs:155-184 | Filtering twice is filtering once. |
| ExpenseStore.FilterNothingOmitted | src/expense.rs:156-180 | With every filter omitted, every entry is kept. |
| ExpenseStore.FilterExpenses | src/expense.rs:147-188 | Returns the loaded entries that pass the amount, category and tag flags, in file order, or the load's failure. |
| ExpenseStore.WriteExpenseToPsv | src/expense.rs:71-82 | The file keeps its old content and gains exactly the record at its end. A missing file is created. |
| ExpenseStore.WriteAllContent | src/expense.rs:71-82 | A file built by appends holds the record bodies joined by newlines, with one final newline. |
| ExpenseStore.AppendThenLoad | src/expense.rs:31-93 | Appending encodable expenses and then loading yields exactly one entry per append, in order, each read back. |
| ExpenseStore.ReadLinesOfJoin | src/expense.rs:36 | Lines joined and ended by a newline are read back as they are, when non-empty and free of edge whitespace and newlines. |
| ExpenseStore.TotalReadBack | src/expense.rs:125-135 | Reading back keeps the total. |
| ExpenseStore.ThreeRecordTotal | src/expense.rs:220-225 | Three appended records of 100.0, 200.0 and 744.0 load, and total 1044.0. |
| ExpenseStore.TotalOfThree | src/expense.rs:128-132 | The total of three entries is the sum of their amounts. |
| ExpenseStore.EmptyFileDoesNotLoad | src/expense.rs:36-39 | An empty or blank file fails on `fields[2]` of its one empty line. |
| FilePath.HomeComponentIff | src/path.rs:27 | A path starts with the component `~` exactly when it is `~` or starts with `~/`. |
| FilePath.FirstPieceEmpty | src/path.rs:27 | The first component text is empty exactly when the path is empty or starts with `/`. |
| FilePath.IsAbsolute | src/path.rs:26 | No ensures; defined as: the path starts with `/`, as on Unix. Its negation is the `is_relative` test. |
| FilePath.StartsWithHomeComponent | src/path.rs:27 | No ensures; defined as: the first `/`-separated component is `~`, because `starts_with` compares components. `HomeComponentIff` relates it to the two characters `~/`. |
| FilePath.Push | src/path.rs:35 | An absolute argument replaces the base. A relative argument is added after the base, with one `/` between exactly when the base is non-empty and does not end in `/`, and with nothing between otherwise. |
| FilePath.ConstructFilePath | src/path.rs:23-46 | `~/rest` becomes the home directory with `rest` pushed, or the home-directory error. `~` alone panics on the slice. Any other path is kept as it is. |
| FilePath.TildeExpansion | src/path.rs:141-157 | `~/rest` with a home directory not ending in `/` becomes home, then `/`, then `rest`. |
| FilePath.PlainPathKept | src/path.rs:141-157 | A path not starting with `~` (such as `filename.psv` or `./filename.psv`) is kept. |
| FilePath.TildeAbsoluteRest | src/path.rs:27-36 | `~/` followed by an absolute path, such as `~//x`, expands to that absolute path, because pushing an absolute path replaces the home directory. |
| FilePath.TildeAloneIsHome | src/path.rs:27-36 | `~/` alone expands to the home directory with a `/` added, when the home directory does not end in `/`. |
| FilePath.ValidateFilePath | src/path.rs:11-21 | `Ok` exactly when no path is given, or it exists and is a file. Otherwise "File not found!" or "Not a file", with existence checked first. |
| FilePath.GenerateReadPath | src/path.rs:48-75 | A missing project directory panics on `unwrap`. Otherwise the supplied path, or the default file pushed under the project directory. |
| ArgsParser.FilterParseArgs | src/utils/args_parser.rs:6-45 | The loop over the arguments computes the filter scan from index 2. |
| ArgsParser.ScanFiltersOkIff | src/utils/args_parser.rs:11-42 | The filter scan succeeds exactly when every even index holds a filter flag followed by a value. |
| ArgsParser.FilterKey | src/utils/args_parser.rs:13-31 | There is a key exactly for `--amount`, `--category` and `--tags`, and the key is the flag without its leading `--`. |
| ArgsParser.ScanFilters | src/utils/args_parser.rs:11-42 | A successful scan keeps every key it started with. A missing value is always reported at the index one past the last argument. |
| ArgsParser.ScanFiltersKeys | src/utils/args_parser.rs:14-31 | Only the keys `amount`, `category` and `tags` are stored. |
| ArgsParser.ScanFiltersKeeps | src/utils/args_parser.rs:11-42 | A key whose flag does not occur keeps its value, or stays absent. |
| ArgsParser.ScanFiltersLastWins | src/utils/args_parser.rs:14-31 | A repeated filter flag keeps its last value, trimmed. |
| ArgsParser.FilterAbsentFlag | src/utils/args_parser.rs:9-44 | A filter flag that never occurs leaves its key out. |
| ArgsParser.ScanFiltersInBounds | src/utils/args_parser.rs:17 | With an even number of arguments, the value after a filter flag is always there. |
| ArgsParser.AddParseArgs | src/utils/args_parser.rs:48-81 | The loop over the arguments computes the add scan from the defaults. |
| ArgsParser.ScanAddKeeps | src/utils/args_parser.rs:57-78 | An add flag that does not occur leaves its field as it was. |
| ArgsParser.AddStep | src/utils/args_parser.rs:59-71 | Fails exactly on `--amount` whose trimmed value does not parse, and reports that text. On success every field other than the flag's own is unchanged. |
| ArgsParser.ScanAdd | src/utils/args_parser.rs:57-78 | A missing value is always reported at the index one past the last argument. The add scan never reports `DescriptionNotFilterable` or `UsageExit`. |
| ArgsParser.ScanAddOkIff | src/utils/args_parser.rs:57-78 | The add scan succeeds exactly when every even index holds one of the four add flags followed by a value, and each `--amount` value parses once trimmed. This covers the exit at lines 72-75 and the `expect` at line 64. |
| ArgsParser.ScanAddLastWins | src/utils/args_parser.rs:59-71 | A repeated add flag keeps its last value. The description and the category are taken as given, the amount parsed from the trimmed text, the tags trimmed and split on `,`. |
| ArgsParser.AddDefaults | src/utils/args_parser.rs:52-55 | Absent flags keep their defaults: no description, amount 0, empty category, no tags. |
| ArgsParser.ScanAddInBounds | src/utils/args_parser.rs:61-70 | With an even number of arguments, the value after an add flag is always there. |
| ArgsParser.Dispatch | src/utils/args_parser.rs:84-118 | No arguments fail on the missing command. One argument shows usage. With two, `list` and `total` select their commands, and any other word shows usage. An odd count above two exits with usage. An even count above two runs the add scan for `add` or the filter scan for `filter`, and succeeds or fails with it. Any other word shows usage. No value is ever missing. |
| ArgsParser.DispatchAddOkIff | src/utils/args_parser.rs:101-110 | An `add` line with an even count succeeds exactly when every flag is an add flag and every `--amount` value parses once trimmed. |
| ArgsParser.DispatchFilterOkIff | src/utils/args_parser.rs:101-113 | A `filter` line with an even count succeeds exactly when every flag is `--amount`, `--category` or `--tags`. |
| ArgsParser.ParseArgs | src/utils/args_parser.rs:84-118 | The method computes the dispatch, running the add or filter loop where it applies. |
| CategoryStore.WithCategory | src/utils/category.rs:13-16 | After the insert the category is present, nothing was lost, and nothing else was added. |
| CategoryStore.WithCategorySize | src/utils/category.rs:13-16 | Inserting grows the set by one exactly when the name is new. |
| CategoryStore.WithCategoryIdempotent | src/utils/category.rs:13-16 | Inserting the same name twice is inserting it once. |
| CategoryStore.Names | src/utils/category.rs:4-7 | The names are exactly those of the categories. |
| CategoryStore.NamesSize | src/utils/category.rs:4-7 | Categories equal by name only means as many names as categories. |
| CategoryStore.CategoryList.constructor | src/utils/category.rs:10 | The list holds the given categories. |
| CategoryStore.CategoryList.CreateCategory | src/utils/category.rs:13-16 | The set becomes the old set with the category called `name` inserted. |
| CategoryStore.CategoryList.PrintCategories | src/utils/category.rs:18-22 | One line per category, each line a category's name, and every name printed. |
| Text.TrimStartIsSuffix | src/expense.rs:37 | Trimming the start drops only leading whitespace. |
| Text.TrimEndIsPrefix | src/expense.rs:37 | Trimming the end drops only trailing whitespace. |
| Text.Trim | src/expense.rs:36-37 | The result has no whitespace at either end. `TrimStartIsSuffix` and `TrimEndIsPrefix` state that only edge whitespace is dropped. |
| Text.ToLower | src/expense.rs:88 | The result has the same length, and each character is the lowercase of the character at the same place. |
| Text.TrimNoEdgeSpace | src/expense.rs:37 | A string with no whitespace at its ends is unchanged by `trim`. |
| Text.TrimDropsTail | src/expense.rs:36 | `trim` removes a whitespace tail after a string with no edge whitespace. |
| Text.SplitTrimmedJoin | src/expense.rs:42-46 | Pieces free of a non-whitespace delimiter, with no outer whitespace, come back from trimming and splitting their join. |
| Text.JoinSplit | src/expense.rs:37 | Joining the pieces of a split gives back the string. |
| Text.SplitJoin | src/expense.rs:37 | Splitting a join of pieces free of the delimiter gives back the pieces. |
| Text.Split | src/expense.rs:36-37 | A split always yields at least one piece. `JoinSplit` and `SplitJoin` state that it inverts `Join`. |
| Text.Join | src/expense.rs:91 | No ensures; defined as the pieces separated by the delimiter, with none for an empty list. `JoinSplit`, `SplitJoin` and `JoinFive` state its properties. |
| Text.ToLowerAvoids | src/expense.rs:88 | Lowercasing neither adds nor removes a non-letter character. |
| Text.ToLowerIdempotent | src/expense.rs:91 | A lowercased string is lowercase. |
| Text.ToLowerJoin | src/expense.rs:91 | Lowercasing a join is joining the lowercased pieces. |

## Left out

- Printing is not modelled: `display_expenses`, the `println!` of usage, and the `eprintln!` messages. The listing and filter operations return the entries they would display. For categories only the output itself is left out: `CategoryList.PrintCategories` returns the printed lines.
- The clock (`Utc::now()`), the home directory, the file system and `env::args()` are parameters, not modelled. The file's content is a parameter; `None` means it cannot be read.
- The loader reads the file with `read_file_content` from src/file_parser.rs:8-26. That function returns an error when the file cannot be opened or read; the model's `Unreadable` load error stands for it. It does not exit and does not create directories.
- The `read_file_content` of src/path.rs:77-100 is not part of this model. Its exit on a missing file is not modelled.
- `validate_project_dir` is modelled only through its `unwrap` panic, in `GenerateReadPath`. Directory creation is left out: a failed creation is only printed and never becomes an error.
- WriteExpenseToPsv: does not model the I/O failures of the append (the `?` on opening and on `write_all`); it has no error result.
- `FILE_NAME` is not defined in src/config.rs, so the default file name is a parameter of `GenerateReadPath`. `write_expense_to_psv` is modelled on the file content, so its default path does not arise.
- NewExpense: takes the clock reading at millisecond precision. `Utc::now()` keeps finer precision in memory, and the record's `%.3f` drops it when writing. So the identity of `RoundTripExact` holds for a fresh expense only when its instant is millisecond-aligned.
- Amounts are real numbers, not `f64`: rounding and NaN are not modelled. The formatting and parsing of amounts and of `TIME_FORMAT` timestamps are parameters, and the round trip assumes they invert each other.
- ToLower: lowercases ASCII letters only; the Unicode case mapping of `to_lowercase` for other letters is not modelled.
- ConstructFilePath: the `to_str()` failure is not modelled, because a path built from a `&str` is always valid UTF-8. Slicing `path[2..]` is by characters, not bytes; the two agree after an ASCII `~/`.
- Push: Windows prefixes and `..` or `.` normalisation are not modelled (none is done on Unix).
- CategoryList.PrintCategories: the set's iteration order is left open; only the lines as a collection are stated.
- Dispatch: the calls that follow a command (listing, total, add, filter) are not run. The command is returned with its scanned values, and the store operations above model what each does.
- The sqlite connection, `cli.rs` and the other context files are not part of this model.
