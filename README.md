# tbd templates and text tables, in Dafny

This project models two pieces of `tbd` and proves properties of them:

- the placeholder engine in `internal/template/template.go`;
- the text-table renderer in `pkg/table/table.go`.

**The template engine.** `ExecuteFunc` walks a template.
- It writes each literal span to an `io.Writer`.
- It cuts out each tag between `startTag` and `endTag` and hands its trimmed name to a `TagFunc`.
- It adds up the byte counts both report and stops at the first error.
- A start tag with no end tag after it is written as it is, followed by the rest of the template.

The other entry points are `ExecuteFunc` with a particular `TagFunc`:
- `Execute` and `ExecuteString` use `stdTagFunc`, which substitutes map values.
- `ExecuteStd` and `ExecuteStringStd` use `keepUnknownTagFunc`, which writes unknown tags back.
- `Marks` uses `fetchTagFunc`, which collects the tag names.

**The template model.**
- The writer is a class `Writer`. Its `data` is what the sink has accepted so far. An optional `capacity` models a sink that stops taking bytes.
- `Scanner.Scan` is the split of a template into literals, closed tags and an unclosed tail.
- `Template.Run` is the reference semantics of an execution over that split.
- `Template.ExecuteFunc` keeps the loop of the Go code. It is proved to end in exactly the state, count and error that `Run(Scan(template))` gives.
- The properties of executions are proved as lemmas about `Run`.

**The table renderer.** A `TextTable` collects a header and data rows of strings. It keeps the widest cell of every column and draws the table as bordered lines.
- `TextTable` is a class with the Go fields. `maxWidths` is an array.
- A string with newlines spreads over several table rows (`stringsToTableRow`).
- `Table.Layout` is the list of lines a table is drawn as. `Draw` is proved to return those lines joined by newlines.
- The class invariant `Consistent` states that no cell of the header, or of the rows added since the latest `SetHeader`, is wider than its column; `SetHeader`, `AddRow` and `AddRowLine` keep it. That a column is exactly as wide as its widest cell is stated by the `ensures` of `SetHeader` and `AddRow`, through `Widest`.

**Strings.** Go strings are byte strings, modelled as `string` with one `char` per byte. The standard-library helpers the code relies on are in module `Strings`:
- `bytes.Index`;
- `strings.TrimSpace`;
- `strings.Split` on `"\n"`;
- `strings.Join`;
- `strings.Repeat`.

**Code over documentation.** Where the package's documentation and its code differ, the model follows the code:
- The error of writing an unclosed start tag is dropped (`template.go:47`).
- `keepUnknownTagFunc` returns a count of 0 when one of its three writes fails, although part of the tag may have reached the writer.
- `stdTagFunc` returns -1 for a value of an unexpected type.
- Writing back unknown tags gives back the template unchanged only when no tag name has surrounding white space, because the name is trimmed first.

Module `TemplateCases` states an example of `Marks` and cases of the template tests on the model:
- the template `{foo}q{unexpected}{missing}bar{foo}` under `ExecuteFunc`, `Execute` and `ExecuteStd`;
- both halves of the test of `ExecuteFuncString` with a failing `TagFunc`.

Each of these templates is named by its split, and the template itself is `Text` of that split: the pieces glued back with their delimiters. Module `TableCases` states the cases of the table tests.

## Model

| member | source | states |
|---|---|---|
| Strings.IndexOfFirst | internal/template/template.go:33-35 | bytes.Index returns a position where the pattern occurs and no earlier one; -1 means it occurs nowhere |
| Strings.TrimSpaceInfix | internal/template/template.go:52 | the trimmed tag name is an infix of the raw tag with only white space around it, and it neither starts nor ends with white space |
| Strings.TrimSpaceIdempotent | internal/template/template.go:52 | trimming an already trimmed name changes nothing |
| Strings.SplitLinesJoin | pkg/table/table.go:143 | strings.Split on newlines gives at least one piece, no piece holds a newline, and joining the pieces with newlines restores the string |
| Strings.SplitLinesOfJoin | pkg/table/table.go:255 | splitting newline-free lines joined by newlines gives back exactly those lines |
| Strings.SplitLinesCount | pkg/table/table.go:201-202 | a string splits into one more piece than it has newlines |
| Scanner.ScanSplits | internal/template/template.go:32-60 | the pieces the loop visits glue back into the template, and each literal holds no earlier start tag and each tag no earlier end tag |
| Scanner.ScanUnique | internal/template/template.go:32-60 | any split of that canonical shape which glues back into the template is the one the loop visits |
| Scanner.ScanLiteral | internal/template/template.go:33-35 | a template without a start tag is a single literal |
| Scanner.ScanUnclosed | internal/template/template.go:43-49 | a start tag with no end tag after it leaves the rest of the template unscanned |
| Scanner.ScanTagged | internal/template/template.go:37-58 | a literal, a start tag, a tag and an end tag are split off, and scanning resumes after the end tag |
| Template.WriteToCases | internal/template/template.go:37-41 | a write appends a prefix of its bytes and reports its length; it falls short, with an error, exactly when the bytes do not fit |
| Template.Writer.Write | internal/template/template.go:37 | io.Writer.Write on the writer's state, as WriteTo gives it |
| Template.TagList.Append | internal/template/template.go:228 | the list grows by the tag at its end |
| Template.StdTagCases | internal/template/template.go:180-195 | a missing or nil value writes nothing and counts 0; []byte and string values are written; a TagFunc is called with the tag; any other value gives -1 and an error naming the tag |
| Template.KeepUnknownTagCases | internal/template/template.go:197-224 | a present key, even a nil one, is resolved as stdTagFunc resolves it; a missing key is written back as start tag, name and end tag, counting their lengths, and fails with a count of 0 when it does not fit |
| Template.StdTagFunc | internal/template/template.go:180-195 | the writer and the result are those of the stdTagFunc semantics |
| Template.KeepUnknownTagFunc | internal/template/template.go:197-224 | the writer and the result are those of the keepUnknownTagFunc semantics, with its three writes |
| Template.FetchTagFunc | internal/template/template.go:227-230 | the tag is appended to the list, the count is 0 and there is no error |
| Template.CallTagFunc | internal/template/template.go:53 | one call of the tag function changes the writer and the list as Resolve says |
| Template.RunStep | internal/template/template.go:32-58 | a round that returns is the whole run; a round that breaks leaves the rest to one write; a round that loops advances and leaves the run of the rest |
| Template.ExecuteSpan | internal/template/template.go:33-58 | one round of the loop changes the writer, count and error as Step says |
| Template.CallbackStep | internal/template/template.go:51-58 | a caller's TagFunc that succeeds after the literal is written adds the literal and its text to the writer, both counts to the total, and the run goes on after the tag |
| Template.CallbackErrorStops | internal/template/template.go:53-57 | an error from the caller's TagFunc, or from a TagFunc value in the map, ends the run at once with that error, the literal's and the TagFunc's counts added up, and an empty string from ExecuteFuncString |
| Template.UnexpectedValueStops | internal/template/template.go:192-193 | a map value of an unexpected type ends the run after the literal with one less than the literal's count, an error naming the tag and the value's kind, and an empty string from ExecuteString |
| Template.ExecuteFunc | internal/template/template.go:24-64 | the writer, the byte count and the first error are those of the run of the template's split |
| Template.RunNoTag | internal/template/template.go:33-35 | a template without a start tag is written as it is in one write, whatever the tag function |
| Template.RunUnclosedCopied | internal/template/template.go:43-49 | an unclosed start tag is written as it is, followed by the rest of the template, and the count is their length |
| Template.UnclosedErrorDropped | internal/template/template.go:47 | a full writer that drops the unclosed start tag still gives no error |
| Template.ResolvePlain | internal/template/template.go:180-230 | with a writer that takes everything, a plain stdTagFunc, keepUnknownTagFunc or fetchTagFunc writes its substitution, counts exactly that and does not fail |
| Template.RunUnlimited | internal/template/template.go:24-64 | with a writer that takes everything, an execution with plain values writes the expanded template, counts its length, records the tag names for Marks and does not fail |
| Template.RunHonest | internal/template/template.go:37-57 | with plain values, an execution writes a prefix of the expanded template, counts exactly the bytes written, and fails only with a short write that lost bytes |
| Template.RunComplete | internal/template/template.go:24-64 | with plain values, a successful execution without an unclosed start tag has written the whole expanded template |
| Template.KeepUnknownIdentity | internal/template/template.go:197-210 | keeping unknown tags copies the template unchanged when no tag is known and no name has surrounding white space |
| Template.Marks | internal/template/template.go:67-74 | the result is the trimmed names of all closed tags, in order and with duplicates, and there is no error |
| Template.Execute | internal/template/template.go:88-93 | the result of ExecuteFunc with stdTagFunc; with plain values the writer only grows, the count is what it gained and the only error is a short write; with a writer that takes everything it receives the expanded template |
| Template.ExecuteStd | internal/template/template.go:107-112 | the result of ExecuteFunc with keepUnknownTagFunc; with plain values and a writer that takes everything it receives the expansion, and the template itself when all tags are unknown and untrimmed |
| Template.ExecuteFuncString | internal/template/template.go:118-136 | a template without a start tag comes back as it is; otherwise the buffer's contents come back, or an empty string with the error |
| Template.ExecuteString | internal/template/template.go:148-153 | an empty string on error; with plain values the expanded template and no error |
| Template.ExecuteStringStd | internal/template/template.go:165-170 | an empty string on error; with plain values the expansion, which is the template itself when all tags are unknown and untrimmed |
| Table.Height | pkg/table/table.go:201-202 | every string is at least one line high |
| Table.MaxHeightIsMax | pkg/table/table.go:197-209 | the height found is -1 for no strings, no string is taller, and some string is exactly that tall |
| Table.CalcMaxHeight | pkg/table/table.go:197-209 | the loop finds the largest height |
| Table.TableRowsSplit | pkg/table/table.go:129-164 | the strings spread over as many rows as the tallest has lines, each row with one left-aligned newline-free cell per string; column i read down restores string i, followed by empty cells |
| Table.StringsToTableRow | pkg/table/table.go:129-164 | the loops build exactly those rows |
| Table.FormatCellUnit | pkg/table/table.go:258-272 | a formatted cell is two characters wider than its column |
| Table.FormatCellShape | pkg/table/table.go:258-272 | a formatted cell has a margin space on each side, and its content is left-aligned before padding or right-aligned after it |
| Table.BorderShape | pkg/table/table.go:115-127 | a rule is as long as a table line, has '+' at every column boundary and '-' at every other position |
| Table.RowTextShape | pkg/table/table.go:274-284 | a row line is as long as the rule over the columns it fills, with a bar at every column boundary |
| Table.RowTextSingleLine | pkg/table/table.go:274-284 | row lines of newline-free cells, and rules, hold no newline |
| Table.LayoutShape | pkg/table/table.go:220-256 | the drawing is a rule, the header lines, a rule, the data lines (a rule for a row line), and a closing rule only when there are data rows |
| Table.LayoutWidths | pkg/table/table.go:220-256 | when every row of cells has a cell per column, all lines of the drawing are equally long |
| Table.WidestIsMax | pkg/table/table.go:45-54 | a column's width after widening is at least its old width and at least every cell in it, and is one of those |
| Table.WidestFits | pkg/table/table.go:45-54 | after widening every cell fits its column, and no column got narrower |
| Table.Pad | pkg/table/table.go:93-94 | the padded list has one string per column, keeps the given strings first and fills the rest with empty strings |
| Table.PadHeight | pkg/table/table.go:93-95 | padding with empty strings does not change how many rows the strings need |
| Table.PadRows | pkg/table/table.go:93-95 | a padded row spreads over as many rows as its tallest string needs, each with a cell per column, and the padding cells are empty |
| Table.HeaderKeeps | pkg/table/table.go:61-77 | a header with widths measured on it alone makes a consistent table, whatever rows were there before |
| Table.AppendKeeps | pkg/table/table.go:84-113 | appending rows that fit the column count, with the columns widened over them, keeps the table consistent |
| Table.LayoutLines | pkg/table/table.go:220-256 | a consistent table can be drawn, its drawing splits at the newlines back into its lines, and all lines are equally long |
| Table.TextTable.constructor | pkg/table/table.go:38-43 | the zero table has no header, no rows and no columns, and is consistent |
| Table.TextTable.UpdateColumnWidth | pkg/table/table.go:45-54 | every column becomes as wide as the widest of its old width and the new cells in it |
| Table.TextTable.SetHeader | pkg/table/table.go:61-77 | no strings gives the "no headers" error and changes nothing; otherwise the width is the string count, the header is the rows the strings spread over, the widths are measured on the header alone, data rows stay, and the table stays consistent |
| Table.TextTable.AddRow | pkg/table/table.go:84-101 | no strings, or more strings than columns, gives an error and changes nothing; otherwise the padded strings' rows are appended, the columns widen to fit them, and the table stays consistent |
| Table.TextTable.AddRowLine | pkg/table/table.go:108-113 | a rule row is appended, there is no error, and the table stays consistent |
| Table.TextTable.BorderString | pkg/table/table.go:115-127 | the loop builds the rule over the current widths |
| Table.TextTable.GenerateRowString | pkg/table/table.go:274-284 | the loop builds the row line of the cells over the current widths |
| Table.TextTable.Draw | pkg/table/table.go:220-256 | the drawing is the table's layout lines joined by newlines |
| Table.TextTable.DrawnLines | pkg/table/table.go:220-256 | a table whose header was set before its rows were added can be drawn; the drawing splits back into its lines, all equally long |
| TemplateCases.UrlScan | internal/template/template.go:32-58 | the example URL template `http://{{host}}/?a={{a}}&a={{a}}` scans into three tags, host, a and a, with their literals |
| TemplateCases.MarksOfUrl | internal/template/template.go:67-74 | an example of Marks: the URL template has the tags host, a, a, in order with the repeat kept |
| TemplateCases.UnknownTagsScan | internal/template/template_test.go:28 | the template `{foo}q{unexpected}{missing}bar{foo}` scans into the tags foo, unexpected, missing and foo with the literals q and bar |
| TemplateCases.RunUnknownTags | internal/template/template.go:24-64 | any resolver that fails only when the writer does writes that template's literals with its substitutions, counts exactly that and does not fail |
| TemplateCases.ExecuteFuncUnknownTags | internal/template/template_test.go:28-38 | a TagFunc writing "xxxx" for foo and "zz" otherwise gives `xxxxqzzzzbarxxxx`, 16 bytes, no error |
| TemplateCases.ExecuteUnknownTags | internal/template/template_test.go:64-73 | Execute with foo bound to "xxxx" drops the unknown tags: `xxxxqbarxxxx`, 12 bytes, no error |
| TemplateCases.ExecuteStdUnknownTags | internal/template/template_test.go:94-103 | ExecuteStd with foo bound to "xxxx" writes the unknown tags back: `xxxxq{unexpected}{missing}barxxxx`, 33 bytes, no error |
| TemplateCases.FriendScan | internal/template/template_test.go:181 | the template `{a} is {b}'s best friend` scans into the tags a and b, followed by the literal `'s best friend` |
| TemplateCases.RunFriend | internal/template/template.go:24-64 | any resolver that fails only when the writer does writes that template's literals with its substitutions for a and b, counts exactly that and does not fail |
| TemplateCases.FriendStops | internal/template/template_test.go:179-192 | for any caller's TagFunc that writes its text for a and fails on b, the run ends after that text and " is " with the count of both plus b's count, b's error, and an empty string from ExecuteFuncString |
| TemplateCases.FriendFails | internal/template/template_test.go:179-192 | a TagFunc failing on b makes the run end after "Alice is " with 9 bytes and the TagFunc's own error, and ExecuteFuncString returns an empty string |
| TemplateCases.FriendSucceeds | internal/template/template_test.go:193-204 | a TagFunc writing "Alice" for a and "Bob" otherwise gives `Alice is Bob's best friend` and no error |
| TableCases.BorderExample | pkg/table/table_test.go:123-130 | the rule over widths 4, 5, 3, 2 is `+------+-------+-----+----+` |
| TableCases.BorderOfEmptyColumn | pkg/table/table_test.go:132-137 | the rule over one empty column is `+--+` |
| TableCases.FormatRightFull | pkg/table/table_test.go:141-147 | right-aligned "apple" in width 5 is `" apple "` |
| TableCases.FormatRightPadded | pkg/table/table_test.go:149-153 | right-aligned "apple" in width 10 is padded on the left |
| TableCases.FormatLeftFull | pkg/table/table_test.go:155-160 | left-aligned "orange" in width 6 is `" orange "` |
| TableCases.FormatLeftPadded | pkg/table/table_test.go:162-166 | left-aligned "orange" in width 10 is padded on the right |
| TableCases.RowTextExample | pkg/table/table_test.go:169-184 | two right-aligned cells "apple" and "melon" over widths 8 and 5 give the line bar, `    apple `, bar, ` melon `, bar |
| TableCases.MaxHeightExample | pkg/table/table_test.go:60-69 | "hello", a three-line and a two-line string need 3 rows |
| TableCases.TableRowsExample | pkg/table/table_test.go:103-119 | three strings of 1, 4 and 2 lines spread over 4 rows of 3 cells |

## Left out

- Width: `stringWidth` (go-runewidth) counts display columns of Unicode text. Here a string is one column per byte, so the wide characters of the drawing test are not covered.
- `decideAlignment` (`table.go:168-195`) is not called by the code (every cell is left-aligned), so it is not modelled. Right alignment is modelled only as `formatCellUnit` handles it.
- TrimSpace: only ASCII white space is trimmed; the multi-byte Unicode spaces `strings.TrimSpace` also removes are not modelled.
- The `bytebufferpool` buffer of `ExecuteFuncString` is a fresh `Writer` without a capacity; pooling and reuse are not modelled.
- `io.Discard` in `Marks` is a `Writer` without a capacity.
- Writers: a writer either takes everything or takes bytes up to a fixed capacity and then fails with a short write. Other failures, and writers that fail without having been short, are not modelled.
- Callback `TagFunc`s: a caller's `TagFunc` is modelled as one write of a text, followed by the count and error it chooses. When that write fails, its count and error are returned. TagFuncs that write several times or ignore a write error are not modelled.
- The `fmt.Errorf` message of an unexpected value is the error `UnexpectedValue(tag, kind)`, and its text is not modelled.
- Concurrency (TagFuncs called from several goroutines) and the `unsafe` string and byte conversions are left out; the conversions change no bytes.
- Template.ExecuteFunc: requires a non-empty start tag or end tag. With both empty, every round cuts an empty tag at the same place and advances by nothing. The Go loop then ends only when a write or the `TagFunc` fails: `Execute` with an unexpected value under the key `""` returns after one round, while `Marks`, or any `TagFunc` that does not fail on an empty tag, loops forever.
- Table.TextTable.Draw: requires every row of cells to fit the current widths. Rows added before a later `SetHeader` with fewer or narrower columns make Go index `maxWidths` out of range or call `strings.Repeat` with a negative count; both panic.
- Table.TextTable.GenerateRowString: requires the row's cells to fit the widths, for the same reason.
- Table.StringsToTableRow: requires at least one string. Go would make a slice of length -1 and panic; the callers never pass an empty list.
- Table.TextTable.DrawnLines: states drawability only for tables whose header was set before any row was added. The invariant `Consistent` promises fitting widths only for the rows added since the latest `SetHeader`.
- Template tests: only the case `{foo}q{unexpected}{missing}bar{foo}` of each output test is stated; the shorter cases are instances of `RunNoTag`, `RunUnclosedCopied` and `RunUnlimited`.
- The `main` program, the command-line layer (`cmd/`), version control (`pkg/vcs`) and the frozen-template API (`pkg/template`) are not part of this model.
