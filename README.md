# The predictive-report text pipeline, modelled in Dafny

This project models the text pipeline of the predictive-report service.
Four language-model outputs are combined into one structured report. The
report is reformatted: British spelling, a fixed header, case rules per
field, and a layout for the table lines. The report is then turned into CSV
files: one content CSV with a row per sub-section, one report table and one
table per section. Image prompts are flattened from JSON-like text and
formatted. Around this core sit the storage write with its Content-Type
rule, the retrying reader, the website normaliser and the folder-path
builder.

Each source file is one module. A loop in the source becomes a Dafny
`method` with a `while` or `for` loop. Each such method is proved equal to
a recursive specification function, and the lemmas about the pipeline are
stated about those functions. Code that is a pure expression becomes a
function.

| module | source |
|---|---|
| `Strings`, `Dicts`, `Wrappers` | Python's `str` methods, insertion-ordered `dict`, Option and Result |
| `British` | `convert_to_british_english` (both formatters) |
| `Combine` | Scripts/Predictive_Report/combine.py |
| `FormatCombine` | Scripts/Predictive_Report/format_combine.py |
| `CsvContent` | Scripts/Predictive_Report/csv_content.py |
| `TableCsv` | Scripts/Predictive_Report/report_and_section_table_csv.py |
| `ReadImagePrompts` | Scripts/Image_Prompts/read_report_image_prompts.py |
| `FormatImagePrompts` | Scripts/Image_Prompts/format_image_prompts.py |
| `Website` | Scripts/Website_Year/website.py |
| `Folders` | Scripts/Predictive_Report/write_create_folders.py |
| `StorageWrite` | Engine/Files/write_supabase_file.py |

Some things that are not functions of the text are parameters:

- the American-to-British dictionary;
- the fresh run identifier that the source draws from `uuid4`;
- the storage configuration;
- the outcome of each storage read.

Regular expressions are written out as scanners. Each scanner finds the
same leftmost match that Python's `re` finds, and the comment above each
scanner says why that match is unique.

Where the design description and the code disagree, the model follows the
code:

- The description names a metrics engine that fills in Change and Effect
  figures. No such computation exists in these files.
- The description says the combined output does not depend on the order
  of the fragments. In `parse_hierarchical_blocks`, the current section
  carries over from one block to the next, and the last write wins, so
  block order matters. `Combine.HierBlocksIsOneRun` and
  `Combine.StoredIsLastWrite` state what the code does.
- In `extract_intro_outro_assets`, a blank line followed by a
  colon-terminated line closes the open key. It commits that key even when
  its buffer is empty (csv_content.py:44-47). A key line commits the open
  key only when its buffer is not empty (csv_content.py:39-40).

## Model

| member | source | states |
|---|---|---|
| British.TokensAreRuns | Scripts/Predictive_Report/format_combine.py:104-105 | the text is cut into non-empty runs, each made only of word characters or only of non-word characters |
| British.TokensConcat | Scripts/Predictive_Report/format_combine.py:104-105 | the runs put back together are the text: the substitution neither loses nor adds text outside a replaced word |
| British.TokensAlternate | Scripts/Predictive_Report/format_combine.py:104-105 | neighbouring runs differ in word-ness, so every word run is bounded by `\b` on both sides |
| British.MatchCase | Scripts/Predictive_Report/format_combine.py:96-101 | the replacement equals the British spelling up to case. An all-capital word gives an all-capital replacement. A word starting with a capital gives the capitalised spelling. Any other word gives the spelling as listed |
| British.ToBritishWord | Scripts/Predictive_Report/format_combine.py:94-102 | a whole word whose lower-case form is a dictionary key is replaced in the word's case shape; any other word is kept |
| British.ToBritishUnchanged | Scripts/Predictive_Report/format_combine.py:102-105 | a text with no dictionary word, in any case, is returned exactly as it is |
| British.ToBritishEmptyDictionary | Scripts/Image_Prompts/format_image_prompts.py:27-42 | with an empty dictionary the text is unchanged |
| British.ToBritishAppend | Scripts/Image_Prompts/format_image_prompts.py:41-42 | a text cut where a word starts or ends converts piece by piece, so a key is never replaced inside a longer word |
| Combine.CleanTextBlock | Scripts/Predictive_Report/combine.py:8-12 | the cleaned block holds no line break and no carriage return |
| Combine.CleanTextBlockIdempotent | Scripts/Predictive_Report/combine.py:8-12 | cleaning a cleaned block changes nothing |
| Combine.NormaliseKey | Scripts/Predictive_Report/combine.py:14-15 | no "MakeUp" is left in the normalised key |
| Combine.NormaliseKeyIdempotent | Scripts/Predictive_Report/combine.py:14-15 | normalising twice is normalising once |
| Combine.NormaliseKeySpellings | Scripts/Predictive_Report/combine.py:14-15 | behind a prefix without `M`, "MakeUp" and "Makeup" give the same key, "Makeup" |
| Combine.SectionMakeupKeysAgree | Scripts/Predictive_Report/combine.py:37 | "Section MakeUp" and "Section Makeup" (and the sub-section pair) are stored under one key |
| Combine.ParseHierarchicalBlocks | Scripts/Predictive_Report/combine.py:17-44 | the nested loops build the structure of the specification fold over the blocks |
| Combine.HierBlocksIsOneRun | Scripts/Predictive_Report/combine.py:22-27 | the section and sub-section cursors survive between blocks: parsing block by block is parsing all their lines as one run |
| Combine.StoredIsLastWrite | Scripts/Predictive_Report/combine.py:35-43 | a (section, sub-section, key) field holds the value of the last line that writes it, and is absent when no line writes it |
| Combine.BeforeFirstSectionDiscarded | Scripts/Predictive_Report/combine.py:39 | field lines before the first section marker leave no trace |
| Combine.MarkersMoveTheCursor | Scripts/Predictive_Report/combine.py:28-34 | a section marker opens that section with no sub-section; a sub-section marker changes only the sub-section; neither stores anything |
| Combine.ParseSectionTables | Scripts/Predictive_Report/combine.py:46-56 | the loop returns the tables of the specification fold over the tables block only |
| Combine.TablesBeforeHeadingDropped | Scripts/Predictive_Report/combine.py:54 | lines before the first heading are dropped |
| Combine.TableBodyAppended | Scripts/Predictive_Report/combine.py:52-55 | the lines between a heading and the next heading are appended, in order, to that heading's table |
| Combine.ExtractKeyValuePairs | Scripts/Predictive_Report/combine.py:58-123 | returns the pairs of the specification fold, or the unbound-variable error when a table line comes before every heading |
| Combine.ExtractBlock | Scripts/Predictive_Report/combine.py:61-121 | one block of the outer loop agrees with the fold's step, including its failure |
| Combine.KvBlocksFailedStays | Scripts/Predictive_Report/combine.py:92-95 | once a block has failed, the whole extraction fails |
| Combine.ReportTableBuffersVerbatim | Scripts/Predictive_Report/combine.py:87-89 | after "Report Table:", lines up to the next table header are buffered verbatim and nothing is committed |
| Combine.ContinuationLinesAppend | Scripts/Predictive_Report/combine.py:106-108 | outside the table scopes, colon-less lines are appended trimmed to the open key, and nothing is committed |
| Combine.NewKeyCommitsPrevious | Scripts/Predictive_Report/combine.py:98-105 | a key line commits the previous key's joined buffer and opens its own buffer with its value (empty when the value is) |
| Combine.SortedNats | Scripts/Predictive_Report/combine.py:139 | `sorted`: strictly increasing, with exactly the set's numbers |
| Combine.EmitKeyBlock | Scripts/Predictive_Report/combine.py:134-137 | the intro and outro loop emits the specification's key and value lines |
| Combine.EmitSections | Scripts/Predictive_Report/combine.py:139-170 | the section loop emits the specification's section lines |
| Combine.BuildOutput | Scripts/Predictive_Report/combine.py:125-178 | the text is the intro, the sections and the outro joined by line breaks |
| Combine.SectionTableOnlyOnExactTitle | Scripts/Predictive_Report/combine.py:141-157 | a section starts with a blank line, its number and its fields. Its table follows only when its title is non-empty and exactly a table heading; otherwise its sub-sections follow directly |
| Combine.RunCombine | Scripts/Predictive_Report/combine.py:180-222 | the run id is the request's or a fresh one. The path is under Combine/. The output is the built text with `\n` turned into line breaks and stripped. An error comes back exactly when extraction fails |
| FormatCombine.FormatWordLower | Scripts/Predictive_Report/format_combine.py:22-27 | formatting a word changes only the case of its letters |
| FormatCombine.FormatWordByParts | Scripts/Predictive_Report/format_combine.py:23-24 | a hyphenated word is formatted part by part |
| FormatCombine.TitleCaseWords | Scripts/Predictive_Report/format_combine.py:20-32 | title case keeps the words of the stripped text; each word is formatted by its position and differs only in case |
| FormatCombine.SentenceCase | Scripts/Predictive_Report/format_combine.py:34-36 | the stripped text with its first character upper-cased and the rest unchanged |
| FormatCombine.ParagraphLines | Scripts/Predictive_Report/format_combine.py:38-40 | no more lines than the input; each non-empty and not starting with a lower-case letter |
| FormatCombine.ParagraphCaseLines | Scripts/Predictive_Report/format_combine.py:38-40 | the result's lines are exactly the sentence-cased non-blank input lines, in order; "" when there are none |
| FormatCombine.Bullet | Scripts/Predictive_Report/format_combine.py:43 | every bullet line starts with "- " |
| FormatCombine.BulletLinesFixed | Scripts/Predictive_Report/format_combine.py:42-44 | bulleting bullet lines changes nothing |
| FormatCombine.BulletLinesFree | Scripts/Predictive_Report/format_combine.py:42-44 | every bullet line is non-empty and holds no line break |
| FormatCombine.BulletPointsIdempotent | Scripts/Predictive_Report/format_combine.py:42-44 | formatting bullet points twice is formatting them once |
| FormatCombine.ReformatAssets | Scripts/Predictive_Report/format_combine.py:109-238 | the loop returns the specification's reformatted text |
| FormatCombine.ReformatLine | Scripts/Predictive_Report/format_combine.py:119-236 | one pass of the loop is one step of the specification |
| FormatCombine.ReformatBody | Scripts/Predictive_Report/format_combine.py:143-234 | the table-entry, triple and standard branches agree with the specification's step |
| FormatCombine.FormatStandardLine | Scripts/Predictive_Report/format_combine.py:219-234 | the standard branch appends the specification's lines for one line |
| FormatCombine.ReformatColonFree | Scripts/Predictive_Report/format_combine.py:109-238 | a text without a colon comes back unchanged |
| FormatCombine.SectionEntryCollapses | Scripts/Predictive_Report/format_combine.py:144-161 | in the report table, a title line and its Makeup/Change/Effect triple become a blank line, the title and one piped line; four lines are consumed |
| FormatCombine.SubSectionEntryCollapses | Scripts/Predictive_Report/format_combine.py:164-181 | the same for sub-section entries in the section tables |
| FormatCombine.OutsideTripleCollapses | Scripts/Predictive_Report/format_combine.py:184-216 | outside the tables, a Makeup/Change/Effect triple becomes a blank line and one piped line; three lines are consumed and both modes stay off |
| FormatCombine.KeyLineLayout | Scripts/Predictive_Report/format_combine.py:219-234 | an inline key line is copied. Any other key line becomes an optional blank line (only after a non-blank line), then `Key:`, then the formatted value when there is one |
| FormatCombine.NormaliseTableHeaders | Scripts/Predictive_Report/format_combine.py:259-274 | the loop returns the specification's text |
| FormatCombine.HeadersBlankBefore | Scripts/Predictive_Report/format_combine.py:262-270 | every emitted header line after the first line follows a blank line |
| FormatCombine.NormalisedHeadersKept | Scripts/Predictive_Report/format_combine.py:259-274 | for every text: a blank line directly after a keyword line is removed, a keyword line becomes the bare keyword with a blank line put in front unless it is first or already follows a blank line, and every other line is left untouched |
| FormatCombine.PaddedFilled | Scripts/Predictive_Report/format_combine.py:265-266 | the inserted lines are blank: the non-blank lines are those kept, in order |
| FormatCombine.HeadersUnchangedWithoutKeyword | Scripts/Predictive_Report/format_combine.py:259-274 | a text without the header line is unchanged |
| FormatCombine.RunFormatCombine | Scripts/Predictive_Report/format_combine.py:241-317 | an error comes back exactly when the combined report is blank. Otherwise the content is the stripped header plus the British, reformatted and header-normalised report, stripped. It starts with "Client:" and is stored under Format_Combine/ |
| FormatCombine.HeaderOpens | Scripts/Predictive_Report/format_combine.py:279-298 | the written text starts with "Client:" |
| CsvContent.StripBlocksAbsent | Scripts/Predictive_Report/csv_content.py:19-22 | a text without the header is left as it is |
| CsvContent.StripBlocksBlock | Scripts/Predictive_Report/csv_content.py:20-21 | a header is kept and its body is dropped up to the next stop marker or the end; the rest of the text is stripped the same way |
| CsvContent.ColumnNameShape | Scripts/Predictive_Report/csv_content.py:33 | a key's column is the key without its colon, lower-cased, spaces as `_` |
| CsvContent.ExtractIntroOutroAssets | Scripts/Predictive_Report/csv_content.py:25-58 | the loops return the specification's asset map |
| CsvContent.IntroOutroColumns | Scripts/Predictive_Report/csv_content.py:51-58 | the map has each intro and outro column exactly once, and nothing else; a column never committed is "" |
| CsvContent.NoKeyYet | Scripts/Predictive_Report/csv_content.py:43 | lines before the first key line are dropped |
| CsvContent.BufferedLines | Scripts/Predictive_Report/csv_content.py:48-49 | under an open key, every line that neither opens nor closes a key is buffered verbatim and in order |
| CsvContent.KeyValueCommitted | Scripts/Predictive_Report/csv_content.py:36-42 | a key line followed by text and then another key line: the cleaned text becomes the key's column |
| CsvContent.WithDefaultsGet | Scripts/Predictive_Report/csv_content.py:54-56 | `setdefault` adds each missing column as "" and keeps every present value; columns stay distinct |
| CsvContent.CleanValueOneLine | Scripts/Predictive_Report/csv_content.py:32 | a committed value holds no line break |
| CsvContent.SearchAt | Scripts/Predictive_Report/csv_content.py:66 | `re.search` finds a position where the pattern matches |
| CsvContent.SearchAtLeftmost | Scripts/Predictive_Report/csv_content.py:66 | no match lies before the position found, and none at all when nothing is found |
| CsvContent.OneLineField | Scripts/Predictive_Report/csv_content.py:73-76 | a field whose pattern does not cross lines holds no line break |
| CsvContent.PercentField | Scripts/Predictive_Report/csv_content.py:79-80 | a change or effect field is "" or ends in `%` |
| CsvContent.SplitMarkedJoin | Scripts/Predictive_Report/csv_content.py:63 | the blocks joined by line breaks are the text, and each cut is followed by a marker |
| CsvContent.ParseSectionsAndSubsections | Scripts/Predictive_Report/csv_content.py:61-127 | the loop returns the specification's rows |
| CsvContent.ParseSectionBlock | Scripts/Predictive_Report/csv_content.py:65-125 | one section block gives the specification's rows, one per numbered sub-block |
| CsvContent.RowsHaveAllColumns | Scripts/Predictive_Report/csv_content.py:91-124 | every row has every section column and then every sub-section column, each filled or "" |
| CsvContent.RunCsvContent | Scripts/Predictive_Report/csv_content.py:130-169 | the response carries the run id, the csv_Content path and the table of the stripped text |
| CsvContent.IntroColumnsApart | Scripts/Predictive_Report/csv_content.py:141-155 | no intro or outro column is a section or sub-section column, so merging overwrites nothing |
| CsvContent.ContentTableRowShape | Scripts/Predictive_Report/csv_content.py:141-160 | every data row has one cell per header column, and its section row carries every row column |
| CsvContent.ContentTableCells | Scripts/Predictive_Report/csv_content.py:141-160 | a data row's cells are the intro and outro values, then the values of its section row |
| CsvContent.MergedRowCells | Scripts/Predictive_Report/csv_content.py:141 | with disjoint keys, the merged row's cells are the first dictionary's values, then the second's |
| TableCsv.EnsurePercent | Scripts/Predictive_Report/report_and_section_table_csv.py:23-25 | the value ends in `%`, adding at most that one character |
| TableCsv.EnsurePercentIdempotent | Scripts/Predictive_Report/report_and_section_table_csv.py:42-44 | adding the suffix twice is adding it once |
| TableCsv.WriteTable | Scripts/Predictive_Report/report_and_section_table_csv.py:14-26 | the rows are written in the specification's order |
| TableCsv.FormattedTableShape | Scripts/Predictive_Report/report_and_section_table_csv.py:32-45 | two label rows, a blank row, the header, then one four-cell row per table line: its title, then three values ending in `%` |
| TableCsv.WriteSectionTableFormatted | Scripts/Predictive_Report/report_and_section_table_csv.py:13-26 | the section table has the section number and title rows, then the sub-section header |
| TableCsv.WriteReportTableFormatted | Scripts/Predictive_Report/report_and_section_table_csv.py:32-45 | the report table has the change-title and change rows, then the section header |
| TableCsv.LineEndOneLine | Scripts/Predictive_Report/report_and_section_table_csv.py:59-60 | the change title and change values are one line each |
| TableCsv.RowAt | Scripts/Predictive_Report/report_and_section_table_csv.py:69-80 | a matched table line's change and effect end in `%` |
| TableCsv.FoundRowsPercent | Scripts/Predictive_Report/report_and_section_table_csv.py:69-80 | every row found already ends in `%` where the writers would add one, so they leave it unchanged |
| TableCsv.ReportTableShape | Scripts/Predictive_Report/report_and_section_table_csv.py:58-92 | a report table file exists exactly when rows are found. Its name has the title with `_` for spaces, and its first rows hold the title and the change |
| TableCsv.ReadTableBlock | Scripts/Predictive_Report/report_and_section_table_csv.py:107-142 | the body ends at the first stop line, and the table is added when rows match |
| TableCsv.ScanSectionTablesAsWritten | Scripts/Predictive_Report/report_and_section_table_csv.py:95-143 | the loop returns the scan as written, which passes over the line that ended a body |
| TableCsv.ScanSectionTables | Scripts/Predictive_Report/report_and_section_table_csv.py:95-143 | the loop returns the corrected scan, in which the line that ends a body is read next |
| TableCsv.CorrectedTablesCarryLatest | Scripts/Predictive_Report/report_and_section_table_csv.py:100-142 | when no title line is itself a section marker, every table of the corrected scan belongs to one `Section Tables:` block with rows, and is named and labelled with the number of the last `Section #:` line and the line after the last `Section Title:` line before it; the scan fails only on a block with rows and no title before it |
| TableCsv.AsWrittenSkipsStopLine | Scripts/Predictive_Report/report_and_section_table_csv.py:109-143 | as written, the scan goes on after the line that ended the body |
| TableCsv.CorrectedReadsSectionLine | Scripts/Predictive_Report/report_and_section_table_csv.py:102-103 | corrected, a `Section #:` line that ends a body sets the section number |
| TableCsv.StaleSectionNumber | Scripts/Predictive_Report/report_and_section_table_csv.py:107-143 | on "Section Tables:" directly followed by "Section #: 2", the code as written keeps section 1 while the corrected scan moves to 2 |
| TableCsv.StaleSectionFileName | Scripts/Predictive_Report/report_and_section_table_csv.py:107-143 | on a whole report where an empty table block of section 1 is followed by section 2 and its table, the scan as written writes `Section_Table_1_B_…` and the corrected scan `Section_Table_2_B_…` |
| TableCsv.RunTableCsv | Scripts/Predictive_Report/report_and_section_table_csv.py:51-145 | an error comes back exactly when the section scan as written raises; otherwise the run id, the report table and the section tables of the scan as written |
| ReadImagePrompts.Indent | Scripts/Image_Prompts/read_report_image_prompts.py:37 | `"  " * level`: two spaces per level, none below one |
| ReadImagePrompts.FlattenJsonLikeText | Scripts/Image_Prompts/read_report_image_prompts.py:8-47 | the loop returns the specification's flattened text |
| ReadImagePrompts.FlatRunBounds | Scripts/Image_Prompts/read_report_image_prompts.py:29-45 | the indentation never drops below zero, and no input line gives more than one output line |
| ReadImagePrompts.SkippedAndClosingLines | Scripts/Image_Prompts/read_report_image_prompts.py:20-32 | fence and blank lines change nothing; a closing brace only lowers the level, never below zero |
| ReadImagePrompts.OpeningLine | Scripts/Image_Prompts/read_report_image_prompts.py:35-38 | a line opening a block emits `key:` at the current level and raises the level |
| ReadImagePrompts.KeyValueLine | Scripts/Image_Prompts/read_report_image_prompts.py:39-43 | a `key: value` line emits both without quotes at the current level |
| ReadImagePrompts.DelaysSum | Scripts/Image_Prompts/read_report_image_prompts.py:74 | after k failures the reader has waited 2·(2^k − 1) seconds |
| ReadImagePrompts.FullSchedule | Scripts/Image_Prompts/read_report_image_prompts.py:5-6 | the waits are 2, 4, 8, 16, 32 and 64 seconds, 126 in all |
| ReadImagePrompts.FirstSuccessFrom | Scripts/Image_Prompts/read_report_image_prompts.py:57-75 | the first successful attempt within the limit, with every earlier attempt failed |
| ReadImagePrompts.ReadReportImagePrompts | Scripts/Image_Prompts/read_report_image_prompts.py:49-82 | a missing run id is an error without any read. The first successful read is flattened, with "{:" removed, after the waits of the failures before it. Six failures give the not-available error after all six waits |
| ReadImagePrompts.GivesUpAfterSixFailures | Scripts/Image_Prompts/read_report_image_prompts.py:58-82 | the reader gives up exactly when all six attempts fail |
| FormatImagePrompts.UpperFirst | Scripts/Image_Prompts/format_image_prompts.py:24 | same length, the first character upper-cased, the rest unchanged |
| FormatImagePrompts.ParagraphCaseKeepsLines | Scripts/Image_Prompts/format_image_prompts.py:22-24 | this paragraph case keeps every line, blank ones included, each with its first character upper-cased |
| FormatImagePrompts.KeyEnd | Scripts/Image_Prompts/format_image_prompts.py:52 | a match ends at a colon inside the line, after a capital first letter |
| FormatImagePrompts.FormatImagePromptsBlock | Scripts/Image_Prompts/format_image_prompts.py:44-60 | the loop returns the specification's formatted block |
| FormatImagePrompts.EntryStartsWithKey | Scripts/Image_Prompts/format_image_prompts.py:54-57 | each entry starts with its key, which starts with a capital, followed by `: ` |
| FormatImagePrompts.PromptLinesPairs | Scripts/Image_Prompts/format_image_prompts.py:53-58 | the output is entry and blank-line pairs: even length, blank at every odd position |
| FormatImagePrompts.NoKeysNoOutput | Scripts/Image_Prompts/format_image_prompts.py:48-58 | a block without `Key:` lines formats to nothing |
| FormatImagePrompts.RunFormatImagePrompts | Scripts/Image_Prompts/format_image_prompts.py:62-89 | the content is the two formatted blocks joined by a blank line and stripped, stored under Format_Image_Prompts/ |
| FormatImagePrompts.CombinedWithEmpty | Scripts/Image_Prompts/format_image_prompts.py:72 | when one block formats to nothing, the output is the other block alone |
| Website.StripScheme | Scripts/Website_Year/website.py:6 | the result is the input without a leading `https://` or `http://` in any case: what is removed is empty or one of the two schemes, and it is empty exactly when the input starts with neither |
| Website.StripWww | Scripts/Website_Year/website.py:6 | the result is the input without one leading `www.` in any case: what is removed is empty or `www.`, and it is empty exactly when the input does not start with it |
| Website.NormalizeWebsite | Scripts/Website_Year/website.py:4-15 | succeeds exactly when the domain is non-empty and holds a dot, giving `www.` and the domain |
| Website.PrefixesRemoved | Scripts/Website_Year/website.py:6 | a scheme and `www.` in any case are removed |
| Website.NormalizeIdempotent | Scripts/Website_Year/website.py:4-15 | normalising a normalised website changes nothing |
| Website.RunWebsite | Scripts/Website_Year/website.py:17-28 | a blank URL gives the missing-URL error. Success comes exactly when the stripped URL normalises, giving `www.` and its domain |
| Folders.NormalisePathSegment | Scripts/Predictive_Report/write_create_folders.py:13-14 | the segment stripped with `_` for spaces, title-cased: each character is the underscored segment's, upper-cased at the start or after a non-letter (`_` included) and lower-cased after a letter; no spaces |
| Folders.UppercasePathSegment | Scripts/Predictive_Report/write_create_folders.py:16-17 | the same, with no lower-case letter |
| Folders.DateStamp | Scripts/Predictive_Report/write_create_folders.py:54 | the stamp is the date character by character with `/` as `-`, a space as `_` and `:` dropped; no `/`, space or `:` is left |
| Folders.StampOfColonFree | Scripts/Predictive_Report/write_create_folders.py:54 | a date without `:` keeps its length, and each of its characters maps on its own |
| Folders.BuildExpectedPaths | Scripts/Predictive_Report/write_create_folders.py:44-74 | ten paths: client, context, dated, then the seven sub-folders in order, each under the one before |
| Folders.PathsNested | Scripts/Predictive_Report/write_create_folders.py:58-60 | every later path lies under each of the first three it follows |
| Folders.PathsDistinct | Scripts/Predictive_Report/write_create_folders.py:62-73 | the ten paths are all different |
| StorageWrite.ContentTypeFor | Engine/Files/write_supabase_file.py:59-70 | a Content-Type is always set |
| StorageWrite.ContentTypeChoice | Engine/Files/write_supabase_file.py:59-70 | a given type wins; otherwise the CSV type exactly for `.csv`, the text type exactly for `.txt`, and the octet-stream type for anything else |
| StorageWrite.WriteSupabaseFile | Engine/Files/write_supabase_file.py:15-77 | an upload happens exactly when the URL, the root folder and the path are set and the content is text or bytes. Its full path is the root folder, `/` and the path; its address is the URL, `/storage/v1/object/`, the bucket, `/` and the full path; it has the chosen type and the content unchanged |
| StorageWrite.ChecksInOrder | Engine/Files/write_supabase_file.py:16-54 | the URL is checked first, then the root folder, then the path, then the content's type |
| StorageWrite.FullPathInjective | Engine/Files/write_supabase_file.py:29 | two paths reach the same object only when they are equal |

## Findings

| source | as written | input that shows it | evidently intended | confidence | as-written member | corrected member |
|---|---|---|---|---|---|---|
| Scripts/Predictive_Report/report_and_section_table_csv.py:107-143 | the inner loop stops at a stop line, and the outer `i += 1` then skips that line, so a `Section #:` or `Section Title:` line right after a table body is never read | a section with "Section Tables:" followed directly by "Section #: 2" while section 1 is current: the next section's table gets number 1 | the line that ended the body is read next, so the next table carries its own section number and title | medium, not executed | TableCsv.StaleSectionFileName | TableCsv.ScanSectionTables |

`TableCsv.ScanSectionTablesAsWritten` is the loop as written, and
`TableCsv.AsWrittenSkipsStopLine` is its step at a table block.
`TableCsv.StaleSectionNumber` and `TableCsv.StaleSectionFileName` show
the input concretely, down to the file name. `TableCsv.ScanSectionTables`
is the corrected loop. `TableCsv.CorrectedTablesCarryLatest` proves the
intended property about it for every input. `TableCsv.RunTableCsv`
models `run_prompt` as written, so it uses the scan as written.

## Left out

- Storage and HTTP I/O are not part of this model: the PUT request and its response, `read_supabase_file`, and the read-back after each write. Each run returns the text it writes. The retrying reader takes the outcome of each read as a parameter.
- The fresh identifiers from `uuid4` and the sleeps of the reader are not modelled. The identifier is a parameter, and the sleeps are returned as a list of waits.
- `create_folder`, `background_create_folders` and `run_prompt` of write_create_folders.py are not modelled: they are I/O and a background thread around `build_expected_paths`.
- `load_american_to_british_dict` is not modelled, because it reads a file. The dictionary is a parameter.
- British.ToBritish: does not model the regular expression for dictionary keys that hold non-word characters. The model matches whole runs of word characters, which is what `\b(...)\b` matches when every key is a non-empty run of word characters. An empty key makes `\b()\b` match at every word boundary, and `replace_match` then fails on `us_word[0]`; the model instead leaves the text unchanged.
- Case mapping, `\w` and `\s` are ASCII only. Python's Unicode tables are not modelled.
- `splitlines` is modelled as a split on "\n": "\r" and the other Unicode line boundaries are not modelled.
- The CSV encoding (quoting and escaping by the `csv` module) and UTF-8 encoding are not modelled. A CSV is a list of rows of cells, and a byte payload is a sequence of bytes.
- Missing request fields are the empty string, as `data.get(key, "")` gives them.
- Folders.BuildExpectedPaths: does not model the `KeyError` that `data["client"]` and the other five lookups raise for a missing field (write_create_folders.py:45-50). The request is a record with every field present.
- Logging is left out.
- The metrics engine the design description names is not part of these files and is not modelled.
- StorageWrite.WriteSupabaseFile: models a missing `content_type` as "". A Python `None` and an empty string both fall through to the extension rule in the source, so nothing is lost.
- The exception handlers of each `run_prompt` are not modelled for errors that can only come from storage. The errors that come from the text itself are modelled: the unbound table heading in combine.py and the missing section title in the section-table scan.
