# file-renamer, modelled in Dafny

file-renamer renames the video files kept in a Google Drive folder tree. It runs on a
schedule. Each run does the following:

- It finds every folder under the configured parent folder, breadth first.
- It lists the files in those folders that do not yet carry the `file-renamer-processed`
  property.
- It loads the titles of the files that already carry that property. These are the names
  in use.
- It gives each candidate a new name: the configured keywords its old name mentions, its
  creation date as `YYYY_MMDD`, the lowest counter that makes the name unused, and the old
  extension.
- It writes the new title together with the property.

A levelled logger records what happens, in one file per day.

The model has these modules:

- `FileActions` (`fileactions.dfy`): the `Renamer` and its `Run` loop, and the name
  generator. The generator is a method with the source's loops, proved to compute the
  function `NewName`. A whole run is proved to compute the function `Batch`, and the
  lemmas state what a run promises.
- `FileRetriever` (`fileretriever.dfy`):
  - the Drive query strings, built by loops that are proved to render their defining
    functions;
  - the breadth-first folder discovery, proved against the function `Expand`;
  - the enumeration of candidate files, which builds `RenameInfo` objects;
  - the loading of the names in use;
  - the update record.
- `Logger` (`logger.dfy`): level parsing, the level gate of `Error`/`Warn`/`Info`, `Fatal`,
  the daily log file name, and the rollover to a new file on a new day, with the file each of
  the four loggers writes to.
- Support modules:
  - `Rfc3339` (`rfc3339.dfy`): the strict `date-time` syntax of RFC 3339 section 5.6, with
    the date checks of section 5.7. It stands in for Go's `time.Parse(time.RFC3339, ·)`;
    the inputs where Go is more lenient are listed under "Left out".
  - `Text` (`text.dfy`): the parts of Go's `strings`, `strconv` and `fmt` the core uses.
  - `Configuration` (`config.dfy`): the configuration fields the core reads.
  - `Wrappers` (`wrappers.dfy`): `Option` and `Result`.

Drive and the file system are not modelled; they become parameters:

- A folder lookup is a function from a query to the found ids or an error.
- A file listing is a function from a query to the pages it delivered and the failure that
  ended it, if any.
- An update is a function from the update request to an optional error.

`Run` takes the retriever's answers as parameters. It returns the update requests it
issued and the ids whose update was rejected.

## Model

| member | source | states |
|---|---|---|
| Text.LastIndexOf | pkg/fileactions/process.go:78 | strings.LastIndex for one character: the result is -1 or an index holding the character, and no later index holds it |
| Text.NotContains | pkg/fileactions/process.go:87 | a text that does not start with `sub` and has no later occurrence of `sub`'s first character does not contain `sub` |
| Text.NatToString | pkg/fileactions/process.go:100 | `%d` of a natural number is a non-empty run of digits with no leading zero |
| Text.FixedDigits | pkg/fileactions/process.go:109 | a zero-padded field of a time layout has exactly its width and only digits |
| Text.DigitChar | pkg/fileactions/process.go:100 | a digit value below 10 renders as a decimal digit |
| Text.DigitValue | pkg/fileactions/process.go:100 | reading a digit gives a value below 10 that renders back as the same digit |
| Text.DigitsValueOfNatToString | pkg/fileactions/process.go:100 | reading back what `%d` wrote gives the number |
| Text.NatToStringInjective | pkg/fileactions/process.go:98-105 | different counters render as different texts |
| Text.FixedDigitsOfDigitsValue | pkg/fileactions/process.go:116 | a run of digits is the zero-padded rendering of its own value at its own width |
| Text.DigitsValueOfFixedDigits | pkg/fileactions/process.go:116 | a zero-padded rendering reads back as the number when the number fits the width |
| Text.Atoi | pkg/logger/service.go:91 | strconv.Atoi succeeds exactly on an optional sign followed by at least one digit whose signed value fits an int64, and then returns that signed value |
| Text.ItoaParts | pkg/logger/service.go:91 | Itoa writes the decimal digits of the magnitude after an optional sign, and that sign gives back the number |
| Text.AtoiOfItoa | pkg/logger/service.go:91 | Atoi reads back every int64 that Itoa writes |
| Rfc3339.DaysIn | pkg/fileactions/process.go:112 | a month has 28 to 31 days, and 29 exactly for February of a leap year |
| Rfc3339.Parse | pkg/fileactions/process.go:112-115 | the strict RFC 3339 reading succeeds exactly on a well-formed date-time with a valid calendar date and time fields in range; on failure the error names the rejected text |
| Rfc3339.ParsedFieldsAsWritten | pkg/fileactions/process.go:112-116 | the year, month and day parsed, zero-padded back, are exactly the digits written in the timestamp |
| Rfc3339.FormatLayout | pkg/fileactions/process.go:116 | where each field and separator lands in a formatted timestamp |
| Rfc3339.ParseOfFormat | pkg/fileactions/process.go:112-116 | every valid date survives formatting and parsing |
| Rfc3339.ParseValidExample | pkg/fileactions/process_test.go:50-55 | "2020-08-31T19:33:44.561Z" parses to 31 August 2020 |
| Rfc3339.DateTimeLayout | pkg/fileactions/process.go:112 | where each field and separator sits in a timestamp written from a date, a time and a suffix |
| Rfc3339.FieldAt | pkg/fileactions/process.go:112 | a zero-padded field read back at its place gives its number |
| Rfc3339.ParseOfDateTimeText | pkg/fileactions/process.go:112-115 | every timestamp written from a valid date, an hour up to 23, minutes and seconds up to 59 and a valid fraction and offset parses to that date |
| Rfc3339.SharedTestFields | pkg/fileactions/process_test.go:59-80 | 2020, 8, 33 and 44 render zero-padded as "2020", "08", "33" and "44" |
| Rfc3339.DayHourFields | pkg/fileactions/process_test.go:59-80 | 31, 28, 19 and 17 render zero-padded as "31", "28", "19" and "17" |
| Rfc3339.ParseTestTimestamp | pkg/fileactions/process_test.go:59-80 | a timestamp "2020-08-DDThh:33:44.561Z" with a valid day and hour parses to that day of August 2020 |
| Rfc3339.ParseEarlierExample | pkg/fileactions/process_test.go:70-74 | "2020-08-31T17:33:44.561Z" parses to 31 August 2020 |
| Rfc3339.ParseOtherDayExample | pkg/fileactions/process_test.go:75-79 | "2020-08-28T19:33:44.561Z" parses to 28 August 2020 |
| Rfc3339.FractionExample | pkg/fileactions/process_test.go:51 | ".561Z" is a fraction of a second followed by a valid offset |
| Rfc3339.ParseInvalidExample | pkg/fileactions/process_test.go:44-49 | "2020-03-24 04:45:20" (a space for "T", no offset) is refused |
| FileRetriever.RenameInfo.constructor | pkg/fileretriever/service.go:89-93 | a candidate record holds the listed file's id, title and creation date |
| FileRetriever.FlattenSnoc | pkg/fileretriever/service.go:86-98 | the items of the pages with one more page are the old items followed by that page |
| FileRetriever.FlattenCons | pkg/fileretriever/service.go:46-69 | the layers with one more layer in front are that layer followed by the old ones |
| FileRetriever.FlattenPrefixStep | pkg/fileretriever/service.go:86-98 | each page delivered extends the items seen by exactly that page |
| FileRetriever.ParentTerms | pkg/fileretriever/service.go:127-129 | one parent term per folder id |
| FileRetriever.ExtensionTerms | pkg/fileretriever/service.go:154 | one title term per extension |
| FileRetriever.JoinSnoc | pkg/fileretriever/service.go:128-130 | joining one more part appends the separator and that part |
| FileRetriever.ParentTermsSnoc | pkg/fileretriever/service.go:128-130 | the terms of one more folder id are the old terms and that id's term |
| FileRetriever.BuildChildQuery | pkg/fileretriever/service.go:123-133 | buildChildQuery returns "" for no folders, and otherwise every folder's parent term once, in order, joined by "or ", then the folder-type filter |
| FileRetriever.BracketedIsJoin | pkg/fileretriever/service.go:135-160 | after k terms a loop of buildFileQuery has appended the opening text, the first k terms joined by "or ", and ") " only once the last term is written |
| FileRetriever.BracketedAll | pkg/fileretriever/service.go:135-160 | a finished loop of buildFileQuery appends the bracketed join of all its terms, or nothing when there are none |
| FileRetriever.ClausesBracketed | pkg/fileretriever/service.go:135-160 | the two loops of buildFileQuery together write the parent clause and then the extension clause |
| FileRetriever.ExpandUnfold | pkg/fileretriever/service.go:46-69 | in a discovery that completes, each pass's lookup succeeds and the rest of the discovery starts from the ids it appended |
| FileRetriever.ExpandKeeps | pkg/fileretriever/service.go:40-72 | a completed discovery keeps the ids it started with at the front and makes at most `fuel` passes |
| FileRetriever.ExpandLayers | pkg/fileretriever/service.go:46-69 | the frontiers of the passes, laid end to end, are exactly the ids from the starting index on: each id is expanded once, in order |
| FileRetriever.PassesChain | pkg/fileretriever/service.go:46-69 | each pass expands exactly what the previous pass found, with one successful lookup built from a non-empty frontier, and the last pass finds nothing |
| FileRetriever.DiscoveryFromRoot | pkg/fileretriever/service.go:40-72 | a discovery from the parent folder lists the parent first and expands every found folder exactly once |
| FileRetriever.UpdateRequest | pkg/fileretriever/service.go:202-215 | UpdateFile sends the file's id, its new title and exactly one property: key "file-renamer-processed", value "true", visibility "PUBLIC" |
| FileRetriever.UpdateMarksWhatQueriesTest | pkg/fileretriever/service.go:162 | the property an update writes is exactly the one the enumeration excludes and the processed query selects |
| FileRetriever.TitlesSnoc | pkg/fileretriever/service.go:174-176 | one more item adds exactly its title to the set of titles |
| FileRetriever.MirrorsSnoc | pkg/fileretriever/service.go:89-93 | adding a record built from one more item keeps the records in step with the items |
| FileRetriever.CollectPage | pkg/fileretriever/service.go:86-98 | the page callback of getFilesFromFolders appends one new record per item, in order, and keeps the records already collected |
| FileRetriever.MarkPage | pkg/fileretriever/service.go:173-177 | the page callback of GetProcessedFiles marks every title on the page as true, and the keys are exactly the titles seen so far |
| FileRetriever.ProcessedFilesAsWritten | pkg/fileretriever/service.go:164-185 | as written, GetProcessedFiles returns (an empty map) exactly when the listing holds no marked file, and panics otherwise |
| FileRetriever.FlattenEmptyPrefix | pkg/fileretriever/service.go:168-179 | once some pages hold an item, the whole listing holds one |
| FileRetriever.ProcessedFilesFinding | pkg/fileretriever/service.go:164-185 | a listing of one marked file has that one item, whose title the intended result holds and where the written code panics |
| FileRetriever.FileRetriever.constructor | pkg/fileretriever/service.go:31-38 | a new retriever has the configuration and no remembered folders |
| FileRetriever.FileRetriever.BuildFileQuery | pkg/fileretriever/service.go:135-160 | buildFileQuery renders the parent clause followed by the extension clause, each present only when it has terms |
| FileRetriever.FileRetriever.GetSubFolders | pkg/fileretriever/service.go:40-72 | getSubFolders returns the breadth-first discovery from the parent folder, with the parent first, or the first lookup error |
| FileRetriever.FileRetriever.GetFilesFromFolders | pkg/fileretriever/service.go:74-110 | getFilesFromFolders returns one new record per listed unprocessed file, in page order; a failed page is only logged, so the error is always nil |
| FileRetriever.FileRetriever.GetFileInfo | pkg/fileretriever/service.go:113-121 | GetFileInfo returns a lookup error with nothing remembered, or remembers the discovered folders and returns the records of their unprocessed files |
| FileRetriever.FileRetriever.GetProcessedFiles | pkg/fileretriever/service.go:164-185 | the names in use are exactly the titles of the marked files in the remembered folders, each mapped to true |
| FileActions.Extension | pkg/fileactions/process.go:77-83 | the suffix is the old name from its last "." on, and empty exactly when there is no "." |
| FileActions.ParseRfc3339 | pkg/fileactions/process.go:108-117 | parseRFC3339 succeeds exactly on an RFC 3339 date-time and returns its year, "_", month and day as written; otherwise it returns the parse error |
| FileActions.CandidateInjective | pkg/fileactions/process.go:98-105 | different counters give different candidate names for the same stem and extension |
| FileActions.CandidatesCount | pkg/fileactions/process.go:98-105 | the first n candidates are n different names |
| FileActions.CandidatesBound | pkg/fileactions/process.go:98-105 | if the first n candidates are all in use, the map holds at least n names set to true, so the counter loop ends |
| FileActions.FreeCounterFrom | pkg/fileactions/process.go:98-105 | the counter search stops at a free candidate, with every lower candidate in use, no later than the number of names in use |
| FileActions.LowestFreeUnique | pkg/fileactions/process.go:98-105 | only one counter is free with every lower counter in use |
| FileActions.NewName | pkg/fileactions/process.go:73-106 | generateNewName succeeds exactly on an RFC 3339 creation date; its name is never one in use; otherwise the error is the parse error |
| FileActions.NewNameIsLowestFree | pkg/fileactions/process.go:85-105 | a new name is the kept keywords, the date, the delimiter, a counter and the extension, and every lower counter's name is in use |
| FileActions.NewNameKeepsExtension | pkg/fileactions/process.go:77-83 | a new name ends with the old extension, after at least one counter digit |
| FileActions.KeywordPrefixIgnoresCase | pkg/fileactions/process.go:86-90 | names that agree up to letter case keep the same keywords |
| FileActions.KeywordPrefixNoMatch | pkg/fileactions/process.go:86-90 | without a matching keyword the new name starts with the date |
| FileActions.Kept | pkg/fileactions/process.go:86-90 | the kept keywords are exactly the configured ones the old name contains, ignoring case |
| FileActions.KeywordPrefixIsKeptWords | pkg/fileactions/process.go:86-90 | the prefix is the kept keywords, each followed by the delimiter, in configuration order whatever their order in the old name |
| FileActions.KeywordPrefixAllMatch | pkg/fileactions/process.go:86-90 | when every keyword matches, the prefix is every keyword followed by the delimiter, in configuration order, and its length is their lengths plus one delimiter each |
| FileActions.ConcatLength | pkg/fileactions/process.go:86-90 | the words each followed by the delimiter take their lengths plus one delimiter each |
| FileActions.GeneratorApplies | pkg/fileactions/process.go:54 | the loop's name generator is generateNewName under the fixed configuration |
| FileActions.Batch | pkg/fileactions/process.go:53-66 | a run gives one final name per file |
| FileActions.GeneratorIsProper | pkg/fileactions/process.go:73-106 | generateNewName refuses exactly the files with a bad timestamp, and otherwise gives a non-empty name not in use |
| FileActions.BatchStep | pkg/fileactions/process.go:53-66 | one more file keeps the earlier names and appends that file's outcome |
| FileActions.BatchPrefixStep | pkg/fileactions/process.go:53-66 | the outcome after one more file of a fixed list |
| FileActions.BatchEmptiesRefused | pkg/fileactions/process.go:54-59 | a file's name is emptied exactly when the generator refuses it |
| FileActions.BatchMarksNewNames | pkg/fileactions/process.go:65 | every new name is marked in use at the end, and every other entry of the map is kept as loaded |
| FileActions.BatchNamesUnique | pkg/fileactions/process.go:53-66 | every new name was free in the loaded map, and no two files get the same new name |
| FileActions.RunOutcome | pkg/fileactions/process.go:50-66 | a run empties a file's name exactly when its timestamp is not RFC 3339; every new name was free and is unique in the run; the final map marks each new name and keeps every other entry as loaded |
| FileActions.Requests | pkg/fileactions/process.go:60 | at most one update request per file |
| FileActions.RequestsStep | pkg/fileactions/process.go:54-60 | one more file adds its request only when it got a name |
| FileActions.RejectedStep | pkg/fileactions/process.go:60-63 | one more request adds its id to the rejected ids exactly when the update fails |
| FileActions.LedgerStep | pkg/fileactions/process.go:54-63 | one more file extends the requests and the rejected ids by that file's share |
| FileActions.RunStep | pkg/fileactions/process.go:53-66 | one turn of the loop extends the names, the map, the requests and the rejected ids by that file's share |
| FileActions.Entries | pkg/fileactions/process.go:53-54 | one entry per file |
| FileActions.Ids | pkg/fileactions/process.go:60 | one id per file |
| FileActions.Names | pkg/fileactions/process.go:54 | one name per file |
| FileActions.ReplaceNext | pkg/fileactions/process.go:54 | overwriting the name after the files already done extends the done part by that name |
| FileActions.ParseRfc3339ValidExample | pkg/fileactions/process_test.go:50-55 | "2020-08-31T19:33:44.561Z" becomes "2020_0831" |
| FileActions.FormatDateExample | pkg/fileactions/process.go:109 | 31 August 2020 formats as "2020_0831" |
| FileActions.FormatOtherDateExample | pkg/fileactions/process.go:109 | 28 August 2020 formats as "2020_0828" |
| FileActions.ParseRfc3339InvalidExample | pkg/fileactions/process_test.go:44-49 | "2020-03-24 04:45:20" gives the parse error |
| FileActions.FooFileKeywords | pkg/fileactions/process_test.go:62 | "foofile1.mov" keeps the keyword "foo" but not "bar" |
| FileActions.FooFileExtension | pkg/fileactions/process_test.go:62 | the extension of "foofile1.mov" is ".mov" |
| FileActions.FooFirstName | pkg/fileactions/process_test.go:83-90 | with "2020_0828_0.mov" in use, the first "foofile1.mov" becomes "foo_2020_0831_0.mov" |
| FileActions.FooSecondName | pkg/fileactions/process_test.go:91 | once that name is in use too, the second copy becomes "foo_2020_0831_1.mov" |
| FileActions.BatchOfTwo | pkg/fileactions/process.go:53-66 | a run over two files gives the name of each in turn, the second generated after the first is marked |
| FileActions.DuplicatesExample | pkg/fileactions/process_test.go:59-91 | two copies of "foofile1.mov" from the same day get counters 0 and 1 in one run |
| FileActions.DuplicatesOfTestTimestamp | pkg/fileactions/process_test.go:59-91 | the same, with the timestamp of the test |
| FileActions.TestWordsConcat | pkg/fileactions/process_test.go:27-28 | the test keywords "foo" and "bar", each followed by "_", give "foo_bar_" |
| FileActions.BarFooKeywords | pkg/fileactions/process.go:86-90 | "barfoo.mov" gives the prefix "foo_bar_": the configuration's order wins over the order in the name |
| FileActions.FooBarKeywords | pkg/fileactions/process_test.go:72 | "foobarfile2.mov" keeps both keywords: "foo_bar_" |
| FileActions.FooBarExtension | pkg/fileactions/process_test.go:72 | the extension of "foobarfile2.mov" is ".mov" |
| FileActions.FileThreeKeywords | pkg/fileactions/process_test.go:77 | "file3.mov" keeps no keyword |
| FileActions.FileThreeExtension | pkg/fileactions/process_test.go:77 | the extension of "file3.mov" is ".mov" |
| FileActions.FooBarName | pkg/fileactions/process_test.go:92 | "foobarfile2.mov" from 31 August becomes "foo_bar_2020_0831_0.mov" whenever that name is free |
| FileActions.FileThreeName | pkg/fileactions/process_test.go:93 | "file3.mov" from 28 August becomes "2020_0828_1.mov" whenever "2020_0828_0.mov" is in use and "2020_0828_1.mov" is free |
| FileActions.TestNamesDistinct | pkg/fileactions/process_test.go:83-94 | the four expected names differ from each other and from the name in use |
| FileActions.TakenUpdate | pkg/fileactions/process.go:65 | marking a name in use leaves every other name as it was |
| FileActions.BatchAppend | pkg/fileactions/process.go:53-66 | one more file that gets a name appends that name and marks it in use |
| FileActions.BatchOfFour | pkg/fileactions/process.go:53-66 | a run over four files gives the name of each in turn, each generated after the earlier ones are marked |
| FileActions.RequestsAllNamed | pkg/fileactions/process.go:54-60 | when every file got a name, there is one request per file, in order, writing that file's name |
| FileActions.RequestsOfFour | pkg/fileactions/process.go:54-60 | four renamed files give their four requests, in order |
| FileActions.RunTestCopies | pkg/fileactions/process_test.go:90-91 | the generator gives the two copies of "foofile1.mov" counters 0 and 1 |
| FileActions.RunTestFooBar | pkg/fileactions/process_test.go:92 | after those, "foobarfile2.mov" gets "foo_bar_2020_0831_0.mov" |
| FileActions.RunTestFileThree | pkg/fileactions/process_test.go:93 | after those, "file3.mov" gets "2020_0828_1.mov" |
| FileActions.RunTestOutcome | pkg/fileactions/process_test.go:83-94 | the run of the test gives the four expected names and marks all four, next to the loaded one |
| FileActions.TestRequests | pkg/fileactions/process_test.go:89-99 | the requests for the expected names are the four updates the test expects, in order |
| FileActions.RunTestRequests | pkg/fileactions/process_test.go:89-99 | the run of the test sends exactly the four updates the test expects, in order |
| FileActions.RunTestDates | pkg/fileactions/process_test.go:59-80 | the test's timestamps become "2020_0831", "2020_0831" and "2020_0828" |
| FileActions.RunTest | pkg/fileactions/process_test.go:58-103 | with the test's own timestamps, the run gives the expected names and sends the expected updates |
| FileActions.Renamer.constructor | pkg/fileactions/process.go:27-35 | a new renamer has the configuration and no names in use |
| FileActions.Renamer.GenerateNewName | pkg/fileactions/process.go:73-106 | the loops of generateNewName compute NewName: "" and the parse error on a bad timestamp, and otherwise a name not in use |
| FileActions.Renamer.FreeName | pkg/fileactions/process.go:98-105 | the counter loop returns the lowest-counter candidate not in use |
| FileActions.Renamer.RenameFile | pkg/fileactions/process.go:54-65 | one file takes its generated name (or ""). When it got a name, the update is requested and the name is marked in use whether or not the update failed |
| FileActions.Renamer.RenameAt | pkg/fileactions/process.go:53-65 | renaming the file at one position changes no other file's name |
| FileActions.Renamer.RenameNext | pkg/fileactions/process.go:53-66 | one turn of the loop keeps the loop state equal to Batch over the files done so far |
| FileActions.Renamer.RenameAll | pkg/fileactions/process.go:53-66 | after the loop, the names in use, every file's name, the requests and the rejected ids are those of Batch over the files from the loaded names |
| FileActions.Renamer.Run | pkg/fileactions/process.go:43-69 | Run returns the retriever's error with nothing changed, or loads the names in use and renames every file as Batch says |
| Logger.ParseLogLevel | pkg/logger/service.go:75-97 | level names in any letter case map to their levels, and any result lies in the int64 range |
| Logger.ParseLogLevelIgnoresCase | pkg/logger/service.go:77 | spellings of a level name that differ only in case parse alike |
| Logger.NumericIsNoName | pkg/logger/service.go:77-90 | a text starting with a digit or a sign is never a level name |
| Logger.ParseLogLevelOfNumber | pkg/logger/service.go:90-91 | every int64 written in decimal parses to itself, unclamped |
| Logger.ParseLogLevelFallback | pkg/logger/service.go:91-94 | a text that is neither a level name nor a number gives INFO |
| Logger.ParseLogLevelWithoutDigits | pkg/logger/service.go:75-97 | a text without digits gives ERROR, WARN or INFO |
| Logger.ParseLogLevelExamples | pkg/logger/service.go:75-97 | "info", "Warning" and "error" give their levels; "verbose" gives INFO |
| Logger.ParseLogLevelOfNumeral | pkg/logger/service.go:90-91 | any text that Atoi accepts parses to Atoi's value, unclamped |
| Logger.ParseLogLevelOfDigits | pkg/logger/service.go:90-91 | an optional sign and digits worth less than 1000 parse to their signed value |
| Logger.ParseLogLevelNumeralExamples | pkg/logger/service.go:90-91 | "+7" and "007" give 7 and "-0" gives 0 |
| Logger.PlusSevenDigits | pkg/logger/service.go:90-91 | "+7" gives 7 |
| Logger.ZeroZeroSevenDigits | pkg/logger/service.go:90-91 | "007" gives 7 |
| Logger.MinusZeroDigits | pkg/logger/service.go:90-91 | "-0" gives 0 |
| Logger.LogDirectory | pkg/logger/service.go:48-50 | the log directory is the configured one, or the default when none is configured |
| Logger.LogFilePathExample | pkg/logger/service.go:164-175 | the log of 31 August 2020 under the default directory is "file_renamer_logs/2020-8-31.log", without zero padding |
| Logger.RenderedExample | pkg/logger/service.go:173 | 2020, 8 and 31 render as "2020", "8" and "31" |
| Logger.SplitAtSeparator | pkg/logger/service.go:173 | two texts cut at a separator that neither prefix contains agree on both sides |
| Logger.NoDash | pkg/logger/service.go:173 | a rendered number holds no "-" |
| Logger.LogFileNameParts | pkg/logger/service.go:173 | a log file name is three dash-separated parts, and the first two hold no dash |
| Logger.LogFileNameInjective | pkg/logger/service.go:164-175 | different days get different log files |
| Logger.Service.constructor | pkg/logger/service.go:42-71 | a new service opens the file of the current date under the chosen directory, all four loggers write to it, and nothing is written yet |
| Logger.Service.Refresh | pkg/logger/service.go:178-199 | refresh closes the open file and opens the file of the new date; the error, warning and info loggers follow it, and the fatal logger stays on the closed file |
| Logger.Service.Write | pkg/logger/service.go:123 | a line reaches a log file only when it is written through the open file |
| Logger.Service.Gate | pkg/logger/service.go:113-123 | nothing happens below the level; otherwise a new day of the month rolls the file over first, and the line lands in the file of the current date |
| Logger.Service.Error | pkg/logger/service.go:112-124 | an error is written, with the "ERROR: " prefix, to the file of the current date exactly when ERROR passes the gate |
| Logger.Service.Warn | pkg/logger/service.go:127-139 | a warning is written, with the "WARNING: " prefix, to the file of the current date exactly when WARN passes the gate |
| Logger.Service.Info | pkg/logger/service.go:142-154 | an info message is written, with the "INFO: " prefix, to the file of the current date exactly when INFO passes the gate |
| Logger.Service.Fatal | pkg/logger/service.go:100-109 | whatever the level, a new day rolls the file over and the process exits; the "FATAL: " line lands only if the fatal logger is still on the open file |
| Logger.Service.FatalCorrected | pkg/logger/service.go:100-109 | with the fatal logger pointed at the open file, the "FATAL: " line always lands in the file of the current date |
| Logger.FatalLostAfterRollover | pkg/logger/service.go:196-198 | after an INFO message rolls the file over, a FATAL message that day reaches no log file |
| Logger.FatalKeptAfterRollover | pkg/logger/service.go:100-109 | with the corrected Fatal, the same FATAL message lands after the INFO line in the new day's file |
| Logger.FatalWrittenSameDay | pkg/logger/service.go:100-109 | without a rollover, a FATAL message lands whatever the level |
| Logger.SameDayNextMonth | pkg/logger/service.go:160-162 | only the day of the month is compared: a message of 31 August goes to the file of 31 July |

## Left out

- OAuth set-up, the token cache and the Drive client construction (pkg/fileretriever/service.go:217-305) are not modelled. They are I/O.
- The rate limiters and the `MaxResults(1000)` page size are not modelled. They only change how many calls the same answer takes.
- `IsUniqueName` (pkg/fileretriever/service.go:188-199) is not modelled. Nothing in the core calls it.
- The scheduler, `cmd/main.go` and reading the configuration file are not modelled.
- The text of the info and error messages that `Run`, `getFilesFromFolders` and `GetProcessedFiles` log is not modelled. Those calls only write to the log.
- Console echo, the date and time the log package writes before each line, `Stop` (pkg/logger/service.go:201-206) and the creation of the log directory are not modelled. They are console, clock and file-system I/O. The clock is a parameter `now`, and a log file is its path.
- Logger.Service.constructor and Logger.Service.Refresh: opening a log file never fails in the model. The source ends the process with `log.Fatal` when it does.
- Logger.Service.Fatal: the exit of the process is the flag `exited`, which every other method requires to be unset.
- Logger.LogFilePath: the path is joined with "/" only. `filepath.Clean` and Windows separators are not modelled.
- Text.ToLower and Text.ToUpper fold only ASCII letters. Go's Unicode case mapping is not modelled.
- Rfc3339.Parse refuses three forms that Go's fallback layout parser accepts: a one-digit hour ("2020-08-31T9:33:44Z"), a comma before the fraction ("2020-08-31T19:33:44,5Z"), and an offset whose hour is 24 or whose minute is 60 ("+24:00", "+05:60"). The model follows the RFC 3339 grammar there.
- FileActions.ParseRfc3339 inherits this: a creation timestamp in one of those forms empties the file's name in the model, where the source would rename the file. It also inherits the next point.
- Rfc3339.Parse keeps only the calendar date. It does not compute the instant a zone offset names, because the date is formatted in that same offset. Leap seconds are refused, as Go refuses them.
- FileRetriever.FileRetriever.GetSubFolders needs a bound on the depth of the folder tree, which exists only in the proof. The source keeps looking up folders for as long as lookups return new ids, so on a tree that never ends it does not terminate.
- FileRetriever.FileRetriever.GetFilesFromFolders and FileRetriever.FileRetriever.GetProcessedFiles: a listing that fails part-way keeps the pages delivered before the failure. The failure itself is only logged, as in the source.
- FileActions.Renamer.Run: the retriever is reached through an interface. Its answers are parameters: the files or the error, the names in use, and the outcome of each update. `GetProcessedFiles` is called without an argument, as `Run` calls it, although its declaration takes a date it never uses.
- FileActions.Renamer.Run: a new name is recorded as in use even when its update fails. The code does this at pkg/fileactions/process.go:60-65, and the model follows the code.
- The first test case (pkg/fileactions/process_test.go:34-40) is not modelled. It expects a counter of 1 and has generateNewName mark its own result, but generateNewName never writes the map, so the code gives "foo_bar_2020_1019_0.mov". It also sets a renamer field that does not exist. The model follows the code.
- The `RenameInfo` interface file (pkg/fileretriever/fileretrieveriface/service.go) is an older version that declares different methods. The records are modelled as service.go builds them.

## Findings

| source | as written | input that shows it | evidently intended | confidence | as-written member | corrected member |
|---|---|---|---|---|---|---|
| pkg/logger/service.go:196-198 | refresh redirects the error, warning and info loggers to the new day's file but not the fatal logger, which keeps writing to the closed file | an INFO message on a new day, then a FATAL message the same day | the FATAL line lands in the file of the current date | not executed | Logger.Service.Fatal, Logger.FatalLostAfterRollover | Logger.Service.FatalCorrected, Logger.FatalKeptAfterRollover |
| pkg/fileretriever/service.go:165-175 | the map of processed titles is declared but never allocated, so the first write into it in the page callback panics | a listing with one file that carries the processed property | an allocated map holding every marked title, mapped to true | not executed | FileRetriever.ProcessedFilesAsWritten, FileRetriever.ProcessedFilesFinding | FileRetriever.FileRetriever.GetProcessedFiles |

After any rollover the fatal logger writes to the closed first file. The write fails, the log
package drops the error, and the process exits with its last message in no log file.
`FatalCorrected` points the fatal logger at the open file before it writes. Adding the fatal
logger to the redirections in `refresh` has the same effect.

With no marked file the written code returns the unallocated map. `Run` then panics on its
first successful rename, at pkg/fileactions/process.go:65, which writes into that map. The
corrected `GetProcessedFiles` starts from an empty map. That is what `Run` is given in
the model.
