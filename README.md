# Jung trace merger: a Dafny model

Jung instruments a caller ("client") and a responder ("server") program.
Each side writes a text log with one line per event, in the form
`time function event [params]`. The event is `FUNC_START` with its
features, `malloc`, `free`, `RPC_start`, `RPC_end <id>`, `pagefault`,
a lock or wait event, or `FUNC_END`. The merger `trace_merge` reads the
two logs and does one of two things:

- it correlates every remote call of the caller with the responder's
  span of the same id, aggregates per-run figures, and writes one binary
  trace file per function;
- or, in `--simple` mode, it interleaves the responder lines into the
  caller log.

The project models four things:

- **The logging runtime** of `custom_instr.cc` / `custom_instr.h`
  (modules `Feature` and `Logger`). The log stream is a class whose files
  are a map from path to lines. Its fail bit and open file are what
  `ofstream` keeps. `write_log`, `custom_malloc`, `custom_free`,
  `start_instrum` and `finish_instrum` are methods that change those
  fields. Lemmas show that, for function and feature names without
  spaces, every line they write splits on spaces into the documented
  shape.
- **The responder-log index and scanners** of `trace_merge.cc`: class
  `ServerLog.ServerLog` with its `lines` and `indices` fields.
  `preprocess_server_log`, `get_line_num`, `calc_server_time`,
  `calc_server_memory` and `calc_server_pagefaults` are methods, each
  proved equal to a specification function. Lemmas say what those
  functions compute: the first end line after the indexed start, the
  last allocation size, allocations minus frees, and the last page-fault
  pair.
- **The correlator** `generate_perf_trace` (module `Correlator`, with the
  summary record and report of `trace_merge.h` in module `Record`). Class
  `Correlator.Correlator` holds `func_list` as a map from function name to
  a map from run number to sample. One method models the loop body, and
  one models the whole run with its final `FUNC_END` check. Lemmas state:
  - each counter of a run moves by exactly the effect of each line about
    that run;
  - lines about other runs leave it alone;
  - a start line resets the run;
  - the leak counter is the number of allocations minus the number of
    frees.
- **The binary encoder** `encode_perf_trace` (modules `TraceFormat`,
  `Encoder`, `EncoderRun`; module `Pipeline` hands the correlator's
  `func_list` to it) and **the simple merge** `simple_merge`
  (module `Merger`).
  - The encoder writes into an `OutFile` class with `write` and `seekp`.
    It is proved to produce exactly the bytes of a `Layout`. For an input
    whose names and numbers fit their fields, decoding those bytes gives
    the layout back. Every name offset points at its name's entry, and
    every type offset whose type is in the type table points at its
    entry; the others are 0.
  - The merge is proved to keep every caller line in order. It inserts
    the responder lines in order, without skipping or repeating one. The
    responder lines before an `RPC_end` line run through that call's
    `FUNC_END` line.

Shared modules:

- `Text` models `find` (with `size_t` and `npos` arithmetic), `substr`,
  the tokenising loops, `stoi`/`stol` and `to_string`.
- `Bytes` models little-endian fixed-width integers with C++ unsigned
  wrap-around.
- `Wrappers` holds `Option`, `Result` and `Outcome`.

Where the source would throw, exit, index out of range or dereference a
missing map entry, the model returns an error value instead.

Behaviour of the code that the model reproduces as written:

- **Type offsets.** The encoder adds a feature's type to the type set
  only when the feature's *name* is new (trace_merge.cc:352-354). A
  feature's type is therefore in the table only if it is also the type
  of the first feature with some name. A feature whose type is not
  there gets type offset 0, because `operator[]` on the offset map yields
  0 for a missing key. For example, with the features `(a, int)`,
  `(b, long)`, `(a, long)` the table holds `int` and `long`, so the third
  feature's type offset is that of the `long` entry.
  `Encoder.InternFirstTypes`, `Encoder.InternOnlyTypes` and
  `Encoder.TypeOffsetPoints` state this.
- **Feature tokens.** The logger prints a feature as `name=value`
  (custom_instr.h:50-54). The correlator parses tokens as
  `name=type&value` (trace_merge.cc:215-217). Read back, the value's
  digits become the type and the whole token becomes the value, which
  `Correlator.PrintedFeatureMisread` states.

## Model

| member | source | states |
|---|---|---|
| Text.FindFrom | trace_merge.cc:55 | the result is the first index at or after `i` where the pattern occurs; None exactly when it occurs nowhere from `i` on |
| Text.ContainsIff | trace_merge.cc:55 | `find(sub) != npos` holds exactly when the pattern occurs at some index |
| Text.FindPos | trace_merge.cc:118 | the `size_t` value of `find` lies below 2^64; it is npos exactly when the pattern is absent, and otherwise the match lies inside the string |
| Text.Substr | trace_merge.cc:215-217 | `substr(pos, n)` throws exactly when `pos` is past the end; otherwise it has min(n, size - pos) characters, copied from `pos` on |
| Text.Tokenize | trace_merge.cc:188-192 | the tokenising loop plus the final push yields exactly the fields of the line split on spaces |
| Text.SplitOnSpaces | trace_merge.cc:58-61 | the loop without its final push yields every field but the last, and the remaining text is that last field |
| Text.SplitJoin | trace_merge.cc:188-192 | joining the tokens with the separator restores the line, and no token holds the separator |
| Text.JoinSplit | trace_merge.cc:188-192 | splitting joined tokens that hold no separator gives the tokens back |
| Text.SplitNoSep | trace_merge.cc:188-192 | a line without the separator is one token |
| Text.SplitCons | trace_merge.cc:188-190 | one loop iteration: a separator-free head token followed by the tokens of the rest |
| Text.JoinSnoc | trace_merge.cc:192 | joining one more token appends the separator and the token |
| Text.FirstTokenSplit | trace_merge.cc:95 | `substr(0, find(" "))` is the first field of the line split on spaces |
| Text.DigitPrefix | trace_merge.cc:62 | the counted leading characters are all decimal digits |
| Text.ParseDigits | trace_merge.cc:62 | a number is read exactly when the text starts with a digit |
| Text.Stoi | trace_merge.cc:62 | a successful `stoi` gives a value in the 32-bit `int` range |
| Text.Stol | trace_merge.cc:95 | a successful `stol` gives a value in the 64-bit `long` range |
| Text.NatToString | custom_instr.cc:57 | `to_string` of a natural number is a non-empty run of digits |
| Text.DigitsOfNat | custom_instr.cc:57 | the digits `to_string` writes denote the number again |
| Text.IntToStringChars | custom_instr.cc:48 | a written integer consists of digits and at most a minus sign, with no space or newline |
| Text.ParseIntToString | custom_instr.cc:48 | reading the written form of any integer gives the integer back |
| Text.StoiIntToString | trace_merge.cc:232 | `stoi(to_string(n)) == n` for every 32-bit `n` |
| Text.StolIntToString | trace_merge.cc:95 | `stol(to_string(n)) == n` for every 64-bit `n` |
| Bytes.LE | trace_merge.cc:338 | writing a value through a `w`-byte variable produces exactly `w` bytes |
| Bytes.FromLEBound | trace_merge.cc:338 | `w` bytes read back as a number below 256^w |
| Bytes.FromLEOfLE | trace_merge.cc:338 | a value that fits in `w` bytes survives being written and read back |
| Bytes.LEOfFromLE | trace_merge.cc:338 | reading `w` bytes and writing the number back gives the same bytes |
| Bytes.Unsigned | trace_merge.cc:337 | a conversion to a `w`-byte unsigned type is written as `w` bytes |
| Bytes.UnsignedFits | trace_merge.cc:337-338 | a value already in range is written unchanged by the unsigned conversion |
| Bytes.Int64RoundTrip | trace_merge.cc:433 | an `int64_t` written as 8 bytes reads back in two's complement as the same value |
| Bytes.CharsRoundTrip | trace_merge.cc:339 | a string of one-byte characters written with `write(c_str, n)` reads back as the same string |
| Feature.MakeFeature | custom_instr.h:57-60 | `make_feature(n, v)` holds exactly the given name and value |
| Feature.PrintRoundTrip | custom_instr.h:50-54 | `print()` is invertible for a name without `=`: the text before the first `=` is the name, and the rest reads back as the value |
| Feature.PrintAvoids | custom_instr.h:50-54 | `print()` adds only `=`, digits and a minus sign to the name |
| Feature.PrintHasNoTypeTag | custom_instr.h:50-54 | `print()` writes no `&` when the name holds none, so its output has no type part |
| Record.MakeCustomFunc | trace_merge.h:27-39 | a new summary record has the given name and features, and every counter at its default 0 |
| Record.PrintOpening | trace_merge.h:42-45 | every report starts with the name, the execution time and "ms, of which approx." |
| Record.PrintLines | trace_merge.h:41-63 | split into lines, the report is the time line and the memory line, then a client-leak line exactly when `mem_leaks > 0`, a server-leak line exactly when `server_memory_leaks > 0`, and a feature line exactly when there are features |
| Record.PrintJoinsLines | trace_merge.h:41-63 | the report is those lines joined by newlines |
| Record.LinesHaveNoNewline | trace_merge.h:41-63 | no line of the report holds a newline when the name and feature names hold none |
| Record.FeatureTextInOrder | trace_merge.h:57-59 | the feature line lists each feature's print followed by a space, first feature first |
| Logger.Prints | custom_instr.cc:86-89 | one printed text per feature |
| Logger.PrintsAt | custom_instr.cc:86-89 | the `k`-th printed text is the print of the `k`-th feature |
| Logger.LogLineTokens | custom_instr.cc:48 | a written line splits on spaces into the timestamp followed by the words of the message |
| Logger.StartWords | custom_instr.cc:85-89 | the start message is the function name, `FUNC_START` and each feature's print, joined by spaces |
| Logger.StartLineTokens | custom_instr.cc:85-91 | the start line's tokens are the timestamp, the function name, `FUNC_START` and the printed features in order |
| Logger.MallocLineTokens | custom_instr.cc:57 | the allocation line's tokens are the timestamp, the function name, `malloc` and the size |
| Logger.FreeLineTokens | custom_instr.cc:66 | the free line's tokens are the timestamp, the function name and `free` |
| Logger.EndLineTokens | custom_instr.cc:95 | the end line's tokens are the timestamp, the function name and `FUNC_END` |
| Logger.Logger.constructor | custom_instr.cc:34 | the stream starts closed with a clear fail bit over the existing files |
| Logger.Logger.WriteLog | custom_instr.cc:37-49 | `<timestamp> <msg>` is appended to the open file when the stream is good, and nothing else changes |
| Logger.Logger.CustomMalloc | custom_instr.cc:51-59 | a null pointer is the fatal "cannot allocate" with no line written; otherwise the allocation line is appended and the pointer returned |
| Logger.Logger.CustomFree | custom_instr.cc:61-68 | a null pointer is the fatal "cannot free"; otherwise the free line is appended |
| Logger.Logger.StartInstrum | custom_instr.cc:70-92 | opening an open stream sets the fail bit and writes nothing; a file that cannot be opened is fatal; otherwise `<side>_log.txt` is opened (appending for "server", truncating otherwise) and the start line is written |
| Logger.Logger.FinishInstrum | custom_instr.cc:94-97 | the end line is written, then the stream is closed; closing a closed stream sets the fail bit |
| ServerLog.BuildIndexEntries | trace_merge.cc:55-63 | every index entry is the (id, line number) of a start line of the log |
| ServerLog.BuildIndexOrdered | trace_merge.cc:52-67 | index entries are in increasing line order |
| ServerLog.BuildIndexComplete | trace_merge.cc:55-63 | every start line of the log has an entry |
| ServerLog.BuildIndexFails | trace_merge.cc:58-62 | indexing fails exactly when some start line is malformed (too few fields or an unreadable id) |
| ServerLog.BuildIndexPrefixFails | trace_merge.cc:52-67 | the first malformed start line decides the failure of the whole log |
| ServerLog.FirstEntry | trace_merge.cc:78-83 | the entry found is the first with the id; None means no entry has it |
| ServerLog.ScanEnd | trace_merge.cc:98-100 | a found end line lies between the start line and the end of the log |
| ServerLog.ScanEndSpec | trace_merge.cc:98-100 | the line found is the first at or after the start that holds ` <id> FUNC_END`; None means there is none |
| ServerLog.SpanEnd | trace_merge.cc:98-100 | the end line of a span lies at or after its start line and inside the log |
| ServerLog.LastWith | trace_merge.cc:116-128 | a found line lies in the scanned range |
| ServerLog.LastWithSpec | trace_merge.cc:116-128 | the line found is the last in the range holding the key; None means there is none |
| ServerLog.MemScanSucceeds | trace_merge.cc:116-128 | with an end line and readable allocation sizes, the memory scan succeeds |
| ServerLog.MemScanUsage | trace_merge.cc:117-118 | the memory usage is the size on the span's last allocation line (assigned, not summed), or the initial value |
| ServerLog.MemScanLeaks | trace_merge.cc:119-126 | the leak count is the initial count plus allocation lines minus free lines |
| ServerLog.MemScanReallocs | trace_merge.cc:121-123 | one warning is counted per realloc line of the span |
| ServerLog.MemScanNoEnd | trace_merge.cc:116-128 | without an end line the memory scan fails |
| ServerLog.PagefaultScanSucceeds | trace_merge.cc:142-154 | with an end line and readable page-fault lines, the page-fault scan succeeds |
| ServerLog.PagefaultScanSpec | trace_merge.cc:142-154 | the page faults are tokens 4 and 5 of the span's last page-fault line, or the initial pair |
| ServerLog.ScanEndFrame | trace_merge.cc:98-100 | the end of a span depends only on lines at or after its start |
| ServerLog.ServerTimeIgnoresEarlierLines | trace_merge.cc:91-103 | the server time depends only on lines at or after the indexed start line |
| ServerLog.ServerTimeSpec | trace_merge.cc:91-103 | the server time is the first token of the first end line after the start, minus the first token of the start line |
| ServerLog.ServerTimeNoEnd | trace_merge.cc:98-100 | without an end line after the start, the server time is an error |
| ServerLog.UnknownRpcFails | trace_merge.cc:76-85 | an id with no index entry makes all three figures fail (the source returns an uninitialised line number) |
| ServerLog.ServerLog.constructor | trace_merge.cc:32-33 | the line store and the index start empty |
| ServerLog.ServerLog.Preprocess | trace_merge.cc:40-70 | on success every line is pushed, and exactly the index of the log is appended; it fails exactly when the index does |
| ServerLog.ServerLog.GetLineNum | trace_merge.cc:76-85 | the line of the first entry with the id |
| ServerLog.ServerLog.LocateSpan | trace_merge.cc:92-94 | the start line of the span, read through `stoi` and `get_line_num` |
| ServerLog.ServerLog.CalcServerTime | trace_merge.cc:91-103 | equals the server time of the span |
| ServerLog.ServerLog.TimeSpan | trace_merge.cc:95-102 | equals the time of the span starting at the given line |
| ServerLog.ServerLog.CalcServerMemory | trace_merge.cc:109-131 | equals the memory figures of the span |
| ServerLog.ServerLog.MemorySpan | trace_merge.cc:110-128 | equals the memory scan from the start line with zero figures |
| ServerLog.ServerLog.CalcServerPagefaults | trace_merge.cc:137-157 | equals the page-fault figures of the span |
| ServerLog.ServerLog.PagefaultSpan | trace_merge.cc:138-154 | equals the page-fault scan from the start line with the pair (0, 0) |
| ServerLog.ParseStartLine | trace_merge.cc:56-63 | equals the entry of the start line: tokens before the last space, the third read with `stoi` |
| ServerLog.AccountPagefault | trace_merge.cc:143-152 | equals one iteration of the page-fault loop body |
| Correlator.MakeSample | trace_merge.cc:225 | a new sample has the run number, no features and every figure 0 |
| Correlator.MakeFuncRecord | trace_merge.cc:223 | a new function record has the name and no samples |
| Correlator.ParseFeatureTokenTotal | trace_merge.cc:215-217 | `substr` never throws on a feature token |
| Correlator.ParseFeaturesAll | trace_merge.cc:213-219 | every token from the fourth on yields one feature, in token order |
| Correlator.FeatureTokenRoundTrip | trace_merge.cc:214-217 | a token written as `name=type&value` reads back as those three parts |
| Correlator.CutsAt | trace_merge.cc:215-217 | with `=` before `&`, the parts are the text before `=`, between them, and after `&` |
| Correlator.FeatureTokenWithoutAmpersand | trace_merge.cc:216-217 | with no `&`, npos + 1 wraps to 0, so the type is everything after `=` and the value is the whole token |
| Correlator.CutsBeforeNpos | trace_merge.cc:216-217 | with `=` at `i` and no `&`, the type runs to the end and the value is the whole token |
| Correlator.PrintedFeatureMisread | trace_merge.cc:215-217 | a feature as the logger prints it reads back with the value text as its type and the whole token as its value |
| Correlator.SubjectRoundTrip | trace_merge.cc:197-206 | a subject written as a digit-free name followed by its run number reads back as that name and number |
| Correlator.Put | trace_merge.cc:225-226 | storing a sample changes that run and no other run |
| Correlator.AccountCounts | trace_merge.cc:230-286 | every counter of an updated sample moves by exactly the line's effect on it |
| Correlator.RpcEndCounts | trace_merge.cc:247-260 | on `RPC_end` the responder's time, memory, leaks and page faults are added, and the network time grows by the call's duration minus the server time |
| Correlator.AccountKeeps | trace_merge.cc:242-292 | run number, features and start time never change; `FUNC_END` sets the execution time; `RPC_start` records its timestamp |
| Correlator.StepCounts | trace_merge.cc:184-293 | one caller line moves each counter of any run it does not reset by the line's effect on that run |
| Correlator.StartFrame | trace_merge.cc:221-227 | a start line touches only its own run, and with run 1 only the runs of its function |
| Correlator.StepFrame | trace_merge.cc:184-293 | a line about another run, other than a reset, leaves a run's sample unchanged |
| Correlator.StepStart | trace_merge.cc:208-228 | a start line stores a fresh sample with the line's features and start time; with run 1 it first replaces the function's record, otherwise the record must exist |
| Correlator.RunTally | trace_merge.cc:184-293 | over all caller lines, each counter of a run that no line resets grows by the sum of the effects of the lines about it |
| Correlator.LeakTally | trace_merge.cc:231-239 | the leak counter's tally is the number of allocations minus the number of frees |
| Correlator.TraceNeedsFinalEnd | trace_merge.cc:295-300 | the run fails unless the last caller line is a `FUNC_END`; an empty log fails |
| Correlator.TraceSucceeds | trace_merge.cc:295-300 | with a good responder log and caller lines that all go through, the final `FUNC_END` is all that is asked |
| Correlator.Correlator.constructor | trace_merge.cc:179-181 | `func_list` and the token vector start empty |
| Correlator.Correlator.ProcessLine | trace_merge.cc:185-292 | the token vector is the line's fields; the new `func_list` is the loop body's result, or the error, exactly as the specification step says |
| Correlator.Correlator.StartRun | trace_merge.cc:208-228 | the `FUNC_START` branch updates `func_list` exactly as the start step says, or fails with its error |
| Correlator.ParseFeatureList | trace_merge.cc:213-219 | the features read are those of tokens 3 onwards, in order |
| Correlator.AccountLine | trace_merge.cc:230-292 | the sample after the other branches equals the specification update |
| Correlator.RpcEndLine | trace_merge.cc:247-260 | the `RPC_end` branch equals the specification update with the responder's figures |
| Correlator.GeneratePerfTrace | trace_merge.cc:176-300 | index the responder log, run every caller line, and check the last one: the result equals the specification trace |
| Correlator.CorrelateLines | trace_merge.cc:184-300 | the loop and the final check against an indexed responder log equal the specification |
| TraceFormat.HeaderBytes | trace_merge.cc:337-339 | the name is written as a 4-byte length and that many characters |
| TraceFormat.Entry | trace_merge.cc:355-357 | a feature name or type is written as a 2-byte length and that many characters |
| TraceFormat.TripleBytes | trace_merge.cc:416-433 | a feature is 24 bytes: name offset, type offset, value |
| TraceFormat.FiguresBytes | trace_merge.cc:393-399 | the uid and six figures take 52 bytes |
| TraceFormat.ReadEntriesOf | trace_merge.cc:349-373 | a table of names that fit reads back as the same names |
| TraceFormat.ReadTriplesOf | trace_merge.cc:410-435 | written triples that fit read back as the same triples |
| TraceFormat.ReadRecordOf | trace_merge.cc:393-454 | a written record that fits reads back as the same record, with zero branch and child counts |
| TraceFormat.ReadRecordsOf | trace_merge.cc:387-455 | written records read back as the same records |
| TraceFormat.DecodeSerialize | trace_merge.cc:336-455 | the bytes of a layout whose numbers and strings fit their fields decode to that layout |
| TraceFormat.SerializeInjective | trace_merge.cc:336-455 | two layouts that fit and give the same bytes are equal |
| TraceFormat.EntriesAround | trace_merge.cc:349-361 | the name table splits around its `i`-th entry |
| TraceFormat.FeatureNameAt | trace_merge.cc:353-357 | reading an entry at the offset of the `i`-th feature name gives that name |
| TraceFormat.TypeNameAt | trace_merge.cc:369-372 | reading an entry at the offset of the `i`-th type gives that type |
| Encoder.Coerce | trace_merge.cc:420-433 | a converted feature value lies in the `int64_t` range |
| Encoder.CoerceTypes | trace_merge.cc:421-432 | only `double`, `int`, `float` and `long` are encoded; any other type is the fatal "unknown feature type"; a known type fails only on a bad value |
| Encoder.CoerceInts | trace_merge.cc:423-424 | an `int` feature written in decimal is encoded as that integer, for every 32-bit value |
| Encoder.CoerceLongs | trace_merge.cc:427-428 | a `long` feature written in decimal is encoded as that integer, for every 64-bit value |
| Encoder.StodTruncates | trace_merge.cc:421-426 | a floating-point text is converted to its integral part, toward zero |
| Encoder.InsertSortedSpec | trace_merge.cc:354 | inserting into the type set keeps it strictly sorted and adds exactly the new type |
| Encoder.LessIrreflexive | trace_merge.cc:344 | string `operator<` is irreflexive |
| Encoder.LessTotal | trace_merge.cc:344 | string `operator<` orders any two different strings |
| Encoder.LessTransitive | trace_merge.cc:344 | string `operator<` is transitive |
| Encoder.InternNames | trace_merge.cc:349-361 | each feature name is written exactly once, and only feature names are written |
| Encoder.FirstPositionsSpec | trace_merge.cc:349-361 | the positions where a name is first seen are first occurrences, in increasing order, and include every first occurrence |
| Encoder.InternOrder | trace_merge.cc:349-361 | the name table lists the names in first-seen order: name `i` is the name of the `i`-th feature, by position, that is the first with its name, and every such feature has a place |
| Encoder.InternFirstSeenOrder | trace_merge.cc:349-361 | of two names in the table, the earlier one's first feature comes before the later one's |
| Encoder.InternSorted | trace_merge.cc:344-354 | the type set iterates in strictly increasing order |
| Encoder.InternFirstTypes | trace_merge.cc:352-354 | the type set holds the type of the first feature with each name |
| Encoder.InternOnlyTypes | trace_merge.cc:352-354 | the type set holds nothing but the types of first features |
| Encoder.InternSize | trace_merge.cc:349-361 | there are no more types than names and no more names than features |
| Encoder.InternHas | trace_merge.cc:352-353 | every feature's name is in the name table |
| Encoder.Insert | trace_merge.cc:353 | `unordered_map::insert` adds the key, keeps the value of every key already present, and gives a new key the given value |
| Encoder.OffsetsKeys | trace_merge.cc:369 | exactly the written strings have offsets |
| Encoder.OffsetsAt | trace_merge.cc:368-373 | each string's offset is the table start plus the size of the entries before it |
| Encoder.MissingTypeOffset | trace_merge.cc:417 | a type missing from the type set has offset 0 |
| Encoder.TriplesOfEach | trace_merge.cc:410-435 | each triple is made from the feature at the same position: its name offset, type offset and converted value |
| Encoder.TriplesOfFails | trace_merge.cc:420-432 | a sample's triples fail exactly when some feature's value cannot be converted |
| Encoder.RecordsOfEach | trace_merge.cc:387-455 | one record per sample, in sample order |
| Encoder.RecordFeatures | trace_merge.cc:437-446 | a record's feature count is its sample's list length, below 2^32, with one triple per feature in list order |
| Encoder.AllFeaturesAt | trace_merge.cc:349-350 | feature `j` of sample `i` sits in the whole feature list after the features of the samples before it |
| Encoder.TripleOfFeature | trace_merge.cc:410-435 | the triple of sample `i`'s feature `j` is made from that feature |
| Encoder.LayoutTables | trace_merge.cc:341-373 | the layout's tables are those of the interned features |
| Encoder.NameOffsetPoints | trace_merge.cc:416-418 | the name offset of every feature in a record points at that name's entry in the name table |
| Encoder.TypeOffsetPoints | trace_merge.cc:417-419 | the type offset of a feature points at its type's entry when the type set holds that type, and is 0 when it does not |
| Encoder.OffsetsFit | trace_merge.cc:342-343 | both offset tables stay below 2^64 for fewer than 2^32 features |
| Encoder.RecordFitsOf | trace_merge.cc:393-433 | with offsets below 2^64, every field of a record fits its width |
| Encoder.LayoutFits | trace_merge.cc:336-455 | the layout of an input that fits has every number and string within its field |
| Encoder.EncodeDecode | trace_merge.cc:336-455 | decoding the encoded trace of an input that fits gives back its layout |
| Encoder.EncodeAllEach | trace_merge.cc:320-462 | on success there is one trace per function, each that function's own |
| Encoder.EncodeAllFails | trace_merge.cc:320-462 | encoding fails exactly when some function fails, with the error of the first failing one; all before it succeed |
| EncoderRun.Overwrite | trace_merge.cc:377-378 | writing at a position keeps the length, or grows it where the bytes run past the end |
| EncoderRun.OverwriteEnd | trace_merge.cc:338 | writing at the end appends |
| EncoderRun.OverwritePatch | trace_merge.cc:377-378 | writing over a placeholder of the same size replaces just the placeholder |
| EncoderRun.OutFile.constructor | trace_merge.cc:330 | a file opened for writing starts empty, with the put position at 0 |
| EncoderRun.OutFile.Write | trace_merge.cc:338 | the bytes are written at the put position, which moves past them |
| EncoderRun.OutFile.Seekp | trace_merge.cc:377 | the put position moves and the bytes stay |
| EncoderRun.Patch | trace_merge.cc:376-379 | going back to a placeholder, writing over it and returning to the end replaces only the placeholder |
| EncoderRun.WriteEntry | trace_merge.cc:355-357 | a 2-byte length and the characters are appended |
| EncoderRun.InternOne | trace_merge.cc:351-359 | one feature of the name loop keeps the name table's invariant and advances the interning by that feature |
| EncoderRun.CountStep | trace_merge.cc:358 | the 32-bit name counter stays the count modulo 2^32 |
| EncoderRun.InternList | trace_merge.cc:350-360 | the loop over one sample's features advances the interning by its whole list |
| EncoderRun.WriteNames | trace_merge.cc:349-361 | the name loop writes the interned names of all features, with their offsets and count |
| EncoderRun.WriteTypes | trace_merge.cc:366-373 | the type loop writes the type table, and each type's offset is its position |
| EncoderRun.TriplesFailPrefix | trace_merge.cc:420-432 | the first failing feature's error is the sample's error |
| EncoderRun.RecordsFailPrefix | trace_merge.cc:387-455 | the first failing sample's error is the function's error |
| EncoderRun.WriteFigures | trace_merge.cc:388-399 | the uid and the six figures are appended, the sums taken modulo 2^64 |
| EncoderRun.WriteTriples | trace_merge.cc:410-435 | on success the triples of the features are appended and the counter is the list length modulo 2^32; otherwise the error is the triples' error |
| EncoderRun.WriteRecord | trace_merge.cc:388-454 | on success the record's bytes are appended; otherwise the error is the record's error |
| EncoderRun.WriteRecords | trace_merge.cc:387-455 | on success the records' bytes are appended in sample order; otherwise the first error is returned |
| EncoderRun.WriteHeader | trace_merge.cc:337-339 | the name's length and characters are appended |
| EncoderRun.WriteTables | trace_merge.cc:336-379 | the file holds the header, the patched name count, the name table and the type table, and the offsets are those of the written entries |
| EncoderRun.EncodeFunction | trace_merge.cc:336-461 | one function's file holds exactly the specified bytes, or the error that stops the encoder |
| EncoderRun.EncodeAllFailPrefix | trace_merge.cc:320-462 | a failing function stops the whole encoder with its error |
| EncoderRun.EncodePerfTrace | trace_merge.cc:319-463 | one file per function in the given order, each the function's trace; the first error stops the run |
| Pipeline.ListingOf | trace_merge.cc:387 | a function record as the encoder reads it: its name, and the samples of its `sample_list` in the given order |
| Pipeline.ListingsOf | trace_merge.cc:320 | the records of `func_list` in the given order of its keys |
| Pipeline.CardOfNoRepeats | trace_merge.cc:320 | an iteration order that lists each key once is as long as the map |
| Pipeline.ListingsEnumerate | trace_merge.cc:320-387 | a valid order yields one listing per function record, named after it, holding every sample of its `sample_list` once |
| Pipeline.OneTracePerFunction | trace_merge.cc:313-463 | on success there is one file per function record of `func_list`, and each record's file is its own trace |
| Pipeline.GenerateAndEncode | trace_merge.cc:295-313 | the correlator's failure is the result; otherwise the files are the encoder's output for the correlator's own `func_list`, or its first error |
| Merger.RpcIdDefined | trace_merge.cc:494-495 | the id of an `RPC_end` line is always defined: `substr` never throws there |
| Merger.RpcIdAfter | trace_merge.cc:495 | with `RPC_end ` at `p`, the id is the rest of the line after it |
| Merger.SegmentOf | trace_merge.cc:494-503 | a caller line is kept, and the responder lines before it are the log from the cursor up to the new cursor |
| Merger.Tag | trace_merge.cc:498 | each responder line is written with " [server]" appended |
| Merger.MergeKeepsClient | trace_merge.cc:491-504 | every caller line appears verbatim, once, in its order |
| Merger.MergeAdvances | trace_merge.cc:496-501 | responder lines are emitted in order from the cursor, none skipped or repeated |
| Merger.MergeServesPrefix | trace_merge.cc:491-504 | the responder lines emitted are a prefix of the responder log |
| Merger.SegmentOfRule | trace_merge.cc:494-502 | the responder lines before an `RPC_end` line run through the first one holding its ` <id> FUNC_END`, and no other caller line has responder lines before it |
| Merger.MergeSegments | trace_merge.cc:491-504 | every segment of a merge follows that rule |
| Merger.SegmentOfFailure | trace_merge.cc:497-500 | a segment fails only on an `RPC_end` line whose `FUNC_END` is missing from the rest of the responder log |
| Merger.MergeFailure | trace_merge.cc:491-504 | the merge fails only at an `RPC_end` caller line whose responder lines run out |
| Merger.Plain | trace_merge.cc:503 | the caller lines copied with no responder lines |
| Merger.MergeWithoutRpc | trace_merge.cc:491-504 | without `RPC_end` lines every caller line gets no responder lines |
| Merger.MergeCopiesPlainLog | trace_merge.cc:491-504 | a caller log without RPCs is copied unchanged |
| Merger.ServeRpc | trace_merge.cc:496-501 | the responder lines from the cursor through the first holding the key are written tagged; `found` says whether there is one |
| Merger.MergeLine | trace_merge.cc:492-503 | one caller line appends its segment's tagged responder lines and then itself, or fails as the segment does |
| Merger.SimpleMerge | trace_merge.cc:465-511 | the merged log equals the specification merge of the two logs |

## Left out

- File handling: opening, reading and closing the logs, `getline`,
  `mkdir`, and the time-stamped output path (trace_merge.cc:320-334). A
  log is a sequence of lines and an output file is a byte sequence. The
  only open failure modelled is the logger's, through its `canOpen`
  parameter; the merger's open failures are not modelled.
- Clocks: the logger's timestamp is a parameter. The `HUMAN_READABLE`
  text timestamp (custom_instr.cc:39-42) is a debugging switch, off by
  default.
- `cout` and `cerr` messages: the report text and trace log of
  trace_merge.cc:302-311, the success messages, and the realloc warning
  (counted instead, in `MemStats.reallocs`).
- The order in which `unordered_map` iterates `func_list` and each
  `sample_list` is unspecified. The encoder takes it as an input
  sequence (`Listing`, and the samples in the given order), and
  `Pipeline.GenerateAndEncode` takes it as the function names `keys`
  and the run numbers `uids`, any order that lists each key once.
- EncoderRun.EncodePerfTrace: on a fatal error it returns only the
  error. The files already written, and the partial file of the failing
  function, are not returned.
- The commented-out sample-count patch (trace_merge.cc:457-460). The
  model writes the sample count as computed, which is what the code does.
- Floating point: `float` and `double` values are decimal texts converted
  toward zero (`stod`/`stof` followed by the `int64_t` conversion).
  Exponents, hexadecimal floats, infinities and NaN are read as
  decimal-only text. Printed floating-point features are limited to whole
  values of at most six digits, which `operator<<` writes digit for
  digit.
  Rounding to `float` or `double` precision before the cut toward zero
  is not modelled either: `stof("0.99999999")` is `1.0f`, so the source
  encodes 1 where the model encodes 0, and `stof("16777217")` is
  16777216.
- The sample struct and `make_sample(uid)`, and the one-argument
  `make_custom_func` and three-argument `make_feature` that
  trace_merge.cc calls, are declared in neither trace_merge.h nor custom_instr.h.
  The sample's fields follow their uses in trace_merge.cc. The
  correlator's figures are unbounded integers; the encoder applies the
  `uint32_t`/`uint64_t` wrap-around where it writes them.
- Undefined behaviour becomes an error value: reading a missing token,
  dereferencing a missing function record or sample, a missing RPC id
  (trace_merge.cc:76-85), and a scan past the end of the responder log.
- `regex_replace` in general: only the two fixed patterns of
  trace_merge.cc:197-206 are modelled, as `UidText` and `FuncName`.
- Merger.SimpleMerge: when the responder log runs out before the
  awaited `FUNC_END`, the source never leaves its inner loop. If the
  responder log ends in a newline, the next `getline` clears `line` and
  it writes empty lines forever. Otherwise `getline` fails without
  clearing `line`, and it writes the last responder line forever, or the
  caller line itself when the responder log was already used up. The
  model returns `ResponderExhausted` in all these cases. The one
  exception is a caller line that itself holds ` <id> FUNC_END` when the
  responder log was already used up without a final newline. There the
  source writes the caller line once, tagged, and goes on, while the
  model still returns `ResponderExhausted`.
- Logger.LogLineTokens, Logger.StartLineTokens, Logger.MallocLineTokens,
  Logger.FreeLineTokens and Logger.EndLineTokens: a file is a sequence of
  lines, and each `write_log` call adds one element. A `'\n'` inside a
  function or feature name would split that entry into two lines of the
  real file. The model keeps it as one line, and these lemmas speak of
  that one element.
- Merger.RpcIdAfter: stated only for lines shorter than 2^64 - 1
  characters, where `npos` cannot be a real position.
- Logger.Logger.StartInstrum: the feature list holds typed values
  (`Feature.Value`). The `basic_feature` virtual dispatch is represented
  by that tagged union.
- The unfinished TODO items of custom_instr.cc (a nanosecond timer), and
  the instrumented example programs jung_client.cc and jung_server.cc,
  are not part of this model.
