# dump.f2fs driver: options, program name and dump dispatch

This project models the command-line front end of `dump.f2fs`, the F2FS metadata
dump tool (`src/main.c`), and proves properties of that model. It covers five parts:

- `is_digits`, the validator behind `-d`. It is a loop over the string (`Digits`).
- The loop that rewrites `_` to `.` in the program's base name, in place in the
  name buffer (`ProgName`).
- The `dump_opt` option record with its static defaults, and the `switch` over the
  options `getopt` returns (`DumpOptions`).
  - Each arm updates the record or the global configuration `c` in place.
  - After each option, `ASSERT(ret >= 0)` checks `sscanf`'s result.
  - The loop stops at the first error.
- The option loop together with the default options and the operand check, i.e. the
  `dump.f2fs` branch of `f2fs_parse_options` (`Parse`).
  - The model has both the evidently intended "report and exit" behaviour and the
    code as written (see Findings).
- `do_dump` (`DoDump`).
  - It replaces the node id by the root inode for `-r`.
  - It replaces each `-1` range end by the table's bound.
  - It then makes the gated dump calls in source order, and always prints the
    checkpoint state last.

In every part, the state-changing code is a Dafny method over a class or array,
proved equal to a specification function:

| code | class / buffer | specification function |
|---|---|---|
| option record | `DumpOption` | `Record()` |
| global configuration | `Config` | `Values()` |
| program name | `array<char>` | `Dotted` |
| one pass through the `switch` | `DumpOption`, `Config` | `Step` |
| option loop | — | `RunOptions` |
| whole parser | — | `Parse` |
| whole parser, as written | — | `ParseAsWritten` |
| `do_dump`'s rewrites of the record | `DumpOption` | `Resolve` |
| dump calls | — | `Dispatch` |

The lemmas then prove the properties of those functions. `Dispatch` has the shape of
the source's `if`s. `DoDump.DispatchIsKeep` ties it to an independent reference
definition: the seven possible calls of `do_dump`, filtered by their gates. The
lemmas on order and membership are written against that reference.

## Model

| member | source | states |
|---|---|---|
| Digits.FirstNonDigit | src/main.c:72-74 | the index where the loop breaks: every character before it is a digit, and it is the first non-digit or the length |
| Digits.AllDigitsIffNoStop | src/main.c:72-75 | the loop runs to the end of the string if and only if every character is a decimal digit |
| Digits.IsDigits | src/main.c:68-76 | `is_digits` returns true exactly when every character is a decimal digit, including for the empty string |
| ProgName.Dotted | src/main.c:109-112 | the normalised name has the same length as the input |
| ProgName.DottedAt | src/main.c:109-112 | each position of the normalised name is the input's character, with `_` replaced by `.` |
| ProgName.NoUnderscoreLeft | src/main.c:109-112 | no `_` is left after normalisation |
| ProgName.DottedIdempotent | src/main.c:109-112 | normalising twice gives the same result as normalising once |
| ProgName.DottedFixesPlainNames | src/main.c:109-112 | a name without `_` is left unchanged |
| ProgName.NormalizeProgName | src/main.c:109-112 | the in-place loop leaves the buffer holding the normalised name of its old contents |
| Parse.DumpProgIsDotted | src/main.c:109-119 | `dump.f2fs` survives the rewrite unchanged, so it still matches the `strcmp` |
| Parse.UnderscoreNameIsDump | src/main.c:108-119 | the name `dump_f2fs` normalises to `dump.f2fs` and selects the dump tool |
| DumpOptions.DumpOption.constructor | src/main.c:121-133 | a fresh record holds the static initialiser: node id 0, every range start and end -1, block address -1, scan node id 0, no root override, no output path |
| DumpOptions.DebugLevelOption | src/main.c:139-147 | `-d` with a non-digit argument is a wrong option and changes nothing; otherwise the debug level becomes `atoi` of the argument and nothing else changes |
| DumpOptions.NumericOption | src/main.c:148-192 | `-i`, `-I` and `-b` read hexadecimal exactly after a `0x` prefix; only that option's field changes, and only when a value was converted; `ret` is `sscanf`'s count; the configuration is untouched |
| DumpOptions.RangeOption | src/main.c:164-184 | `-n`, `-s` and `-a` set the start when at least one value was converted and the end only when both were; no other field changes; `ret` is `sscanf`'s count |
| DumpOptions.UnknownLetter | src/main.c:212-214 | a letter the `switch` does not handle is an unknown option and changes nothing |
| DumpOptions.KnownLettersNeverFail | src/main.c:138-215 | among handled letters other than `d`, none sets `err`, and `V` is the only one that stops the program |
| DumpOptions.RunOptionsAppend | src/main.c:135-219 | a prefix of the options that ends without error leaves the loop where the remaining options take it; otherwise the later options are never examined |
| DumpOptions.StopsAtFirstError | src/main.c:216-218 | once an error or a failed `ASSERT` has happened, later options change nothing |
| DumpOptions.LoopErrorIsAKnownKind | src/main.c:135-219 | the option loop only ever leaves `err` as no error, wrong option or unknown option |
| DumpOptions.StrNCmpIsPrefixTest | src/main.c:149-154 | `strncmp` with C semantics (at most `n` characters, stopping where both strings end) against a literal without NUL is zero exactly when the string starts with that literal |
| DumpOptions.HexPrefixTest | src/main.c:149-154 | `strncmp(arg, "0x", 2)` is zero exactly when the argument starts with `0x`, including arguments shorter than two characters |
| DumpOptions.ReadNumber | src/main.c:149-154 | branching on `strncmp(arg, "0x", 2)`, the conversion is `%x` exactly when the argument starts with `0x` and `%d` otherwise, and `ret` is its count |
| DumpOptions.ApplyDumpOption | src/main.c:148-202 | the arms that write `dump_opt`, in place, give the new state `Step` gives, with no error |
| DumpOptions.SetDebugLevel | src/main.c:139-147 | the `-d` arm, in place, gives the new state and error `Step` gives |
| DumpOptions.SetFlag | src/main.c:169-208 | the flag arms `-M -S -y -f -P -L`, in place, give the new state `Step` gives |
| DumpOptions.ApplyOption | src/main.c:138-215 | one pass through the `switch`, in place, gives `Step`'s result: stop for `-V`, otherwise the new record and configuration, `ret` and `err` |
| DumpOptions.OptionLoop | src/main.c:135-219 | the in-place loop ends as `RunOptions` says, and an ended loop leaves the record and configuration in `RunOptions`' final state |
| Parse.AcceptedIff | src/main.c:119-237 | parsing returns normally if and only if the name is `dump.f2fs`, the loop ends without error, and exactly one operand is left; the device is that operand, and the state is the loop's with the default options and the device applied |
| Parse.OperandCount | src/main.c:223-235 | after an error-free loop, no operand means a missing device, and more than one means an unknown argument with the debug level reset to 0 and the first operand recorded |
| Parse.OptionErrorRejects | src/main.c:217-256 | an option error is reported with the state the loop left, whatever the operands are |
| Parse.ParseReturnsOnlyWhenAccepted | src/main.c:226-256 | the intended parser never returns to `main` after reporting an error and never duplicates a NULL argument |
| Parse.AsWrittenDiffersOnErrors | src/main.c:114-256 | the code as written agrees with the intended parser except on error paths: where the intended parser reports and exits, the code as written returns with the same state; where the device is missing, it goes on to duplicate `argv[argc]` |
| Parse.AsWrittenExtraOperandStillReturns | src/main.c:223-256 | as written, `dump.f2fs img extra` is reported as an unknown argument and still returns with `img` as the device |
| Parse.AsWrittenNoArgumentDupsNull | src/main.c:114-231 | as written, `dump.f2fs` with no argument reaches `strdup` of the terminating NULL |
| Parse.CheckOperands | src/main.c:223-237 | the operand check, in place, gives `Operands`' outcome, and an accepted command line leaves the configuration in the accepted state |
| Parse.ParseDumpOptions | src/main.c:114-237 | the dump branch, in place, gives `ParseDump`'s outcome; when it is accepted, `c.private` is the new record and holds the accepted options |
| Parse.ParseCommandLine | src/main.c:101-257 | the whole parser, on the name buffer and configuration in place: the buffer is normalised, the outcome is `Parse`'s, and an accepted command line leaves `c.private` and `c` in the accepted state |
| DoDump.ResolveEnds | src/main.c:268-273 | an end of -1 becomes `max_nid` for the NAT and `main_segments` for the SIT and SSA; other ends, the starts, the block address, the scan node id and the path are unchanged |
| DoDump.ResolveIdempotent | src/main.c:265-273 | resolving a second time changes nothing |
| DoDump.ResolveInPlace | src/main.c:265-273 | the in-place rewrites leave the record resolved |
| DoDump.DispatchIsKeep | src/main.c:274-287 | the calls made are exactly the seven possible calls, in source order, filtered by their gates |
| DoDump.DispatchOrdered | src/main.c:274-287 | the calls come in strictly increasing source position, so none is made twice |
| DoDump.DispatchEndsWithCheckpoint | src/main.c:287 | the checkpoint state is always printed, and printed last |
| DoDump.DispatchMembers | src/main.c:274-287 | each gated dump is made with the record's values exactly when its test holds, the checkpoint state always is, and nothing else is called |
| DoDump.RootOverride | src/main.c:265-283 | with `-r`, the node dumped is the root inode whatever `-i` said, dumped exactly when that number is nonzero; without `-r`, exactly when the `-i` value is nonzero |
| DoDump.ScanDiskGate | src/main.c:284-285 | the full-disk scan runs exactly when the scan node id is nonzero, with that node id |
| DoDump.SentinelRangesReachBound | src/main.c:268-279 | a table dump with start given and end -1 is made with the table's bound as its end |
| DoDump.DefaultsOnlyPrintCheckpoint | src/main.c:265-287 | with the initialiser's values, the only call is the checkpoint-state print |
| DoDump.MakeCalls | src/main.c:274-287 | the sequence of `if`s makes exactly the calls of `Dispatch` |
| DoDump.RunDump | src/main.c:259-289 | `do_dump` on the record in place: the record is resolved, then `Dispatch` of the resolved record is made |

## Left out

- `getopt` is not modelled.
  - Its output is given as the options in order, then the operands.
  - `optind` is the start of the operands.
  - The `argc < 2` check is taken as "no options and no operands". That also
    covers a command line such as `dump.f2fs --`, with `argc` 2. The model then
    reports the missing device from the first check rather than the second. The
    outcome is the same: `MissingDevice` in the intended parser, `NullDeviceDup`
    in the code as written.
  - A missing option argument arrives as a letter the `switch` does not handle,
    just as `getopt`'s `'?'` does.
- The C library routines are parameters of the model, so their results are arbitrary
  total functions:
  - `sscanf` with `%d`, `%x` and `%d~%d`;
  - `atoi`;
  - `absolute_path`, which needs `getcwd` and `malloc`.
  The choice between `%x` and `%d` is modelled.
  - Not modelled: `absolute_path` returning NULL when `malloc` fails, and `getcwd`
    failure exiting.
- `ASSERT` is defined in a header that is not part of this model. A negative
  `sscanf` result is modelled as stopping the program.
- `basename` is not modelled. The program name given to the model is already the
  base name of `argv[0]`.
- `c.func = DUMP` is not modelled: the outcome `Accepted` stands for the dump tool
  being selected.
- `dump_opt` is `static`, so one record lasts for the whole process. The model
  allocates a fresh record, holding the initialiser's values, each time
  `f2fs_parse_options` runs. The two differ only if the parser runs more than once.
- `isdigit` is taken in the C locale: the ten ASCII digits.
- Messages are not modelled: `MSG`, the error texts and the usage text.
  `show_version` is only the `ShowVersion` outcome.
- `check_block_struct_sizes` is not modelled. It is a size check on structures
  defined elsewhere.
- Other tools' names are not modelled. After the name check, any name other than
  `dump.f2fs` is the outcome `NotDump`.
  - That includes `inject.f2fs` and its usage.
  - It also includes the `argc < 2` handling for those names.
- `add_default_options` reads `c.defset`. The model takes it as the Boolean
  `android`, true for `CONF_ANDROID`.
- `ENEED_ARG` is never set by this code, so the error type has no such value.
- Integer widths are left out:
  - `dump_opt`'s fields are `int`, `nid_t` and `u32`, declared in headers that are
    not part of this model, and the model uses unbounded integers;
  - the conversions that store into them are `sscanf`'s and are abstract anyway;
  - the checkpoint flag is taken as given (`le32_to_cpu` is not modelled).
- The dump routines are opaque. Each call is a value that records its arguments:
  - `nat_dump`, `sit_dump` and `ssa_dump`;
  - `dump_info_from_blkaddr`;
  - `dump_node`, whose constant arguments `1, 1, NULL` are not recorded;
  - `dump_node_scan_disk`;
  - `print_cp_state`.
  The filesystem values `do_dump` reads are inputs: `root_ino_num`, `max_nid` and
  `main_segments`.
- The rest of `main` is not modelled: device checks, mount and unmount, the
  repair prompt and timing (they are I/O). Its `DUMP` case is modelled as calling
  `do_dump` (`RunDump`).
- `DumpOptions.ApplyOption` delegates to `ApplyDumpOption`, `SetDebugLevel` and
  `SetFlag`. These split the one `switch` by the state each arm writes; the
  outcomes match the `switch`'s arm by arm.

## Findings

| source | as written | input that shows it | evidently intended | confidence | as-written member | corrected member |
|---|---|---|---|---|---|---|
| src/main.c:78-84, src/main.c:226-237, src/main.c:256 | `error_out` exits only for `inject.f2fs`; for `dump.f2fs` it prints "Wrong program." and returns, so `f2fs_parse_options` returns to `main` after reporting an unknown argument, with the first operand already recorded as the device | `dump.f2fs img extra` | print the dump usage and exit with status 1 (`dump_usage`, src/main.c:43-66, is defined but never called) | not executed | Parse.AsWrittenExtraOperandStillReturns | Parse.OperandCount, Parse.AcceptedIff, Parse.ParseReturnsOnlyWhenAccepted |
| src/main.c:114-117, src/main.c:226-231 | with no argument, both "Device not specified" checks call `error_out`, which returns, and `strdup(argv[optind])` runs with `optind == argc`, i.e. on the NULL that ends `argv` | `dump.f2fs` | stop with the usage after "Device not specified" | not executed | Parse.AsWrittenNoArgumentDupsNull | Parse.OperandCount, Parse.AcceptedIff, Parse.ParseReturnsOnlyWhenAccepted |
