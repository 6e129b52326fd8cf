/**
 * The dump driver's option record, the global settings the option loop
 * touches, and the `switch` over the options that `getopt` hands back
 * (the `dump.f2fs` branch of `f2fs_parse_options` in src/main.c).
 *
 * `getopt` itself is not modelled: its output is given as a sequence of
 * (letter, argument) pairs, `'?'` or any letter outside the option string
 * standing for what the `default:` branch receives. The C library's
 * `sscanf`, `atoi` and the path helper `absolute_path` are parameters
 * (`Env`); only the choice between hexadecimal and decimal is concrete.
 */
module DumpOptions {
  import opened Wrappers
  import opened Digits

  /** The fields of `struct dump_option` that the driver sets and reads. */
  datatype DumpOpts = DumpOpts(
    nid: int,
    startNat: int, endNat: int,
    startSit: int, endSit: int,
    startSsa: int, endSsa: int,
    blkAddr: int,
    scanNid: int,
    useRootNid: bool,
    basePath: Option<string>)

  /** The static initialiser of `dump_opt`: root inode 0, every range and the block address at -1. */
  const Defaults := DumpOpts(0, -1, -1, -1, -1, -1, -1, -1, 0, false, None)

  /** The fields of the global configuration `c` that option parsing writes. */
  datatype Settings = Settings(
    dbgLv: int,
    showFileMap: bool,
    sparseMode: bool,
    force: bool,
    preservePerms: bool,
    preserveSymlinks: bool,
    quotaFix: bool,
    autoFix: bool,
    device: Option<string>)

  datatype ParseState = ParseState(dump: DumpOpts, cfg: Settings)

  /** The `err` variable of `f2fs_parse_options`. */
  datatype ErrCode = NoError | WrongOpt | UnknownOpt | UnknownArg

  /** One option as `getopt` returns it: the letter and `optarg`. */
  datatype Opt = Opt(letter: char, arg: string)

  /** Outcome of `sscanf` with one conversion: EOF (-1), no match (0), or one value stored (1). */
  datatype Scan = ScanEof | ScanNone | ScanOk(v: int)

  /** Outcome of `sscanf(arg, "%d~%d", ...)`: EOF, nothing, only the start, or both values. */
  datatype RangeScan = RangeEof | RangeNone | RangeStart(start: int) | RangeBoth(start: int, end: int)

  /** The library routines the option loop calls, whose behaviour is not modelled. */
  datatype Env = Env(
    atoi: string -> int,
    scanDec: string -> Scan,
    scanHex: string -> Scan,
    scanRange: string -> RangeScan,
    absolutePath: string -> string)

  /** What handling one option leads to: `show_version` and exit for `-V`, otherwise a new state with `ret` and `err`. */
  datatype StepResult = Quit | Applied(st: ParseState, ret: int, err: ErrCode)

  /** Where the option loop ends. */
  datatype LoopResult =
    | Version                         // `-V`: version printed, exit(0)
    | AssertFailed                    // `ASSERT(ret >= 0)` failed: `sscanf` returned EOF
    | Done(st: ParseState, err: ErrCode)

  /** The argument starts with the two characters `0x`. */
  predicate HexPrefixed(arg: string) {
    |arg| >= 2 && arg[0] == '0' && arg[1] == 'x'
  }

  /** The character `strncmp` reads at index `i` of a C string: the terminating NUL past the end. */
  function CharAt(s: string, i: nat): char {
    if i < |s| then s[i] else '\0'
  }

  /**
   * `strncmp(s, t, n)` from index `i` on: compare at most `n` characters,
   * stopping at the first difference (the result is the difference of the
   * two characters) or where both strings end (the result is 0).
   */
  function StrNCmpFrom(s: string, t: string, i: nat, n: nat): int
    decreases n - i
  {
    if i >= n then 0
    else if CharAt(s, i) != CharAt(t, i) then CharAt(s, i) as int - CharAt(t, i) as int
    else if CharAt(s, i) == '\0' then 0
    else StrNCmpFrom(s, t, i + 1, n)
  }

  function StrNCmp(s: string, t: string, n: nat): int {
    StrNCmpFrom(s, t, 0, n)
  }

  lemma {:induction false} StrNCmpFromLiteral(s: string, t: string, i: nat, n: nat)
    requires i <= n <= |t| && i <= |s|
    requires forall j :: i <= j < n ==> t[j] != '\0'
    ensures StrNCmpFrom(s, t, i, n) == 0 <==> n <= |s| && s[i..n] == t[i..n]
    decreases n - i
  {
    if i < n {
      assert t[i] != '\0';
      if CharAt(s, i) == CharAt(t, i) {
        assert i < |s| && s[i] == t[i];
        StrNCmpFromLiteral(s, t, i + 1, n);
        if n <= |s| {
          assert s[i..n] == [s[i]] + s[i + 1..n];
          assert t[i..n] == [t[i]] + t[i + 1..n];
        }
      } else if n <= |s| {
        assert s[i..n][0] != t[i..n][0];
      }
    }
  }

  /**
   * Against a string of at least `n` characters and no NUL among them,
   * `strncmp` is zero exactly when `s` starts with those `n` characters.
   */
  lemma StrNCmpIsPrefixTest(s: string, t: string, n: nat)
    requires n <= |t|
    requires forall j :: 0 <= j < n ==> t[j] != '\0'
    ensures StrNCmp(s, t, n) == 0 <==> n <= |s| && s[..n] == t[..n]
  {
    StrNCmpFromLiteral(s, t, 0, n);
  }

  /** `strncmp(arg, "0x", 2) == 0` is the test `HexPrefixed` states. */
  lemma HexPrefixTest(arg: string)
    ensures StrNCmp(arg, "0x", 2) == 0 <==> HexPrefixed(arg)
  {
    StrNCmpIsPrefixTest(arg, "0x", 2);
    if |arg| >= 2 && arg[0] == '0' && arg[1] == 'x' {
      assert arg[..2] == "0x";
    }
  }

  /** The `sscanf` return value for one conversion. */
  function ScanRet(s: Scan): int {
    match s
    case ScanEof => -1
    case ScanNone => 0
    case ScanOk(_) => 1
  }

  /** The value of the target after `sscanf`: changed only when a value was converted. */
  function ScanStore(s: Scan, current: int): int {
    if s.ScanOk? then s.v else current
  }

  /** The conversion `-i`, `-I` and `-b` use: `%x` after a `0x` prefix, `%d` otherwise. */
  function ScanNumber(arg: string, env: Env): Scan {
    if HexPrefixed(arg) then env.scanHex(arg) else env.scanDec(arg)
  }

  function RangeRet(s: RangeScan): int {
    match s
    case RangeEof => -1
    case RangeNone => 0
    case RangeStart(_) => 1
    case RangeBoth(_, _) => 2
  }

  function RangeStoreStart(s: RangeScan, current: int): int {
    if s.RangeStart? || s.RangeBoth? then s.start else current
  }

  function RangeStoreEnd(s: RangeScan, current: int): int {
    if s.RangeBoth? then s.end else current
  }

  /** The body of the `switch (option)` for one option. */
  function Step(st: ParseState, o: Opt, env: Env): StepResult {
    var d, c := st.dump, st.cfg;
    match o.letter
    case 'd' =>
      if !AllDigits(o.arg) then Applied(st, 0, WrongOpt)
      else Applied(st.(cfg := c.(dbgLv := env.atoi(o.arg))), 0, NoError)
    case 'i' =>
      var s := ScanNumber(o.arg, env);
      Applied(st.(dump := d.(nid := ScanStore(s, d.nid))), ScanRet(s), NoError)
    case 'I' =>
      var s := ScanNumber(o.arg, env);
      Applied(st.(dump := d.(scanNid := ScanStore(s, d.scanNid))), ScanRet(s), NoError)
    case 'n' =>
      var s := env.scanRange(o.arg);
      Applied(st.(dump := d.(startNat := RangeStoreStart(s, d.startNat), endNat := RangeStoreEnd(s, d.endNat))), RangeRet(s), NoError)
    case 'M' =>
      Applied(st.(cfg := c.(showFileMap := true)), 0, NoError)
    case 's' =>
      var s := env.scanRange(o.arg);
      Applied(st.(dump := d.(startSit := RangeStoreStart(s, d.startSit), endSit := RangeStoreEnd(s, d.endSit))), RangeRet(s), NoError)
    case 'S' =>
      Applied(st.(cfg := c.(sparseMode := true)), 0, NoError)
    case 'a' =>
      var s := env.scanRange(o.arg);
      Applied(st.(dump := d.(startSsa := RangeStoreStart(s, d.startSsa), endSsa := RangeStoreEnd(s, d.endSsa))), RangeRet(s), NoError)
    case 'b' =>
      var s := ScanNumber(o.arg, env);
      Applied(st.(dump := d.(blkAddr := ScanStore(s, d.blkAddr))), ScanRet(s), NoError)
    case 'y' | 'f' =>
      Applied(st.(cfg := c.(force := true)), 0, NoError)
    case 'r' =>
      Applied(st.(dump := d.(useRootNid := true)), 0, NoError)
    case 'o' =>
      Applied(st.(dump := d.(basePath := Some(env.absolutePath(o.arg)))), 0, NoError)
    case 'P' =>
      Applied(st.(cfg := c.(preservePerms := true)), 0, NoError)
    case 'L' =>
      Applied(st.(cfg := c.(preserveSymlinks := true)), 0, NoError)
    case 'V' =>
      Quit
    case _ =>
      Applied(st, 0, UnknownOpt)
  }

  /** The letters the `switch` handles (those of the option string "d:fi:I:n:LMo:Prs:Sa:b:Vy"). */
  predicate Known(letter: char) {
    letter in "dfiInLMoPrsSabVy"
  }

  /**
   * The `while (getopt(...) != EOF)` loop: handle each option in turn, stop
   * the program when `ASSERT(ret >= 0)` fails, and leave the loop at the
   * first option that set `err`.
   */
  function RunOptions(st: ParseState, opts: seq<Opt>, env: Env): LoopResult
    decreases |opts|
  {
    if opts == [] then Done(st, NoError)
    else
      match Step(st, opts[0], env)
      case Quit => Version
      case Applied(st', ret, err) =>
        if ret < 0 then AssertFailed
        else if err != NoError then Done(st', err)
        else RunOptions(st', opts[1..], env)
  }

  /** Carry on with `rest` only if the loop so far ended without error. */
  function Then(r: LoopResult, rest: seq<Opt>, env: Env): LoopResult {
    if r.Done? && r.err == NoError then RunOptions(r.st, rest, env) else r
  }

  /**
   * Options after the one that stopped the loop are never looked at, and an
   * error-free prefix leaves the loop exactly where the rest of the options
   * take it.
   */
  lemma {:induction false} RunOptionsAppend(st: ParseState, opts: seq<Opt>, rest: seq<Opt>, env: Env)
    ensures RunOptions(st, opts + rest, env) == Then(RunOptions(st, opts, env), rest, env)
    decreases |opts|
  {
    if opts != [] {
      assert (opts + rest)[0] == opts[0];
      assert (opts + rest)[1..] == opts[1..] + rest;
      match Step(st, opts[0], env)
      case Quit =>
      case Applied(st', ret, err) =>
        if ret >= 0 && err == NoError {
          RunOptionsAppend(st', opts[1..], rest, env);
        }
    } else {
      assert opts + rest == rest;
    }
  }

  /** An error or a stop in the first options decides the loop whatever follows. */
  lemma StopsAtFirstError(st: ParseState, opts: seq<Opt>, rest: seq<Opt>, env: Env)
    requires !(RunOptions(st, opts, env).Done? && RunOptions(st, opts, env).err == NoError)
    ensures RunOptions(st, opts + rest, env) == RunOptions(st, opts, env)
  {
    RunOptionsAppend(st, opts, rest, env);
  }

  /** The option loop sets only wrong-option or unknown-option; unknown-argument comes from the operand check. */
  lemma {:induction false} LoopErrorIsAKnownKind(st: ParseState, opts: seq<Opt>, env: Env)
    ensures RunOptions(st, opts, env).Done? ==>
              RunOptions(st, opts, env).err in {NoError, WrongOpt, UnknownOpt}
    decreases |opts|
  {
    if opts != [] {
      match Step(st, opts[0], env)
      case Quit =>
      case Applied(st', ret, err) =>
        if ret >= 0 && err == NoError {
          LoopErrorIsAKnownKind(st', opts[1..], env);
        }
    }
  }

  /**
   * `-d`: a non-digit argument is a wrong option and changes nothing;
   * otherwise the debug level becomes `atoi` of the argument and nothing
   * else changes.
   */
  lemma DebugLevelOption(st: ParseState, arg: string, env: Env)
    ensures !AllDigits(arg) ==> Step(st, Opt('d', arg), env) == Applied(st, 0, WrongOpt)
    ensures AllDigits(arg) ==>
              Step(st, Opt('d', arg), env) == Applied(st.(cfg := st.cfg.(dbgLv := env.atoi(arg))), 0, NoError)
  {
  }

  /** A letter the `switch` does not handle is an unknown option and changes nothing. */
  lemma UnknownLetter(st: ParseState, o: Opt, env: Env)
    requires !Known(o.letter)
    ensures Step(st, o, env) == Applied(st, 0, UnknownOpt)
  {
  }

  /** Only `-d` and unknown letters can set `err`; `-V` is the only letter that quits. */
  lemma KnownLettersNeverFail(st: ParseState, o: Opt, env: Env)
    requires Known(o.letter) && o.letter != 'd'
    ensures o.letter == 'V' <==> Step(st, o, env).Quit?
    ensures Step(st, o, env).Applied? ==> Step(st, o, env).err == NoError
  {
  }

  /**
   * `-i`, `-I` and `-b`: the argument is read as hexadecimal exactly when it
   * starts with `0x`; only the option's own field changes, and only when a
   * value was converted; the settings are untouched.
   */
  lemma NumericOption(st: ParseState, o: Opt, env: Env)
    requires o.letter in "iIb"
    ensures Step(st, o, env).Applied?
    ensures var r := Step(st, o, env);
            var s := if HexPrefixed(o.arg) then env.scanHex(o.arg) else env.scanDec(o.arg);
            && r.err == NoError
            && r.ret == ScanRet(s)
            && r.st.cfg == st.cfg
            && r.st.dump == (match o.letter
                             case 'i' => st.dump.(nid := if s.ScanOk? then s.v else st.dump.nid)
                             case 'I' => st.dump.(scanNid := if s.ScanOk? then s.v else st.dump.scanNid)
                             case _ => st.dump.(blkAddr := if s.ScanOk? then s.v else st.dump.blkAddr))
  {
  }

  /** A range's new start and end after `sscanf(arg, "%d~%d", ...)` reported `s`. */
  predicate RangeUpdated(s: RangeScan, start0: int, end0: int, start: int, end: int) {
    match s
    case RangeEof | RangeNone => start == start0 && end == end0
    case RangeStart(a) => start == a && end == end0
    case RangeBoth(a, b) => start == a && end == b
  }

  /**
   * `-n`, `-s`, `-a`: `%d~%d` sets the start when at least one value was
   * converted and the end only when both were; nothing else changes.
   */
  lemma RangeOption(st: ParseState, o: Opt, env: Env)
    requires o.letter in "nsa"
    ensures Step(st, o, env).Applied?
    ensures var r := Step(st, o, env);
            var s := env.scanRange(o.arg);
            && r.err == NoError
            && r.ret == RangeRet(s)
            && r.st.cfg == st.cfg
            && (s.RangeNone? || s.RangeEof? ==> r.st == st)
            && (o.letter == 'n' ==> RangeUpdated(s, st.dump.startNat, st.dump.endNat, r.st.dump.startNat, r.st.dump.endNat))
            && (o.letter == 's' ==> RangeUpdated(s, st.dump.startSit, st.dump.endSit, r.st.dump.startSit, r.st.dump.endSit))
            && (o.letter == 'a' ==> RangeUpdated(s, st.dump.startSsa, st.dump.endSsa, r.st.dump.startSsa, r.st.dump.endSsa))
            && (o.letter == 'n' ==> r.st.dump.(startNat := st.dump.startNat, endNat := st.dump.endNat) == st.dump)
            && (o.letter == 's' ==> r.st.dump.(startSit := st.dump.startSit, endSit := st.dump.endSit) == st.dump)
            && (o.letter == 'a' ==> r.st.dump.(startSsa := st.dump.startSsa, endSsa := st.dump.endSsa) == st.dump)
  {
  }

  /** The mutable `dump_opt` record. */
  class DumpOption {
    var nid: int
    var startNat: int
    var endNat: int
    var startSit: int
    var endSit: int
    var startSsa: int
    var endSsa: int
    var blkAddr: int
    var scanNid: int
    var useRootNid: bool
    var basePath: Option<string>

    function Record(): DumpOpts
      reads this
    {
      DumpOpts(nid, startNat, endNat, startSit, endSit, startSsa, endSsa, blkAddr, scanNid, useRootNid, basePath)
    }

    /** The static initialiser. */
    constructor ()
      ensures Record() == Defaults
    {
      nid := 0;
      startNat, endNat := -1, -1;
      startSit, endSit := -1, -1;
      startSsa, endSsa := -1, -1;
      blkAddr := -1;
      scanNid := 0;
      useRootNid := false;
      basePath := None;
    }
  }

  /** The part of the global configuration `c` that option parsing touches. */
  class Config {
    var dbgLv: int
    var showFileMap: bool
    var sparseMode: bool
    var force: bool
    var preservePerms: bool
    var preserveSymlinks: bool
    var quotaFix: bool
    var autoFix: bool
    var device: Option<string>
    /** `c.private`: the option record of the selected tool. */
    var private: DumpOption?

    function Values(): Settings
      reads this
    {
      Settings(dbgLv, showFileMap, sparseMode, force, preservePerms, preserveSymlinks, quotaFix, autoFix, device)
    }

    constructor (init: Settings)
      ensures Values() == init && private == null
    {
      dbgLv := init.dbgLv;
      showFileMap := init.showFileMap;
      sparseMode := init.sparseMode;
      force := init.force;
      preservePerms := init.preservePerms;
      preserveSymlinks := init.preserveSymlinks;
      quotaFix := init.quotaFix;
      autoFix := init.autoFix;
      device := init.device;
      private := null;
    }
  }

  function Snapshot(opt: DumpOption, c: Config): ParseState
    reads opt, c
  {
    ParseState(opt.Record(), c.Values())
  }

  /** Convert a number argument for `-i`, `-I` or `-b`, as `sscanf` reports it. */
  method ReadNumber(arg: string, env: Env) returns (ret: int, s: Scan)
    ensures HexPrefixed(arg) ==> s == env.scanHex(arg)
    ensures !HexPrefixed(arg) ==> s == env.scanDec(arg)
    ensures ret == ScanRet(s)
  {
    HexPrefixTest(arg);
    if StrNCmp(arg, "0x", 2) != 0 {
      s := env.scanDec(arg);
    } else {
      s := env.scanHex(arg);
    }
    ret := ScanRet(s);
  }

  /** The arms of the `switch (option)` that fill in `dump_opt`. */
  method ApplyDumpOption(o: Opt, env: Env, opt: DumpOption, c: Config) returns (ret: int)
    requires o.letter in {'i', 'I', 'n', 's', 'a', 'b', 'r', 'o'}
    modifies opt
    ensures Step(old(Snapshot(opt, c)), o, env) == Applied(Snapshot(opt, c), ret, NoError)
  {
    ret := 0;
    match o.letter
    case 'i' =>
      var s;
      ret, s := ReadNumber(o.arg, env);
      if s.ScanOk? { opt.nid := s.v; }
    case 'I' =>
      var s;
      ret, s := ReadNumber(o.arg, env);
      if s.ScanOk? { opt.scanNid := s.v; }
    case 'n' =>
      var s := env.scanRange(o.arg);
      ret := RangeRet(s);
      if s.RangeStart? || s.RangeBoth? { opt.startNat := s.start; }
      if s.RangeBoth? { opt.endNat := s.end; }
    case 's' =>
      var s := env.scanRange(o.arg);
      ret := RangeRet(s);
      if s.RangeStart? || s.RangeBoth? { opt.startSit := s.start; }
      if s.RangeBoth? { opt.endSit := s.end; }
    case 'a' =>
      var s := env.scanRange(o.arg);
      ret := RangeRet(s);
      if s.RangeStart? || s.RangeBoth? { opt.startSsa := s.start; }
      if s.RangeBoth? { opt.endSsa := s.end; }
    case 'b' =>
      var s;
      ret, s := ReadNumber(o.arg, env);
      if s.ScanOk? { opt.blkAddr := s.v; }
    case 'r' =>
      opt.useRootNid := true;
    case 'o' =>
      opt.basePath := Some(env.absolutePath(o.arg));
  }

  /** The `-d` arm: a debug level made only of digits is converted with `atoi`, anything else is a wrong option. */
  method SetDebugLevel(o: Opt, env: Env, opt: DumpOption, c: Config) returns (err: ErrCode)
    requires o.letter == 'd'
    modifies c`dbgLv
    ensures Step(old(Snapshot(opt, c)), o, env) == Applied(Snapshot(opt, c), 0, err)
  {
    err := NoError;
    var ok := IsDigits(o.arg);
    if !ok {
      err := WrongOpt;
    } else {
      c.dbgLv := env.atoi(o.arg);
    }
  }

  /** The arms of the `switch (option)` that switch a flag of the global configuration on. */
  method SetFlag(o: Opt, env: Env, opt: DumpOption, c: Config)
    requires o.letter in {'M', 'S', 'y', 'f', 'P', 'L'}
    modifies c`showFileMap, c`sparseMode, c`force, c`preservePerms, c`preserveSymlinks
    ensures Step(old(Snapshot(opt, c)), o, env) == Applied(Snapshot(opt, c), 0, NoError)
  {
    match o.letter
    case 'M' =>
      c.showFileMap := true;
    case 'S' =>
      c.sparseMode := true;
    case 'y' | 'f' =>
      c.force := true;
    case 'P' =>
      c.preservePerms := true;
    case 'L' =>
      c.preserveSymlinks := true;
  }

  /**
   * One pass through the `switch (option)`, updating the record and the
   * settings in place: the arms for `dump_opt` are `ApplyDumpOption`, those
   * for the configuration `SetDebugLevel` and `SetFlag`.
   */
  method ApplyOption(o: Opt, env: Env, opt: DumpOption, c: Config) returns (ret: int, err: ErrCode, quit: bool)
    modifies opt, c`dbgLv, c`showFileMap, c`sparseMode, c`force, c`preservePerms, c`preserveSymlinks
    ensures Step(old(Snapshot(opt, c)), o, env) == if quit then Quit else Applied(Snapshot(opt, c), ret, err)
  {
    ret, err, quit := 0, NoError, false;
    if o.letter in {'i', 'I', 'n', 's', 'a', 'b', 'r', 'o'} {
      ret := ApplyDumpOption(o, env, opt, c);
    } else if o.letter == 'd' {
      err := SetDebugLevel(o, env, opt, c);
    } else if o.letter in {'M', 'S', 'y', 'f', 'P', 'L'} {
      SetFlag(o, env, opt, c);
    } else if o.letter == 'V' {
      quit := true;
    } else {
      err := UnknownOpt;
    }
  }

  /** The option loop, run on the record and the settings in place. */
  method OptionLoop(opts: seq<Opt>, env: Env, opt: DumpOption, c: Config) returns (res: LoopResult)
    modifies opt, c`dbgLv, c`showFileMap, c`sparseMode, c`force, c`preservePerms, c`preserveSymlinks
    ensures res == RunOptions(old(Snapshot(opt, c)), opts, env)
    ensures res.Done? ==> Snapshot(opt, c) == res.st
  {
    var k := 0;
    while k < |opts|
      invariant 0 <= k <= |opts|
      invariant RunOptions(old(Snapshot(opt, c)), opts, env) == RunOptions(Snapshot(opt, c), opts[k..], env)
    {
      assert opts[k..][0] == opts[k] && opts[k..][1..] == opts[k + 1..];
      var ret, err, quit := ApplyOption(opts[k], env, opt, c);
      if quit {
        return Version;
      }
      if ret < 0 {
        return AssertFailed;
      }
      if err != NoError {
        return Done(Snapshot(opt, c), err);
      }
      k := k + 1;
    }
    res := Done(Snapshot(opt, c), NoError);
  }
}
