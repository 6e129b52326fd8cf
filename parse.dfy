/**
 * `f2fs_parse_options` for the dump tool (src/main.c): normalise the program
 * name, run the option loop from the static defaults, then apply the default
 * options and check that exactly one operand (the device) follows.
 *
 * As written, `error_out` only exits for `inject.f2fs`; for `dump.f2fs` it
 * prints "Wrong program." and returns, although `dump_usage` (which prints
 * the usage and exits with status 1) is defined right above it. `Parse`
 * models the evidently intended behaviour (every reported error ends the
 * program through the usage text) and is what the rest of the model uses;
 * `ParseAsWritten` models the code as written.
 */
module Parse {
  import opened Wrappers
  import opened ProgName
  import opened DumpOptions

  /** The command line after `getopt`: the options in order and the operands that follow them. */
  datatype Argv = Argv(opts: seq<Opt>, operands: seq<string>)

  const DumpProg := "dump.f2fs"

  datatype ParseOutcome =
    | Accepted(st: ParseState, device: string)     // returns normally; the dump proceeds
    | Rejected(err: ErrCode, st: ParseState)       // error reported, usage printed, exit(1)
    | MissingDevice                                // "Device not specified", usage printed, exit(1)
    | ShowVersion                                  // `-V`: version printed, exit(0)
    | ConversionEof                                // a conversion returned EOF: `ASSERT` stops the program
    | NotDump(name: string)                        // another tool's name: not followed further
    | ReturnsAfterError(err: ErrCode, st: ParseState)  // as written: error reported, parsing returns anyway
    | NullDeviceDup(st: ParseState)                // as written: `strdup(argv[optind])` with `optind == argc`

  /** The options state before the loop: `dump_opt`'s initialiser and the configuration as it was. */
  function Initial(init: Settings): ParseState {
    ParseState(Defaults, init)
  }

  /** `add_default_options`: quota repair on; automatic repair on for the Android default set. */
  function WithDefaults(st: ParseState, android: bool): ParseState {
    st.(cfg := st.cfg.(quotaFix := true, autoFix := st.cfg.autoFix || android))
  }

  /** `c.devices[0].path = strdup(argv[optind])`. */
  function WithDevice(st: ParseState, device: string): ParseState {
    st.(cfg := st.cfg.(device := Some(device)))
  }

  /** Extra operands reset the debug level before the error is reported. */
  function WithExtraOperands(st: ParseState): ParseState {
    st.(cfg := st.cfg.(dbgLv := 0))
  }

  /** The dump tool's own name has no underscore to rewrite. */
  lemma DumpProgIsDotted()
    ensures Dotted(DumpProg) == DumpProg
  {
    forall k | 0 <= k < |DumpProg|
      ensures DumpProg[k] != '_'
    {
    }
    DottedFixesPlainNames(DumpProg);
  }

  /** The argument parser, with every reported error ending the program. */
  function Parse(prog: string, argv: Argv, env: Env, android: bool, init: Settings): ParseOutcome {
    var name := Dotted(prog);
    if name != DumpProg then NotDump(name) else ParseDump(argv, env, android, init)
  }

  /** The dump tool's branch: the device check for an empty command line, then the option loop and the operands. */
  function ParseDump(argv: Argv, env: Env, android: bool, init: Settings): ParseOutcome {
    if argv.opts == [] && argv.operands == [] then MissingDevice
    else
      match RunOptions(Initial(init), argv.opts, env)
      case Version => ShowVersion
      case AssertFailed => ConversionEof
      case Done(st, err) =>
        if err != NoError then Rejected(err, st) else Operands(st, argv.operands, android)
  }

  /** After an error-free option loop: the default options, then the operand check. */
  function Operands(st: ParseState, operands: seq<string>, android: bool): ParseOutcome {
    if operands == [] then MissingDevice
    else
      var st1 := WithDevice(WithDefaults(st, android), operands[0]);
      if |operands| > 1 then Rejected(UnknownArg, WithExtraOperands(st1))
      else Accepted(st1, operands[0])
  }

  /**
   * The argument parser as written: `error_out` returns for `dump.f2fs`, so
   * a missing argument reaches `strdup` of the NULL that ends `argv`, and a
   * reported error returns to `main`.
   */
  function ParseAsWritten(prog: string, argv: Argv, env: Env, android: bool, init: Settings): ParseOutcome {
    var name := Dotted(prog);
    if name != DumpProg then NotDump(name)
    else
      match RunOptions(Initial(init), argv.opts, env)
      case Version => ShowVersion
      case AssertFailed => ConversionEof
      case Done(st, err) =>
        if err != NoError then ReturnsAfterError(err, st)
        else if argv.operands == [] then NullDeviceDup(WithDefaults(st, android))
        else
          var st1 := WithDevice(WithDefaults(st, android), argv.operands[0]);
          if |argv.operands| > 1 then ReturnsAfterError(UnknownArg, WithExtraOperands(st1))
          else Accepted(st1, argv.operands[0])
  }

  /**
   * Parsing succeeds exactly when the name is `dump.f2fs` (after dotting),
   * the option loop ends without error, and exactly one operand is left; the
   * device is that operand, and the state is the loop's with the default
   * options and the device applied.
   */
  lemma AcceptedIff(prog: string, argv: Argv, env: Env, android: bool, init: Settings)
    ensures var out := Parse(prog, argv, env, android, init);
            var r := RunOptions(Initial(init), argv.opts, env);
            out.Accepted? <==>
              Dotted(prog) == DumpProg && r.Done? && r.err == NoError && |argv.operands| == 1
    ensures var out := Parse(prog, argv, env, android, init);
            var r := RunOptions(Initial(init), argv.opts, env);
            out.Accepted? ==>
              out.device == argv.operands[0] && out.st == WithDevice(WithDefaults(r.st, android), argv.operands[0])
  {
    var r := RunOptions(Initial(init), argv.opts, env);
    if argv.opts == [] {
      assert r == Done(Initial(init), NoError);
    }
  }

  /**
   * After an error-free option loop: no operand is a missing device, more
   * than one is an unknown argument with the debug level reset to 0.
   */
  lemma OperandCount(prog: string, argv: Argv, env: Env, android: bool, init: Settings)
    requires Dotted(prog) == DumpProg
    requires RunOptions(Initial(init), argv.opts, env).Done?
    requires RunOptions(Initial(init), argv.opts, env).err == NoError
    ensures argv.operands == [] <==> Parse(prog, argv, env, android, init) == MissingDevice
    ensures |argv.operands| > 1 <==> Parse(prog, argv, env, android, init).Rejected?
    ensures |argv.operands| > 1 ==>
              var out := Parse(prog, argv, env, android, init);
              out.err == UnknownArg && out.st.cfg.dbgLv == 0 && out.st.cfg.device == Some(argv.operands[0])
  {
  }

  /** An option error is reported with the state the loop left, whatever the operands. */
  lemma OptionErrorRejects(prog: string, argv: Argv, env: Env, android: bool, init: Settings)
    requires Dotted(prog) == DumpProg
    requires var r := RunOptions(Initial(init), argv.opts, env); r.Done? && r.err != NoError
    ensures Parse(prog, argv, env, android, init) ==
              Rejected(RunOptions(Initial(init), argv.opts, env).err, RunOptions(Initial(init), argv.opts, env).st)
  {
  }

  /** `dump_f2fs`, the underscore spelling, selects the dump tool. */
  lemma UnderscoreNameIsDump()
    ensures Dotted("dump_f2fs") == DumpProg
  {
    DottedAt("dump_f2fs", 4);
    assert Dotted("dump_f2fs")[4] == '.';
    forall k | 0 <= k < 9 && k != 4
      ensures Dotted("dump_f2fs")[k] == DumpProg[k]
    {
      DottedAt("dump_f2fs", k);
    }
  }

  /** The intended parser never returns to `main` after an error and never duplicates a NULL argument. */
  lemma ParseReturnsOnlyWhenAccepted(prog: string, argv: Argv, env: Env, android: bool, init: Settings)
    ensures !Parse(prog, argv, env, android, init).ReturnsAfterError?
    ensures !Parse(prog, argv, env, android, init).NullDeviceDup?
  {
  }

  /**
   * The code as written agrees with the intended parser except on its error
   * paths: where `Parse` reports an error and exits, `ParseAsWritten` returns
   * to `main` with the same state; where the device is missing, it goes on to
   * duplicate `argv[argc]`.
   */
  lemma AsWrittenDiffersOnErrors(prog: string, argv: Argv, env: Env, android: bool, init: Settings)
    ensures var p := Parse(prog, argv, env, android, init);
            var q := ParseAsWritten(prog, argv, env, android, init);
            && (p.Rejected? ==> q == ReturnsAfterError(p.err, p.st))
            && (p == MissingDevice ==> q.NullDeviceDup?)
            && (!p.Rejected? && p != MissingDevice ==> q == p)
  {
    var r := RunOptions(Initial(init), argv.opts, env);
    if argv.opts == [] {
      assert r == Done(Initial(init), NoError);
    }
  }

  /**
   * The input that shows it: `dump.f2fs img extra` is reported as an unknown
   * argument, and yet the parser returns with `img` as the device, so `main`
   * goes on to open and dump it.
   */
  lemma AsWrittenExtraOperandStillReturns(env: Env, android: bool, init: Settings)
    ensures var q := ParseAsWritten(DumpProg, Argv([], ["img", "extra"]), env, android, init);
            q.ReturnsAfterError? && q.err == UnknownArg && q.st.cfg.device == Some("img")
  {
    DumpProgIsDotted();
    assert RunOptions(Initial(init), [], env) == Done(Initial(init), NoError);
  }

  /** `dump.f2fs` with no argument at all reaches `strdup(argv[1])`, which is NULL. */
  lemma AsWrittenNoArgumentDupsNull(env: Env, android: bool, init: Settings)
    ensures ParseAsWritten(DumpProg, Argv([], []), env, android, init).NullDeviceDup?
  {
    DumpProgIsDotted();
    assert RunOptions(Initial(init), [], env) == Done(Initial(init), NoError);
  }

  /**
   * The whole of `f2fs_parse_options` for the dump tool, on the name buffer
   * and the configuration in place.
   */
  method ParseCommandLine(prog: array<char>, argv: Argv, env: Env, android: bool, c: Config) returns (out: ParseOutcome)
    modifies prog, c
    ensures prog[..] == Dotted(old(prog[..]))
    ensures out == Parse(old(prog[..]), argv, env, android, old(c.Values()))
    ensures out.Accepted? ==> c.private != null && c.private.Record() == out.st.dump && c.Values() == out.st.cfg
  {
    NormalizeProgName(prog);
    var name := prog[..];
    if name != DumpProg {
      return NotDump(name);
    }
    out := ParseDumpOptions(argv, env, android, c);
  }

  /** The `dump.f2fs` branch on the configuration in place; `c.private` is set to the new option record. */
  method ParseDumpOptions(argv: Argv, env: Env, android: bool, c: Config) returns (out: ParseOutcome)
    modifies c
    ensures out == ParseDump(argv, env, android, old(c.Values()))
    ensures out.Accepted? ==> c.private != null && c.private.Record() == out.st.dump && c.Values() == out.st.cfg
  {
    if |argv.opts| == 0 && |argv.operands| == 0 {
      return MissingDevice;
    }
    var opt := new DumpOption();
    var res := OptionLoop(argv.opts, env, opt, c);
    if !res.Done? {
      return if res.Version? then ShowVersion else ConversionEof;
    }
    c.private := opt;
    if res.err != NoError {
      return Rejected(res.err, res.st);
    }
    out := CheckOperands(argv.operands, android, opt, c);
  }

  /** The operand check after the option loop, on the configuration in place. */
  method CheckOperands(operands: seq<string>, android: bool, opt: DumpOption, c: Config) returns (out: ParseOutcome)
    modifies c`quotaFix, c`autoFix, c`device, c`dbgLv
    ensures out == Operands(old(Snapshot(opt, c)), operands, android)
    ensures out.Accepted? ==> Snapshot(opt, c) == out.st
  {
    c.quotaFix := true;
    if android {
      c.autoFix := true;
    }
    if |operands| == 0 {
      return MissingDevice;
    }
    c.device := Some(operands[0]);
    if |operands| > 1 {
      c.dbgLv := 0;
      return Rejected(UnknownArg, Snapshot(opt, c));
    }
    out := Accepted(Snapshot(opt, c), operands[0]);
  }
}
