/** The Node.js wrapper's argument list for the detector executable. */
module Launcher {
  import Flags

  /** The options object; a missing option defaults to `false`. */
  datatype Options = Options(quiet: bool, log: bool)

  /** The options used when none are given. */
  const Defaults := Options(false, false)

  /** Builds the argument list by pushing `--quiet`, then `--log`, for each
      option that is set. The executable's own flag loop reads exactly the
      options back from it and never takes the help exit. */
  method BuildArgs(options: Options) returns (args: seq<string>)
    ensures Flags.QuietFlag in args <==> options.quiet
    ensures Flags.LogFlag in args <==> options.log
    ensures Flags.HelpFlag !in args
    ensures forall a :: a in args ==> a == Flags.QuietFlag || a == Flags.LogFlag
    ensures |args| <= 2 && forall i, j :: 0 <= i < j < |args| ==> args[i] != args[j]
    ensures options.quiet && options.log ==> args == [Flags.QuietFlag, Flags.LogFlag]
    ensures options == Defaults ==> args == []
    ensures Flags.Parse(args) == Flags.Config(options.quiet, options.log)
  {
    args := [];
    if options.quiet {
      args := args + [Flags.QuietFlag];
    }
    if options.log {
      args := args + [Flags.LogFlag];
    }
  }

  /** Spawning puts the program path in front of the arguments; the flag loop
      skips it, so the round trip holds for the full `argv` as well. */
  lemma SpawnedArgvParsesBack(program: string, args: seq<string>, options: Options)
    requires Flags.Parse(args) == Flags.Config(options.quiet, options.log)
    ensures Flags.Parse(Flags.Tokens([program] + args)) == Flags.Config(options.quiet, options.log)
  {
  }
}
