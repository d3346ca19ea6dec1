/** Command-line flags of the detector executable: the loop over `argv` at the
    start of `wmain`. Recognised flags are `--quiet`, `--log` and `--help`;
    every other token is skipped without complaint. */
module Flags {

  /** What the flag loop decides: leave through the help path (exit code 0,
      nothing else happens), or carry on with the two output switches. */
  datatype ParseOutcome = Help | Config(quiet: bool, log: bool)

  const QuietFlag := "--quiet"
  const LogFlag := "--log"
  const HelpFlag := "--help"

  /** The tokens the loop looks at: `argv` without the program name in `argv[0]`. */
  function Tokens(argv: seq<string>): seq<string>
  {
    if |argv| == 0 then [] else argv[1..]
  }

  /** Reference meaning of a token list, independent of the order in which the
      loop visits it: help wins wherever it occurs; otherwise each switch is on
      exactly when its flag occurs at least once. */
  function Parse(tokens: seq<string>): ParseOutcome
  {
    if HelpFlag in tokens then Help
    else Config(QuietFlag in tokens, LogFlag in tokens)
  }

  /** The flag loop itself: walks `argv` from index 1, switches `quiet` and
      `log` on as their flags are met, and returns at the first `--help`. */
  method ParseArgs(argv: seq<string>) returns (outcome: ParseOutcome)
    ensures outcome == Parse(Tokens(argv))
    ensures outcome.Help? <==> HelpFlag in Tokens(argv)
    ensures outcome.Config? ==> (outcome.quiet <==> QuietFlag in Tokens(argv))
    ensures outcome.Config? ==> (outcome.log <==> LogFlag in Tokens(argv))
  {
    var quiet, log := false, false;
    var i := 1;
    while i < |argv|
      invariant 1 <= i <= |argv| || (|argv| == 0 && i == 1)
      invariant |argv| > 0 ==> HelpFlag !in argv[1..i]
      invariant |argv| > 0 ==> (quiet <==> QuietFlag in argv[1..i])
      invariant |argv| > 0 ==> (log <==> LogFlag in argv[1..i])
      invariant |argv| == 0 ==> !quiet && !log
    {
      assert argv[1..i + 1] == argv[1..i] + [argv[i]];
      var arg := argv[i];
      if arg == QuietFlag {
        quiet := true;
      } else if arg == LogFlag {
        log := true;
      } else if arg == HelpFlag {
        return Help;
      }
      i := i + 1;
    }
    assert |argv| > 0 ==> argv[1..i] == Tokens(argv);
    outcome := Config(quiet, log);
  }

  /** Order and repetition of the tokens do not matter: two token lists that
      contain the same tokens parse alike. */
  lemma ParseDependsOnlyOnTokenSet(a: seq<string>, b: seq<string>)
    requires forall t :: t in a <==> t in b
    ensures Parse(a) == Parse(b)
  {
  }

  /** A token that is none of the three flags can be dropped anywhere. */
  lemma ParseIgnoresUnknownToken(before: seq<string>, token: string, after: seq<string>)
    requires token != QuietFlag && token != LogFlag && token != HelpFlag
    ensures Parse(before + [token] + after) == Parse(before + after)
  {
  }

  /** Once `--help` has been seen, whatever follows it is irrelevant. */
  lemma HelpIgnoresLaterTokens(before: seq<string>, after: seq<string>)
    ensures Parse(before + [HelpFlag] + after) == Help
  {
  }
}
