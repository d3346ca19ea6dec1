/** The detector process: its global state (the foreground flag, the two
    output switches and the log file) as one object, the `Log` routing
    decision, the foreground-change callback and the start-up sequence of
    `wmain`. Operating-system answers are inputs: `Environment` for the
    start-up queries and a sequence of `isDesktop` booleans for the
    notifications the message loop delivers. */
module DetectDesktop {
  import Flags
  import opened Transitions

  /** Where one message goes. */
  datatype Routing = Routing(toConsole: bool, toFile: bool)

  /** `Log`'s decision: standard output unless quiet; the log file when
      logging is on and the file is open. */
  function Route(quiet: bool, log: bool, fileOpen: bool): (r: Routing)
    ensures r.toConsole <==> !quiet
    ensures r.toFile <==> log && fileOpen
  {
    Routing(!quiet, log && fileOpen)
  }

  /** The console decision depends on `quiet` alone and the file decision
      does not depend on `quiet` at all. */
  lemma RouteIndependent(q: bool, l: bool, f: bool, q': bool, l': bool, f': bool)
    ensures Route(q, l, f).toConsole == Route(q, l', f').toConsole
    ensures Route(q, l, f).toFile == Route(q', l, f).toFile
  {
  }

  /** The process-wide state. `emitted` is every message handed to `Log`, in
      order; `console` and `logFile` are what reached each sink. */
  class Monitor {
    var desktopIsForeground: bool
    const quiet: bool
    const log: bool
    const logFileOpen: bool
    var console: seq<string>
    var logFile: seq<string>
    ghost var emitted: seq<string>

    /** Each sink has received either every message or none. */
    ghost predicate Valid()
      reads this
    {
      console == (if Route(quiet, log, logFileOpen).toConsole then emitted else []) &&
      logFile == (if Route(quiet, log, logFileOpen).toFile then emitted else [])
    }

    /** The state right after the flag loop and the log-file open, with the
        foreground flag taken from the first foreground query. */
    constructor (quiet: bool, log: bool, logFileOpen: bool, foreground: bool)
      ensures Valid()
      ensures this.quiet == quiet && this.log == log && this.logFileOpen == logFileOpen
      ensures desktopIsForeground == foreground
      ensures emitted == [] && console == [] && logFile == []
    {
      this.quiet := quiet;
      this.log := log;
      this.logFileOpen := logFileOpen;
      desktopIsForeground := foreground;
      console, logFile := [], [];
      emitted := [];
    }

    /** Sends one message to the sinks `Route` selects. */
    method Log(msg: string)
      requires Valid()
      modifies this
      ensures Valid()
      ensures emitted == old(emitted) + [msg]
      ensures console == old(console) + (if !quiet then [msg] else [])
      ensures logFile == old(logFile) + (if log && logFileOpen then [msg] else [])
      ensures desktopIsForeground == old(desktopIsForeground)
    {
      if !quiet {
        console := console + [msg];
      }
      if log && logFileOpen {
        logFile := logFile + [msg];
      }
      emitted := emitted + [msg];
    }

    /** The foreground-change callback: flips the flag and logs one status
        line when the shell window's foreground status changed; otherwise
        does nothing. */
    method ForegroundChanged(isDesktop: bool)
      requires Valid()
      modifies this
      ensures Valid()
      ensures desktopIsForeground == Notify(old(desktopIsForeground), isDesktop).foreground
      ensures emitted == old(emitted) + Notify(old(desktopIsForeground), isDesktop).emitted
      ensures isDesktop == old(desktopIsForeground) ==>
        console == old(console) && logFile == old(logFile) && emitted == old(emitted)
    {
      var nowDesktop := isDesktop;
      if nowDesktop != desktopIsForeground {
        desktopIsForeground := nowDesktop;
        Log(StatusLine(desktopIsForeground));
      }
    }

    /** The message loop: every notification in `events` is dispatched to the
        callback, in order, until the loop ends. */
    method Listen(events: seq<bool>)
      requires Valid()
      modifies this
      ensures Valid()
      ensures desktopIsForeground == Replay(old(desktopIsForeground), events).foreground
      ensures emitted == old(emitted) + Replay(old(desktopIsForeground), events).emitted
    {
      ghost var start, before := desktopIsForeground, emitted;
      var i := 0;
      while i < |events|
        invariant 0 <= i <= |events|
        invariant Valid()
        invariant desktopIsForeground == Replay(start, events[..i]).foreground
        invariant emitted == before + Replay(start, events[..i]).emitted
      {
        ghost var done := Replay(start, events[..i]);
        assert events[..i + 1][..i] == events[..i];
        ForegroundChanged(events[i]);
        assert Replay(start, events[..i + 1]).emitted == done.emitted + Notify(done.foreground, events[i]).emitted;
        i := i + 1;
      }
      assert events[..i] == events;
    }
  }

  /** Answers of the operating system and the file system during start-up. */
  datatype Environment = Environment(
    logFileOpens: bool,       // the log file could be opened for appending
    shellFound: bool,         // a shell (desktop) window handle exists
    foregroundIsShell: bool,  // the first foreground query returned the shell window
    hookInstalled: bool)      // the foreground event hook was registered

  /** Lines logged by a run that got as far as the message loop. */
  function Transcript(initial: bool, events: seq<bool>): (lines: seq<string>)
    ensures |lines| >= 2 && lines[0] == InitialLine(initial) && lines[1] == ListeningLine
    ensures |lines| <= |events| + 2
    ensures forall i :: 2 <= i < |lines| ==> lines[i] == StatusLine(((i - 2) % 2 == 0) != initial)
    ensures |lines| > 2 ==> lines[|lines| - 1] == StatusLine(Replay(initial, events).foreground)
  {
    ReplayAlternates(initial, events);
    [InitialLine(initial), ListeningLine] + Replay(initial, events).emitted
  }

  /** The whole process: flag loop, log-file open, shell-window lookup,
      initial announcement, hook registration and message loop. Returns the
      exit code and what reached standard output through `Log` and the log
      file. */
  method Execute(argv: seq<string>, env: Environment, events: seq<bool>)
    returns (exitCode: int, console: seq<string>, logFile: seq<string>)
    ensures exitCode == 0 || exitCode == 1
    ensures Flags.Parse(Flags.Tokens(argv)).Help? ==> exitCode == 0 && console == [] && logFile == []
    ensures Flags.Parse(Flags.Tokens(argv)).Config? ==>
      var flags := Flags.Parse(Flags.Tokens(argv));
      if (flags.log && !env.logFileOpens) || !env.shellFound then
        exitCode == 1 && console == [] && logFile == []
      else
        var lines := if env.hookInstalled then Transcript(env.foregroundIsShell, events)
                     else [InitialLine(env.foregroundIsShell), ListeningLine];
        exitCode == (if env.hookInstalled then 0 else 1) &&
        console == (if flags.quiet then [] else lines) &&
        logFile == (if flags.log then lines else [])
  {
    var outcome := Flags.ParseArgs(argv);
    if outcome.Help? {
      return 0, [], [];
    }
    var fileOpen := false;
    if outcome.log {
      if !env.logFileOpens {
        return 1, [], [];
      }
      fileOpen := true;
    }
    if !env.shellFound {
      return 1, [], [];
    }
    var monitor := new Monitor(outcome.quiet, outcome.log, fileOpen, env.foregroundIsShell);
    monitor.Log(InitialLine(monitor.desktopIsForeground));
    monitor.Log(ListeningLine);
    assert monitor.emitted == [InitialLine(env.foregroundIsShell), ListeningLine];
    if !env.hookInstalled {
      return 1, monitor.console, monitor.logFile;
    }
    monitor.Listen(events);
    assert monitor.emitted == Transcript(env.foregroundIsShell, events);
    return 0, monitor.console, monitor.logFile;
  }
}
