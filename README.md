# detect-desktop, modelled in Dafny

detect-desktop is a small Windows console program with a Node.js wrapper. The
program watches for changes of foreground window and reports whether the
desktop (the shell window) is in the foreground. It keeps one boolean, "desktop
is foreground". Each time the foreground window changes, it compares that
boolean with "the new foreground window is the shell window". On a change it
flips the boolean and logs one status line; otherwise it does nothing. Each
line goes to standard output unless `--quiet` is given, and to
`detect-desktop.log` when `--log` is given. `--help` prints usage and exits
with code 0. Unknown command-line tokens are skipped silently
(bin/detect-desktop.cpp:38-50). The Node.js wrapper turns `{quiet, log}` options into that
argument list and spawns the program.

The model has four modules:

- `Flags` (flags.dfy) holds the `argv` loop of `wmain` as a method. `Parse` is
  its order-free reference meaning: help if `--help` occurs anywhere, otherwise
  each switch is on iff its flag occurs.
- `Transitions` (transitions.dfy) holds the message texts and `Notify`, the pure
  rule for one notification. `Replay` runs a sequence of notifications. The
  lemmas about `Replay` cover alternation, duplicates and concatenation.
- `DetectDesktop` (detector.dfy) holds the process globals as a `Monitor`
  class. It has the `Log` routing decision (`Route`), the callback, the message
  loop, and `Execute`, the start-up sequence of `wmain` with its exit codes.
- `Launcher` (launcher.dfy) holds `BuildArgs`, the argument list built by
  `startDesktopDetector`. Its contract includes the round trip through
  `Flags.Parse`.

Operating-system answers are inputs. `GetShellWindow() == hwnd` becomes the
boolean `isDesktop` of each notification. The start-up queries (log file
opened, shell window found, initial foreground window is the shell, hook
installed) become the `Environment` datatype. The notifications the message
loop dispatches become a finite `seq<bool>`.

## Model

| member | source | states |
|---|---|---|
| Flags.ParseArgs | bin/detect-desktop.cpp:38-50 | The loop's outcome is help iff `--help` is among `argv[1..]`. Otherwise `quiet` is set iff `--quiet` occurs and `log` iff `--log` occurs. The outcome equals the order-free reference `Parse` of the tokens after the program name. |
| Flags.ParseDependsOnlyOnTokenSet | bin/detect-desktop.cpp:38-48 | Two token lists that contain the same tokens parse alike, so order and repetition do not matter. |
| Flags.ParseIgnoresUnknownToken | bin/detect-desktop.cpp:38-50 | A token that is none of `--quiet`, `--log`, `--help` can be removed anywhere without changing the outcome. |
| Flags.HelpIgnoresLaterTokens | bin/detect-desktop.cpp:46-48 | Once `--help` occurs, the outcome is help whatever comes before or after it. |
| Transitions.StatusLine | bin/detect-desktop.cpp:23-24 | The status line is `*** Desktop is now FOREGROUND (shown)` for the foreground and `*** Desktop is now BACKGROUND (apps shown)` for the background. |
| Transitions.InitialLine | bin/detect-desktop.cpp:67 | The start-up line is `Initial state: Desktop is FOREGROUND` or `... BACKGROUND`, matching the initial state. |
| Transitions.LinesDistinct | bin/detect-desktop.cpp:23-24 | The two status lines differ from each other. So do the two start-up lines. No status line equals a start-up or banner line. |
| Transitions.Notify | bin/detect-desktop.cpp:19-27 | After a notification the state equals `isDesktop`. If that was already the state, no line is emitted. Otherwise exactly one line is emitted, the status line of the new state. |
| Transitions.Replay | bin/detect-desktop.cpp:19-27 | Over a run of notifications, at most one line is emitted per notification. The final state is the last notification's `isDesktop`, or the initial state for an empty run. |
| Transitions.ReplayAlternates | bin/detect-desktop.cpp:21-24 | Line `i` of a run reports the opposite of the initial state when `i` is even and the initial state when `i` is odd. The final state is the initial one flipped once per emitted line. |
| Transitions.ReplayStrictlyAlternates | bin/detect-desktop.cpp:21-24 | The first emitted line reports the opposite of the initial state, and no two consecutive lines are equal. |
| Transitions.ReplayConcat | bin/detect-desktop.cpp:19-27 | Running two batches of notifications in a row equals running the second from the state the first left, with the emitted lines concatenated. |
| Transitions.ReplayIgnoresDuplicate | bin/detect-desktop.cpp:21 | A notification that repeats the one just before it changes neither the state nor the emitted lines, anywhere in a run. |
| Transitions.ReplayNoChange | bin/detect-desktop.cpp:21 | Notifications that all agree with the current state leave it unchanged and emit nothing. |
| DetectDesktop.Route | bin/detect-desktop.cpp:12-17 | A message goes to the console iff not quiet, and to the file iff logging is on and the file is open. |
| DetectDesktop.RouteIndependent | bin/detect-desktop.cpp:13-16 | The console decision does not depend on the log switch or the file. The file decision does not depend on the quiet switch. |
| DetectDesktop.Monitor.constructor | bin/detect-desktop.cpp:7-66 | The globals (declared at lines 7-10) hold the switches set by the flag loop, the log file's open state and the initial foreground flag of line 66, with nothing logged yet. |
| DetectDesktop.Monitor.Log | bin/detect-desktop.cpp:12-17 | The message is appended to the console iff not quiet, and to the log file iff logging is on and the file is open. The foreground flag is untouched. The sinks invariant is kept. |
| DetectDesktop.Monitor.ForegroundChanged | bin/detect-desktop.cpp:19-27 | The flag and the logged lines change exactly as `Notify` says. A duplicate notification leaves console, file and flag unchanged. |
| DetectDesktop.Monitor.Listen | bin/detect-desktop.cpp:82-86 | Dispatching a run of notifications leaves the flag and the logged lines exactly as `Replay` says. |
| DetectDesktop.Transcript | bin/detect-desktop.cpp:66-68 | A run that reaches the message loop logs the initial-state line, then the listening banner. After them come at most one line per notification. These lines alternate, starting with the opposite of the initial state, and the last one reports the final state. |
| DetectDesktop.Execute | bin/detect-desktop.cpp:36-92 | `--help` exits 0 with nothing logged. A log file that fails to open, or a missing shell window, exits 1 with nothing logged. A failed hook exits 1 after the two start-up lines. Otherwise the full transcript is logged and the exit code is 0. The console gets the lines iff not quiet and the file iff `--log` was given. |
| Launcher.BuildArgs | index.js:6-9 | The list contains `--quiet` iff `quiet` and `--log` iff `log`. It never contains `--help`, has at most two distinct elements, puts `--quiet` before `--log`, and holds nothing but these two flags. Default options give `[]`. Parsing the list gives back exactly `Config(quiet, log)`. |
| Launcher.SpawnedArgvParsesBack | index.js:6-11 | With the program path placed in front by the spawn, the flag loop still reads back exactly the options. |

## Left out

- Win32 hook registration and release (`SetWinEventHook`, `UnhookWinEvent`), the `GetMessage`/`DispatchMessage` loop and the window queries (`GetShellWindow`, `GetForegroundWindow`) are not modelled as such. They are operating-system calls; their answers are the `Environment` fields and the `isDesktop` notifications.
- Real console and file I/O (`std::wcout`, `std::wofstream` open, append and close) is not modelled. Each sink is the sequence of lines `Log` sent to it.
- The usage text of `ShowHelp` and the error messages written to `std::wcerr` are not modelled. Only the help path's exit code 0 and the error paths' exit code 1 are.
- The program also ends on Ctrl+C, which kills the process without reaching `return 0`. The model ends only when the finite notification sequence is exhausted, standing for `GetMessage` returning 0.
- Launcher.BuildArgs: JavaScript truthiness of non-boolean option values is not modelled. The options are booleans.
- Child-process spawning and the stdout, stderr and exit handlers of `startDesktopDetector` (index.js:11-25) are not modelled. They are process I/O and event callbacks.
- Concurrency is not modelled: the callback runs on the single message loop.
