/** The foreground-change rule of the detector. The process keeps one boolean,
    "the desktop (shell) window is in the foreground"; the operating system
    reports every change of foreground window, already reduced here to
    `isDesktop`: whether the new foreground window is the shell window. */
module Transitions {

  const StatusPrefix := "*** Desktop is now "
  const InitialPrefix := "Initial state: Desktop is "
  /** Second banner line, logged right after the initial state. */
  const ListeningLine := "Listening for foreground changes; press Ctrl+C to exit."

  /** The status line logged when the desktop has just come to the foreground
      (`foreground`) or just gone to the background. */
  function StatusLine(foreground: bool): (line: string)
    ensures foreground ==> line == "*** Desktop is now FOREGROUND (shown)"
    ensures !foreground ==> line == "*** Desktop is now BACKGROUND (apps shown)"
  {
    StatusPrefix + (if foreground then "FOREGROUND (shown)" else "BACKGROUND (apps shown)")
  }

  /** The line announcing the state found at start-up. */
  function InitialLine(foreground: bool): (line: string)
    ensures foreground ==> line == "Initial state: Desktop is FOREGROUND"
    ensures !foreground ==> line == "Initial state: Desktop is BACKGROUND"
  {
    InitialPrefix + (if foreground then "FOREGROUND" else "BACKGROUND")
  }

  /** The two status lines can be told apart, and neither is a start-up line. */
  lemma LinesDistinct(a: bool, b: bool)
    ensures StatusLine(a) == StatusLine(b) <==> a == b
    ensures InitialLine(a) == InitialLine(b) <==> a == b
    ensures StatusLine(a) != InitialLine(b) && StatusLine(a) != ListeningLine
  {
  }

  /** The new state and the status lines produced by one notification. */
  datatype Reaction = Reaction(foreground: bool, emitted: seq<string>)

  /** One foreground-change notification, starting from state `foreground`. */
  function Notify(foreground: bool, isDesktop: bool): (r: Reaction)
    ensures r.foreground == isDesktop
    ensures isDesktop == foreground ==> r.emitted == []
    ensures isDesktop != foreground ==> |r.emitted| == 1 && r.emitted[0] == StatusLine(isDesktop)
  {
    if isDesktop != foreground then Reaction(isDesktop, [StatusLine(isDesktop)])
    else Reaction(foreground, [])
  }

  /** A sequence of notifications, delivered in order, from state `initial`:
      the final state and every status line, oldest first. */
  function Replay(initial: bool, events: seq<bool>): (r: Reaction)
    ensures |r.emitted| <= |events|
    ensures events == [] ==> r == Reaction(initial, [])
    ensures events != [] ==> r.foreground == events[|events| - 1]
    decreases |events|
  {
    if events == [] then Reaction(initial, [])
    else
      var before := Replay(initial, events[..|events| - 1]);
      var step := Notify(before.foreground, events[|events| - 1]);
      Reaction(step.foreground, before.emitted + step.emitted)
  }

  /** The status lines alternate, the first one reporting the opposite of the
      initial state; the state is the initial one flipped once per line. */
  lemma {:induction false} ReplayAlternates(initial: bool, events: seq<bool>)
    ensures var r := Replay(initial, events);
      (r.foreground <==> initial != (|r.emitted| % 2 == 1)) &&
      forall i :: 0 <= i < |r.emitted| ==> r.emitted[i] == StatusLine((i % 2 == 0) != initial)
    decreases |events|
  {
    if events != [] {
      ReplayAlternates(initial, events[..|events| - 1]);
    }
  }

  /** Consequence in terms of the texts: the first line reports the opposite of
      the initial state, and no two consecutive lines are the same. */
  lemma ReplayStrictlyAlternates(initial: bool, events: seq<bool>)
    ensures var e := Replay(initial, events).emitted;
      (|e| > 0 ==> e[0] == StatusLine(!initial)) &&
      forall i :: 0 < i < |e| ==> e[i] != e[i - 1]
  {
    var e := Replay(initial, events).emitted;
    ReplayAlternates(initial, events);
    forall i | 0 < i < |e| ensures e[i] != e[i - 1] {
      LinesDistinct((i % 2 == 0) != initial, ((i - 1) % 2 == 0) != initial);
    }
  }

  /** Replaying two runs one after the other is replaying the second from the
      state the first one left. */
  lemma {:induction false} ReplayConcat(initial: bool, a: seq<bool>, b: seq<bool>)
    ensures var first := Replay(initial, a);
      var second := Replay(first.foreground, b);
      Replay(initial, a + b) == Reaction(second.foreground, first.emitted + second.emitted)
    decreases |b|
  {
    if b == [] {
      assert a + b == a;
    } else {
      var b' := b[..|b| - 1];
      assert (a + b)[..|a + b| - 1] == a + b';
      ReplayConcat(initial, a, b');
    }
  }

  /** A notification that repeats the previous one changes nothing. */
  lemma ReplayIgnoresDuplicate(initial: bool, a: seq<bool>, x: bool, b: seq<bool>)
    ensures Replay(initial, a + [x, x] + b) == Replay(initial, a + [x] + b)
  {
    assert a + [x, x] + b == (a + [x]) + ([x] + b);
    ReplayConcat(initial, a + [x], [x] + b);
    ReplayConcat(initial, a + [x], b);
    var mid := Replay(initial, a + [x]);
    ReplayConcat(mid.foreground, [x], b);
    assert [x] + b == [x] + b;
  }

  /** Notifications that all agree with the current state produce nothing. */
  lemma {:induction false} ReplayNoChange(initial: bool, events: seq<bool>)
    requires forall i :: 0 <= i < |events| ==> events[i] == initial
    ensures Replay(initial, events) == Reaction(initial, [])
    decreases |events|
  {
    if events != [] {
      ReplayNoChange(initial, events[..|events| - 1]);
    }
  }
}
