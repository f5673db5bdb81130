/** The outcome classifier of `executeRipgrep` (src/index.ts:387-431): one ripgrep run
    seen as the sequence of callbacks Node delivers — a stdout chunk, a stderr chunk, the
    `close` event with its exit code, the `error` event, or the 30-second timer — and the
    promise they settle. A promise settles once: the first settling callback decides the
    result and later ones change only the accumulated text and the process flags. */
module Execution {
  import opened Common

  /** The output ceiling, about 10 MB, measured as string length (src/index.ts:406). */
  const OutputLimit: nat := 10 * 1024 * 1024

  const TruncationMarker: string := "\n... Output truncated due to size limits"

  const TimeoutMessage: string := "Search timeout after 30 seconds"

  /** How the promise settled: `resolve(text)` or `reject(new Error(message))`. */
  datatype Outcome = Resolved(text: string) | Rejected(message: string)

  /** One callback. `Close(None)` is a `close` with code `null` (the process was killed by
      a signal). */
  datatype Event =
    | StdoutData(chunk: string)
    | StderrData(chunk: string)
    | Close(code: Option<int>)
    | SpawnError(message: string)
    | TimerFired

  /** Everything the callbacks share: the two accumulators, the promise, whether the
      timer is still pending and whether `rg.kill()` was called. */
  datatype RunState = RunState(stdout: string, stderr: string, outcome: Option<Outcome>,
                               timerArmed: bool, killed: bool)

  /** Just after `spawn`: nothing read, promise pending, timer armed. */
  const Initial: RunState := RunState("", "", None, true, false)

  predicate NoColon(s: string) {
    forall i :: 0 <= i < |s| ==> s[i] != ':'
  }

  /** `${code}` in a template literal: the exit code in decimal, or "null". */
  function CodeText(code: Option<int>): (s: string)
    ensures s != "" && NoColon(s)
    ensures code.None? ==> s == "null"
    ensures code.Some? ==> (IsDigits(s) || (s[0] == '-' && IsDigits(s[1..]))) && ParseInt(s) == code.value
  {
    if code.Some? then
      IntToStringRoundTrip(code.value);
      IntToString(code.value)
    else "null"
  }

  /** The message names the code, then carries the whole stderr after ": ". */
  function ExitMessage(code: Option<int>, stderr: string): (m: string)
    ensures StartsWith(m, "ripgrep exited with code " + CodeText(code))
    ensures |m| >= |stderr| + 2 && m[|m| - |stderr| - 2..] == ": " + stderr
  {
    var p, tail := "ripgrep exited with code ", CodeText(code) + (": " + stderr);
    assert (p + tail)[..|p| + |CodeText(code)|] == p + CodeText(code);
    assert (p + tail)[|p| + |CodeText(code)|..] == ": " + stderr;
    p + tail
  }

  /** The message carries the error's own message after a fixed prefix. */
  function SpawnFailureMessage(message: string): (m: string)
    ensures StartsWith(m, "Failed to execute ripgrep: ")
    ensures m[|"Failed to execute ripgrep: "|..] == message
  {
    "Failed to execute ripgrep: " + message
  }

  /** `resolve`/`reject` on a promise: only the first call has an effect. */
  function Settle(st: RunState, o: Outcome): (r: RunState)
    ensures r.outcome == if st.outcome.Some? then st.outcome else Some(o)
    ensures r.(outcome := st.outcome) == st
  {
    if st.outcome.None? then st.(outcome := Some(o)) else st
  }

  /** The effect of one callback. */
  function Step(st: RunState, e: Event): (r: RunState)
    ensures st.outcome.Some? ==> r.outcome == st.outcome
    ensures st.killed ==> r.killed
    ensures !st.timerArmed ==> !r.timerArmed
  {
    match e
    case StdoutData(chunk) =>
      var out := st.stdout + chunk;
      if |out| > OutputLimit then Settle(st.(stdout := out, killed := true), Resolved(out + TruncationMarker))
      else st.(stdout := out)
    case StderrData(chunk) => st.(stderr := st.stderr + chunk)
    case Close(code) =>
      var cleared := st.(timerArmed := false);
      if code == Some(0) || code == Some(1) then Settle(cleared, Resolved(st.stdout))
      else Settle(cleared, Rejected(ExitMessage(code, st.stderr)))
    case SpawnError(message) => Settle(st.(timerArmed := false), Rejected(SpawnFailureMessage(message)))
    case TimerFired =>
      if st.timerArmed then Settle(st.(timerArmed := false, killed := true), Rejected(TimeoutMessage))
      else st
  }

  /** The callbacks in delivery order. */
  function Run(st: RunState, events: seq<Event>): (r: RunState)
    ensures st.outcome.Some? ==> r.outcome == st.outcome
    decreases |events|
  {
    if events == [] then st else Run(Step(st, events[0]), events[1..])
  }

  /** Everything written to stdout, in order. */
  function StdoutOf(events: seq<Event>): string
    decreases |events|
  {
    if events == [] then ""
    else (if events[0].StdoutData? then events[0].chunk else "") + StdoutOf(events[1..])
  }

  /** Everything written to stderr, in order. */
  function StderrOf(events: seq<Event>): string
    decreases |events|
  {
    if events == [] then ""
    else (if events[0].StderrData? then events[0].chunk else "") + StderrOf(events[1..])
  }

  lemma {:induction false} RunAppend(st: RunState, e1: seq<Event>, e2: seq<Event>)
    ensures Run(st, e1 + e2) == Run(Run(st, e1), e2)
    decreases |e1|
  {
    if e1 == [] {
      assert e1 + e2 == e2;
    } else {
      assert (e1 + e2)[0] == e1[0];
      assert (e1 + e2)[1..] == e1[1..] + e2;
      RunAppend(Step(st, e1[0]), e1[1..], e2);
    }
  }

  /** The accumulators keep every chunk, settled or not: stdout and stderr are the
      concatenation of their chunks in delivery order (src/index.ts:404, 413). */
  lemma StepAccumulates(st: RunState, e: Event)
    ensures Step(st, e).stdout == st.stdout + (if e.StdoutData? then e.chunk else "")
    ensures Step(st, e).stderr == st.stderr + (if e.StderrData? then e.chunk else "")
  {
  }

  lemma {:induction false} RunAccumulates(st: RunState, events: seq<Event>)
    ensures Run(st, events).stdout == st.stdout + StdoutOf(events)
    ensures Run(st, events).stderr == st.stderr + StderrOf(events)
    decreases |events|
  {
    if events != [] {
      StepAccumulates(st, events[0]);
      RunAccumulates(Step(st, events[0]), events[1..]);
      assert Run(st, events) == Run(Step(st, events[0]), events[1..]);
    }
  }

  /** The first callback that settles the promise fixes the result whatever follows
      (src/index.ts:389-392, 403-430). */
  lemma FirstSettlingEventWins(before: seq<Event>, e: Event, after: seq<Event>)
    requires Run(Initial, before).outcome.None?
    requires Step(Run(Initial, before), e).outcome.Some?
    ensures Run(Initial, before + [e] + after).outcome == Step(Run(Initial, before), e).outcome
  {
    RunAppend(Initial, before + [e], after);
    RunAppend(Initial, before, [e]);
  }

  /** Exit codes 0 (matches) and 1 (no match) resolve with the stdout read so far; any
      other code, `null` included, rejects with a message naming the code and carrying
      the stderr read so far (src/index.ts:416-424). */
  lemma CloseClassification(st: RunState, code: Option<int>)
    requires st.outcome.None?
    ensures var r := Step(st, Close(code));
      !r.timerArmed
      && (code == Some(0) || code == Some(1) <==> r.outcome == Some(Resolved(st.stdout)))
      && (code != Some(0) && code != Some(1) <==>
            r.outcome == Some(Rejected("ripgrep exited with code " + CodeText(code) + ": " + st.stderr)))
  {
    assert "ripgrep exited with code " + CodeText(code) + ": " + st.stderr == ExitMessage(code, st.stderr);
  }

  /** Two texts without ':' that are followed by the same colon-led tail are equal. */
  lemma ColonSeparated(s1: string, s2: string, tail: string)
    requires NoColon(s1) && NoColon(s2)
    requires s1 + (": " + tail) == s2 + (": " + tail)
    ensures s1 == s2
  {
    var m := s1 + (": " + tail);
    if |s1| == |s2| {
      assert m[..|s1|] == s1 && m[..|s2|] == s2;
    }
  }

  /** Different exit codes give different messages: the message names the code. */
  lemma ExitMessageNamesCode(c1: Option<int>, c2: Option<int>, stderr: string)
    requires c1 != c2
    ensures ExitMessage(c1, stderr) != ExitMessage(c2, stderr)
  {
    var p := "ripgrep exited with code ";
    var s1, s2 := CodeText(c1), CodeText(c2);
    if ExitMessage(c1, stderr) == ExitMessage(c2, stderr) {
      assert s1 + (": " + stderr) == (p + (s1 + (": " + stderr)))[|p|..];
      ColonSeparated(s1, s2, stderr);
    }
  }

  /** An `error` event clears the timer and rejects with the spawn failure text
      (src/index.ts:427-430). */
  lemma SpawnErrorRejects(st: RunState, message: string)
    requires st.outcome.None?
    ensures var r := Step(st, SpawnError(message));
      !r.timerArmed && r.outcome == Some(Rejected("Failed to execute ripgrep: " + message))
  {
  }

  /** The timer kills the process and rejects, but only while it is still armed: after
      `close` or `error` it never fires (src/index.ts:389-392, 417, 428). */
  lemma TimerAfterSettlingCallbackIgnored(st: RunState, e: Event)
    requires e.Close? || e.SpawnError?
    ensures Step(Step(st, e), TimerFired) == Step(st, e)
  {
  }

  lemma TimerWhileArmedRejects(st: RunState)
    requires st.timerArmed && st.outcome.None?
    ensures var r := Step(st, TimerFired);
      r.killed && !r.timerArmed && r.outcome == Some(Rejected(TimeoutMessage))
      && r.stdout == st.stdout && r.stderr == st.stderr
  {
  }

  predicate EndsWith(s: string, suffix: string) {
    |suffix| <= |s| && s[|s| - |suffix|..] == suffix
  }

  /** What every reachable state satisfies: while the promise is pending stdout is within
      the ceiling, and a resolved text is either stdout as read (within the ceiling) or an
      over-long stdout followed by the truncation marker. */
  predicate Sound(st: RunState) {
    (st.outcome.None? ==> |st.stdout| <= OutputLimit)
    && (st.outcome.Some? && st.outcome.value.Resolved? ==>
          var t := st.outcome.value.text;
          |t| <= OutputLimit
          || (|t| > OutputLimit + |TruncationMarker| && EndsWith(t, TruncationMarker)))
  }

  lemma StepSound(st: RunState, e: Event)
    requires Sound(st)
    ensures Sound(Step(st, e))
  {
    if e.StdoutData? && st.outcome.None? {
      var out := st.stdout + e.chunk;
      if |out| > OutputLimit {
        var t := out + TruncationMarker;
        assert t[|t| - |TruncationMarker|..] == TruncationMarker;
      }
    }
  }

  /** The ceiling: a run that has not settled holds at most `OutputLimit` characters of
      stdout, and a resolved result is never an over-long stdout without the marker
      (src/index.ts:403-410, 416-421). */
  lemma {:induction false} RunSound(st: RunState, events: seq<Event>)
    requires Sound(st)
    ensures Sound(Run(st, events))
    decreases |events|
  {
    if events != [] {
      StepSound(st, events[0]);
      RunSound(Step(st, events[0]), events[1..]);
    }
  }

  lemma InitialSound()
    ensures Sound(Initial)
  {
  }

  /** Crossing the ceiling kills the process and resolves with the over-long stdout and
      the marker, when nothing settled before (src/index.ts:406-408). */
  lemma OverflowTruncates(st: RunState, chunk: string)
    requires st.outcome.None? && |st.stdout + chunk| > OutputLimit
    ensures var r := Step(st, StdoutData(chunk));
      r.killed && r.outcome == Some(Resolved(st.stdout + chunk + TruncationMarker))
  {
  }

  /** The callbacks of one process as an object: the closure variables of
      `executeRipgrep` become fields and each callback a method. */
  class RipgrepProcess {
    var stdout: string
    var stderr: string
    var outcome: Option<Outcome>
    var timerArmed: bool
    var killed: bool

    function State(): RunState
      reads this
    {
      RunState(stdout, stderr, outcome, timerArmed, killed)
    }

    /** `setTimeout(…, 30000)` and `spawn`: empty accumulators, pending promise. */
    constructor ()
      ensures State() == Initial
    {
      stdout := "";
      stderr := "";
      outcome := None;
      timerArmed := true;
      killed := false;
    }

    method Resolve(text: string)
      modifies this
      ensures State() == Settle(old(State()), Resolved(text))
    {
      if outcome.None? {
        outcome := Some(Resolved(text));
      }
    }

    method Reject(message: string)
      modifies this
      ensures State() == Settle(old(State()), Rejected(message))
    {
      if outcome.None? {
        outcome := Some(Rejected(message));
      }
    }

    /** `rg.stdout.on('data')` (src/index.ts:403-410). */
    method OnStdoutData(chunk: string)
      modifies this
      ensures State() == Step(old(State()), StdoutData(chunk))
    {
      stdout := stdout + chunk;
      if |stdout| > OutputLimit {
        killed := true;
        Resolve(stdout + TruncationMarker);
      }
    }

    /** `rg.stderr.on('data')` (src/index.ts:412-414). */
    method OnStderrData(chunk: string)
      modifies this
      ensures State() == Step(old(State()), StderrData(chunk))
    {
      stderr := stderr + chunk;
    }

    /** `rg.on('close')` (src/index.ts:416-425). */
    method OnClose(code: Option<int>)
      modifies this
      ensures State() == Step(old(State()), Close(code))
    {
      timerArmed := false;
      if code == Some(0) {
        Resolve(stdout);
      } else if code == Some(1) {
        Resolve(stdout);
      } else {
        Reject(ExitMessage(code, stderr));
      }
    }

    /** `rg.on('error')` (src/index.ts:427-430). */
    method OnError(message: string)
      modifies this
      ensures State() == Step(old(State()), SpawnError(message))
    {
      timerArmed := false;
      Reject(SpawnFailureMessage(message));
    }

    /** The timer callback; a cleared timer does not fire (src/index.ts:389-392). */
    method OnTimer()
      modifies this
      ensures State() == Step(old(State()), TimerFired)
    {
      if timerArmed {
        timerArmed := false;
        killed := true;
        Reject(TimeoutMessage);
      }
    }
  }
}
