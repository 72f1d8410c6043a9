/** The verdict decisions of the three backends: pkg/sandbox/docker.go,
    native_linux.go and dev_process.go. */
module Verdicts {
  import opened Models
  import opened Buffers

  /** What a backend observed of one run. */
  datatype Observation = Observation(
    timedOut: bool,
    wallMs: real,
    exitCode: int,
    oomKilled: bool,
    peakBytes: int,
    stdout: seq<string>,
    stderr: seq<string>)

  predicate IsLineEnd(c: char) { c == '\r' || c == '\n' }

  /** The text without its trailing line ends. */
  function TrimRight(s: string): (t: string)
    ensures t <= s
    ensures t == "" || !IsLineEnd(t[|t| - 1])
    ensures forall i :: |t| <= i < |s| ==> IsLineEnd(s[i])
  {
    if s == "" || !IsLineEnd(s[|s| - 1]) then s else TrimRight(s[..|s| - 1])
  }

  function OutputOf(o: Observation, l: Limits): string {
    Captured(Stream(o.stdout), Cap(l.outputBytes))
  }

  ghost predicate Truncated(o: Observation, l: Limits) {
    Overflows(o.stdout, Cap(l.outputBytes)) || Overflows(o.stderr, Cap(l.outputBytes))
  }

  predicate Mismatch(o: Observation, l: Limits, expected: string) {
    expected != "" && TrimRight(OutputOf(o, l)) != TrimRight(expected)
  }

  predicate Late(o: Observation, l: Limits) { o.wallMs > l.timeMs as real }

  predicate OverMemory(o: Observation, l: Limits) { o.peakBytes > l.memoryMB * 1024 * 1024 }

  ghost function NativeVerdict(o: Observation, l: Limits, expected: string): Verdict {
    if o.timedOut || Late(o, l) then TimeLimitExceeded
    else if o.oomKilled || OverMemory(o, l) then MemoryLimitExceeded
    else if Truncated(o, l) then OutputLimitExceeded
    else if o.exitCode != 0 then RuntimeError
    else if Mismatch(o, l, expected) then WrongAnswer
    else Accepted
  }

  ghost function DevVerdict(o: Observation, l: Limits, expected: string): Verdict {
    if o.timedOut || Late(o, l) then TimeLimitExceeded
    else if o.exitCode != 0 then RuntimeError
    else if Truncated(o, l) then OutputLimitExceeded
    else if Mismatch(o, l, expected) then WrongAnswer
    else Accepted
  }

  /** The first of docker's two decisions: was the run late or killed for time? */
  function DockerTiming(o: Observation, l: Limits): Verdict {
    if (Late(o, l) || o.exitCode == 124 || (o.exitCode == 137 && !o.oomKilled)) && o.wallMs >= l.timeMs as real
    then TimeLimitExceeded else Accepted
  }

  ghost function DockerVerdict(o: Observation, l: Limits, expected: string): Verdict {
    var v := DockerTiming(o, l);
    if o.oomKilled || (o.exitCode == 137 && o.oomKilled) then MemoryLimitExceeded
    else if v == Accepted && o.exitCode != 0 then RuntimeError
    else if Truncated(o, l) then OutputLimitExceeded
    else if v == Accepted && Mismatch(o, l, expected) then WrongAnswer
    else v
  }

  datatype Chain = NativeChain | DockerChain | DevChain

  ghost function Decide(c: Chain, o: Observation, l: Limits, expected: string): Verdict {
    match c
    case NativeChain => NativeVerdict(o, l, expected)
    case DockerChain => DockerVerdict(o, l, expected)
    case DevChain => DevVerdict(o, l, expected)
  }

  // ---- The decision as the backends take it -----------------------------

  /** Buffer both streams, then decide, in the order of the given backend. */
  method Judge(c: Chain, o: Observation, l: Limits, expected: string) returns (v: Verdict)
    ensures v == Decide(c, o, l, expected)
  {
    var out, outExceeded, _ := Capture(o.stdout, l.outputBytes);
    var _, errExceeded, _ := Capture(o.stderr, l.outputBytes);
    var truncated := outExceeded || errExceeded;
    var wrong := expected != "" && TrimRight(out) != TrimRight(expected);
    v := Accepted;
    match c {
      case NativeChain =>
        if o.timedOut || Late(o, l) {
          v := TimeLimitExceeded;
        } else if o.oomKilled || OverMemory(o, l) {
          v := MemoryLimitExceeded;
        } else if truncated {
          v := OutputLimitExceeded;
        } else if o.exitCode != 0 {
          v := RuntimeError;
        } else if wrong {
          v := WrongAnswer;
        }
      case DockerChain =>
        if Late(o, l) || o.exitCode == 124 || (o.exitCode == 137 && !o.oomKilled) {
          if o.wallMs >= l.timeMs as real {
            v := TimeLimitExceeded;
          }
        }
        if o.oomKilled || (o.exitCode == 137 && o.oomKilled) {
          v := MemoryLimitExceeded;
        } else if v == Accepted && o.exitCode != 0 {
          v := RuntimeError;
        } else if truncated {
          v := OutputLimitExceeded;
        } else if v == Accepted && expected != "" {
          if wrong {
            v := WrongAnswer;
          }
        }
      case DevChain =>
        if o.timedOut || Late(o, l) {
          v := TimeLimitExceeded;
        } else if o.exitCode != 0 {
          v := RuntimeError;
        } else if truncated {
          v := OutputLimitExceeded;
        } else if wrong {
          v := WrongAnswer;
        }
    }
  }

  // ---- What ACCEPTED means ----------------------------------------------

  /** The whole stream printed by the program, not just its captured part,
      equals the expected output up to trailing line ends, and fits the cap. */
  ghost predicate PrintedExpected(o: Observation, l: Limits, expected: string) {
    && |Stream(o.stdout)| <= Cap(l.outputBytes)
    && TrimRight(Stream(o.stdout)) == TrimRight(expected)
  }

  /** In all three backends ACCEPTED with an expected output certifies the
      entire output, a clean exit and the time limit. */
  lemma AcceptedMeansPrinted(c: Chain, o: Observation, l: Limits, expected: string)
    requires Decide(c, o, l, expected) == Accepted
    ensures expected != "" ==> PrintedExpected(o, l, expected)
    ensures |Stream(o.stdout)| <= Cap(l.outputBytes) && |Stream(o.stderr)| <= Cap(l.outputBytes)
    ensures o.exitCode == 0 && !Late(o, l)
    ensures (!c.DevChain? ==> !o.oomKilled) && (c.NativeChain? ==> !OverMemory(o, l))
  {
    NoOverflowMeansWhole(o.stdout, Cap(l.outputBytes));
    NoOverflowMeansWhole(o.stderr, Cap(l.outputBytes));
  }

  /** Every byte was captured, yet an empty write at the full buffer set the flag. */
  predicate FalseAlarm(o: Observation, l: Limits) {
    FullThenEmpty(o.stdout, Cap(l.outputBytes)) || FullThenEmpty(o.stderr, Cap(l.outputBytes))
  }

  /** And conversely: a clean run in time and memory that loses no output is
      ACCEPTED, everywhere, exactly if it prints what is expected and meets no
      false alarm of its buffers. */
  lemma CleanRunIsAccepted(c: Chain, o: Observation, l: Limits, expected: string)
    requires o.exitCode == 0 && !o.timedOut && !Late(o, l) && !o.oomKilled && !OverMemory(o, l)
    requires |Stream(o.stdout)| <= Cap(l.outputBytes) && |Stream(o.stderr)| <= Cap(l.outputBytes)
    ensures Decide(c, o, l, expected) == Accepted
       <==> !FalseAlarm(o, l) && (expected == "" || TrimRight(Stream(o.stdout)) == TrimRight(expected))
  {
    OverflowsExactly(o.stdout, Cap(l.outputBytes));
    OverflowsExactly(o.stderr, Cap(l.outputBytes));
    if !Truncated(o, l) {
      NoOverflowMeansWhole(o.stdout, Cap(l.outputBytes));
    }
  }

  // ---- Where the three chains agree -------------------------------------

  /** Memory is not the issue, and a timeout shows in the wall time. */
  predicate Comparable(o: Observation, l: Limits) {
    !o.oomKilled && !OverMemory(o, l) && (o.timedOut ==> Late(o, l))
  }

  /** On comparable observations the three chains agree on ACCEPTED. */
  lemma ChainsAgreeOnAccepted(o: Observation, l: Limits, expected: string)
    requires Comparable(o, l)
    ensures NativeVerdict(o, l, expected) == Accepted
       <==> DockerVerdict(o, l, expected) == Accepted
    ensures NativeVerdict(o, l, expected) == Accepted
       <==> DevVerdict(o, l, expected) == Accepted
  {
  }

  /** The observations that tell the chains apart: truncated output of a run
      that was also late or failed, and a run that used exactly the time limit
      and exited with the codes docker reads as a kill. */
  ghost predicate Contested(o: Observation, l: Limits) {
    || (Truncated(o, l) && (Late(o, l) || o.exitCode != 0))
    || (o.wallMs == l.timeMs as real && (o.exitCode == 124 || o.exitCode == 137))
  }

  /** On comparable observations all three verdicts coincide exactly when the
      observation is not contested. */
  lemma ChainsAgreeExactly(o: Observation, l: Limits, expected: string)
    requires Comparable(o, l)
    ensures (NativeVerdict(o, l, expected) == DockerVerdict(o, l, expected) == DevVerdict(o, l, expected))
       <==> !Contested(o, l)
  {
  }

  // ---- What every verdict means -----------------------------------------

  /** What each verdict certifies, whichever backend gave it. */
  lemma VerdictsAreJustified(c: Chain, o: Observation, l: Limits, expected: string)
    ensures var v := Decide(c, o, l, expected);
            && (v == TimeLimitExceeded ==> o.timedOut || o.wallMs >= l.timeMs as real)
            && (v == MemoryLimitExceeded ==> o.oomKilled || o.peakBytes > l.memoryMB * 1024 * 1024)
            && (v == OutputLimitExceeded ==>
                  Overflows(o.stdout, Cap(l.outputBytes)) || Overflows(o.stderr, Cap(l.outputBytes)))
            && (v == RuntimeError ==> o.exitCode != 0)
            && (v == WrongAnswer ==>
                  expected != "" && o.exitCode == 0
                  && TrimRight(Stream(o.stdout)) != TrimRight(expected) && |Stream(o.stdout)| <= Cap(l.outputBytes))
            && v != SystemError && v != CompilationError
  {
    if Decide(c, o, l, expected) == WrongAnswer {
      NoOverflowMeansWhole(o.stdout, Cap(l.outputBytes));
    }
  }

  /** The native chain: time, then memory, then output size, then exit code, then the answer. */
  lemma NativeMeans(o: Observation, l: Limits, expected: string)
    ensures var v := Decide(NativeChain, o, l, expected);
            var late := o.timedOut || o.wallMs > l.timeMs as real;
            var greedy := o.oomKilled || o.peakBytes > l.memoryMB * 1024 * 1024;
            && (v == TimeLimitExceeded <==> late)
            && (v == MemoryLimitExceeded <==> !late && greedy)
            && (v == OutputLimitExceeded <==> !late && !greedy && Truncated(o, l))
            && (v == RuntimeError <==> !late && !greedy && !Truncated(o, l) && o.exitCode != 0)
            && (v == WrongAnswer <==>
                  !late && !greedy && !Truncated(o, l) && o.exitCode == 0 && Mismatch(o, l, expected))
            && (v == Accepted <==>
                  !late && !greedy && !Truncated(o, l) && o.exitCode == 0 && !Mismatch(o, l, expected))
  {
  }

  /** Docker: an OOM kill comes first; an overrun, or the exit code of a kill at or past
      the limit, hides the exit code but not the output size. */
  lemma DockerMeans(o: Observation, l: Limits, expected: string)
    ensures var v := Decide(DockerChain, o, l, expected);
            var killed := (o.wallMs > l.timeMs as real || o.exitCode == 124 || o.exitCode == 137)
                          && o.wallMs >= l.timeMs as real;
            && (v == MemoryLimitExceeded <==> o.oomKilled)
            && (v == RuntimeError <==> !o.oomKilled && !killed && o.exitCode != 0)
            && (v == OutputLimitExceeded <==> !o.oomKilled && (killed || o.exitCode == 0) && Truncated(o, l))
            && (v == TimeLimitExceeded <==> !o.oomKilled && killed && !Truncated(o, l))
            && (v == WrongAnswer <==>
                  !o.oomKilled && !killed && o.exitCode == 0 && !Truncated(o, l) && Mismatch(o, l, expected))
            && (v == Accepted <==>
                  !o.oomKilled && !killed && o.exitCode == 0 && !Truncated(o, l) && !Mismatch(o, l, expected))
  {
  }

  /** The development chain: time, then exit code, then output size, then the answer;
      memory plays no part. */
  lemma DevMeans(o: Observation, l: Limits, expected: string)
    ensures var v := Decide(DevChain, o, l, expected);
            var late := o.timedOut || o.wallMs > l.timeMs as real;
            && v != MemoryLimitExceeded
            && (v == TimeLimitExceeded <==> late)
            && (v == RuntimeError <==> !late && o.exitCode != 0)
            && (v == OutputLimitExceeded <==> !late && o.exitCode == 0 && Truncated(o, l))
            && (v == WrongAnswer <==> !late && o.exitCode == 0 && !Truncated(o, l) && Mismatch(o, l, expected))
            && (v == Accepted <==> !late && o.exitCode == 0 && !Truncated(o, l) && !Mismatch(o, l, expected))
  {
  }
}
