/** The cooperative cancel/timeout state machine of `AlgorithmImpl`, as pure
    transitions over the three fields `cancelRequested`, `canceled` and
    `timeoutMillis`. The class `Algorithm.AlgorithmImpl` performs these
    transitions in place. */
module CancelTimeout {
  import opened JavaLang

  datatype Flags = Flags(cancelRequested: bool, canceled: bool, timeoutMillis: Long)

  /** One call of `Progress.report(message, fraction)`. */
  datatype Report = Report(message: string, fraction: real)

  const CANCELED_MESSAGE: string := "Algorithm was canceled"
  const TIMEOUT_MESSAGE: string := "Algorithm exceeded time limit"

  /** What one `checkCancelTimeout()` call leaves behind: the new fields, its
      return value and the progress reports it emitted. */
  datatype CheckOutcome = CheckOutcome(flags: Flags, stop: bool, reports: seq<Report>)

  /** `cancel()`: only raises the request; it is observed at the next check. */
  function Requested(f: Flags): (g: Flags)
    ensures g.cancelRequested && g.canceled == f.canceled && g.timeoutMillis == f.timeoutMillis
  {
    f.(cancelRequested := true)
  }

  /** The deadline fixed by `onStart`: `Long.MAX_VALUE` without a time limit,
      otherwise the start time plus the limit in milliseconds, in `long`
      arithmetic. */
  function Deadline(timeLimitSeconds: Option<Int32>, now: Long): (d: Long)
    ensures timeLimitSeconds.None? ==> d == LONG_MAX
    ensures timeLimitSeconds.Some? && LONG_MIN <= now + 1000 * timeLimitSeconds.value <= LONG_MAX ==>
              d == now + 1000 * timeLimitSeconds.value
  {
    match timeLimitSeconds
    case None => LONG_MAX
    case Some(seconds) => WrapLong(now + 1000 * seconds)
  }

  /** `onStart(...)`: clears `canceled`, keeps a pending cancel request and
      fixes the deadline. */
  function Started(f: Flags, timeLimitSeconds: Option<Int32>, now: Long): (g: Flags)
    ensures !g.canceled && g.cancelRequested == f.cancelRequested
  {
    Flags(f.cancelRequested, false, Deadline(timeLimitSeconds, now))
  }

  /** `checkCancelTimeout()` at clock reading `now`. */
  function Check(f: Flags, now: Long): (r: CheckOutcome)
    // an earlier stop is remembered: stop again, silently, changing nothing
    ensures f.canceled ==> r == CheckOutcome(f, true, [])
    // the call stops exactly when cancellation was seen or the deadline is strictly past
    ensures r.stop <==> f.canceled || f.cancelRequested || now > f.timeoutMillis
    // a stop is permanent until the next start; a non-stop changes nothing
    ensures r.stop ==> r.flags.canceled && r.flags.timeoutMillis == f.timeoutMillis
    ensures !r.stop ==> r.flags == f && r.reports == []
    // a newly observed stop reports exactly once, with fraction 1.0
    ensures r.stop && !f.canceled ==> |r.reports| == 1 && r.reports[0].fraction == 1.0
    ensures r.stop && !f.canceled && f.cancelRequested ==>
              !r.flags.cancelRequested && r.reports == [Report(CANCELED_MESSAGE, 1.0)]
    ensures r.stop && !f.canceled && !f.cancelRequested ==>
              r.flags.cancelRequested == f.cancelRequested && r.reports == [Report(TIMEOUT_MESSAGE, 1.0)]
  {
    if f.canceled then
      CheckOutcome(f, true, [])
    else if f.cancelRequested then
      CheckOutcome(f.(canceled := true, cancelRequested := false), true, [Report(CANCELED_MESSAGE, 1.0)])
    else if now > f.timeoutMillis then
      CheckOutcome(f.(canceled := true), true, [Report(TIMEOUT_MESSAGE, 1.0)])
    else
      CheckOutcome(f, false, [])
  }

  /** A call made on the algorithm during one run (between two starts). */
  datatype Call = CancelCall | CheckCall(now: Long)

  /** The effect of a sequence of calls: the final fields, the value each check
      returned, and every report, in order. */
  datatype Trace = Trace(flags: Flags, stops: seq<bool>, reports: seq<Report>)

  function Replay(f: Flags, calls: seq<Call>): (t: Trace)
    // neither call touches the deadline, and each call returns at most one value
    ensures t.flags.timeoutMillis == f.timeoutMillis
    ensures |t.stops| <= |calls|
    decreases |calls|
  {
    if calls == [] then Trace(f, [], [])
    else match calls[0]
      case CancelCall => Replay(Requested(f), calls[1..])
      case CheckCall(now) =>
        var c := Check(f, now);
        var t := Replay(c.flags, calls[1..]);
        Trace(t.flags, [c.stop] + t.stops, c.reports + t.reports)
  }

  /** However cancels and checks interleave within a run, progress hears of the
      stop at most once, and not at all if the run was already canceled. */
  lemma {:induction false} AtMostOneReport(f: Flags, calls: seq<Call>)
    ensures |Replay(f, calls).reports| <= (if f.canceled then 0 else 1)
    ensures f.canceled ==> Replay(f, calls).flags.canceled
    decreases |calls|
  {
    if calls != [] {
      match calls[0]
      case CancelCall =>
        AtMostOneReport(Requested(f), calls[1..]);
      case CheckCall(now) =>
        AtMostOneReport(Check(f, now).flags, calls[1..]);
    }
  }

  /** Once a check has returned true, every later check of the run returns
      true as well. */
  lemma {:induction false} StopIsPermanent(f: Flags, calls: seq<Call>)
    ensures f.canceled ==> forall k :: 0 <= k < |Replay(f, calls).stops| ==> Replay(f, calls).stops[k]
    ensures forall i, j :: 0 <= i < j < |Replay(f, calls).stops| && Replay(f, calls).stops[i] ==>
              Replay(f, calls).stops[j]
    decreases |calls|
  {
    if calls != [] {
      match calls[0]
      case CancelCall =>
        StopIsPermanent(Requested(f), calls[1..]);
      case CheckCall(now) =>
        var c := Check(f, now);
        StopIsPermanent(c.flags, calls[1..]);
    }
  }

  /** A `cancel()` issued before `onStart` survives it, so the first check of
      the run stops with the cancellation report. */
  lemma CancelBeforeStartStopsFirstCheck(f: Flags, timeLimitSeconds: Option<Int32>, start: Long, now: Long)
    ensures var r := Check(Started(Requested(f), timeLimitSeconds, start), now);
      r.stop && r.reports == [Report(CANCELED_MESSAGE, 1.0)] && r.flags.canceled && !r.flags.cancelRequested
  {
  }

  /** Without a time limit no clock reading can trigger the timeout. */
  lemma NoTimeLimitNeverTimesOut(f: Flags, start: Long, now: Long)
    requires !f.cancelRequested
    ensures !Check(Started(f, None, start), now).stop
  {
  }

  /** With a limit of `seconds`, the timeout fires exactly when the clock is
      strictly past `start + 1000 * seconds` (when that sum fits in a `long`). */
  lemma TimeoutIsStrictlyAfterDeadline(f: Flags, seconds: Int32, start: Long, now: Long)
    requires !f.cancelRequested && LONG_MIN <= start + 1000 * seconds <= LONG_MAX
    ensures var r := Check(Started(f, Some(seconds), start), now);
      r.stop <==> now > start + 1000 * seconds
    ensures var r := Check(Started(f, Some(seconds), start), now);
      r.stop ==> r.reports == [Report(TIMEOUT_MESSAGE, 1.0)]
  {
  }
}
