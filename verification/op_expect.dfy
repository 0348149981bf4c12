/** `OPexpect.spawn.expect`: pexpect with fourteen fatal console patterns put in front of the
    caller's list. A fatal match raises; any other match is reported in the caller's numbering. */
module OpExpect {

  const FATAL_PATTERNS: nat := 14

  datatype Fault =
    | CommandFailed | KernelSoftLockup | KernelBug | KernelHardLockup | KernelKdump | KernelFadump
    | KernelPanic | KernelOops | KernelCrashUnknown | SkibootAssert | SkibootException | PlatformError
    | ConsoleLost
    | BrokenLog  // not a fault of its own: a TypeError while the log is put together

  /** What the underlying expect did: an index into the extended list, or an exception of its own. */
  datatype Raw = Matched(index: nat) | Lost

  datatype Outcome =
    | Index(i: nat)
    | Raises(fault: Fault, marked: bool)  // marked: the failure callback set the system to UNKNOWN_BAD

  /** Index into the nine patterns (the last is TIMEOUT) read after a kernel failure. */
  type FollowUp = n: nat | n < 9

  /** One call's worth of console behaviour. `follow` lists the matches of the reads that chase the
      end of a kernel failure; when it runs out, the next read raises. `tail` is how the reading that
      follows a firmware failure ends. */
  datatype Console = Console(raw: Raw, follow: seq<FollowUp>, tail: Tail)

  /** The reading found its text, timed out, or raised. */
  datatype Tail = Read | TimedOut | Gone

  predicate EndsKernelReport(l: FollowUp) {
    l in {2, 3, 4, 7, 8}
  }

  /** How many follow-up reads happen before the report is over or the console is lost. */
  function ReportLength(follow: seq<FollowUp>): (n: nat)
    ensures n <= |follow|
    ensures forall i :: 0 <= i < n - 1 ==> !EndsKernelReport(follow[i])
    ensures n < |follow| ==> n > 0 && EndsKernelReport(follow[n - 1])
  {
    if |follow| == 0 then 0
    else if EndsKernelReport(follow[0]) then 1
    else 1 + ReportLength(follow[1..])
  }

  predicate ReportComplete(follow: seq<FollowUp>) {
    exists i :: 0 <= i < |follow| && EndsKernelReport(follow[i])
  }

  lemma {:induction false} CompleteReportEnds(follow: seq<FollowUp>)
    ensures ReportComplete(follow)
            <==> ReportLength(follow) > 0 && EndsKernelReport(follow[ReportLength(follow) - 1])
  {
    if |follow| > 0 && !EndsKernelReport(follow[0]) {
      CompleteReportEnds(follow[1..]);
      if ReportComplete(follow) {
        var i :| 0 <= i < |follow| && EndsKernelReport(follow[i]);
        assert EndsKernelReport(follow[1..][i - 1]);
      }
    }
  }

  function KernelFault(r: nat, l: FollowUp): Fault
    requires 1 <= r <= 8
  {
    match r
    case 1 => KernelSoftLockup
    case 8 => KernelSoftLockup
    case 2 => KernelBug
    case 3 => if l == 2 then KernelKdump else if l == 7 then KernelFadump else KernelPanic
    case 5 => KernelOops
    case _ => KernelHardLockup
  }

  /** After a skiboot failure TIMEOUT is in the list of the follow-up read, so that a timeout leaves the
      class TIMEOUT in `after`, and adding it to the log is a TypeError. The reads after a platform error
      have no such entry, and their timeout is caught. */
  function FirmwareFault(r: nat, tail: Tail): Fault
    requires 9 <= r <= 13
  {
    match tail
    case Gone => ConsoleLost
    case Read => if r == 13 then PlatformError else if r == 10 then SkibootException else SkibootAssert
    case TimedOut => if r == 13 then PlatformError else BrokenLog
  }

  /** The outcome for a caller's list of `listed` patterns. pexpect only returns indices into the
      extended list, so an index beyond it counts as a lost console.

      Index shifting loses nothing: the caller sees entry `i` exactly when its own entry `i` matched,
      and every fatal pattern raises. `KernelCrashUnknown` is never raised, and the two skiboot
      failures only if their follow-up read found its text. */
  function Expected(callback: bool, listed: nat, c: Console): (o: Outcome)
    ensures forall i: nat :: o == Index(i) <==> c.raw == Matched(FATAL_PATTERNS + i) && i < listed
    ensures c.raw.Matched? && c.raw.index < FATAL_PATTERNS ==>
              o.Raises? && o.marked == (callback && c.raw.index > 0)
    ensures o.Raises? ==> o.fault != KernelCrashUnknown
    ensures o.Raises? && o.fault in {SkibootAssert, SkibootException} <==>
              c.raw.Matched? && 9 <= c.raw.index <= 12 && c.tail.Read?
    ensures o.Raises? && o.fault == BrokenLog <==> c.raw.Matched? && 9 <= c.raw.index <= 12 && c.tail.TimedOut?
  {
    if c.raw.Lost? || c.raw.index >= FATAL_PATTERNS + listed then Raises(ConsoleLost, false)
    else
      var r := c.raw.index;
      if r >= FATAL_PATTERNS then Index(r - FATAL_PATTERNS)
      else if r == 0 then Raises(CommandFailed, false)
      else if r <= 8 then
        Raises(if ReportComplete(c.follow) then KernelFault(r, c.follow[ReportLength(c.follow) - 1]) else ConsoleLost,
               callback)
      else Raises(FirmwareFault(r, c.tail), callback)
  }

  /** What a raised failure tells about the console: which pattern matched, and for a kernel failure that its
      report came to an end, and for a panic which end. */
  lemma FaultTells(callback: bool, listed: nat, c: Console)
    ensures var o := Expected(callback, listed, c);
            var matched := if c.raw.Matched? then c.raw.index else FATAL_PATTERNS + listed;
            var ended := ReportComplete(c.follow);
            var last := if ReportLength(c.follow) > 0 then c.follow[ReportLength(c.follow) - 1] else 0;
            o.Raises? ==>
              && (o.fault == CommandFailed <==> matched == 0)
              && (o.fault == KernelSoftLockup <==> matched in {1, 8} && ended)
              && (o.fault == KernelBug <==> matched == 2 && ended)
              && (o.fault == KernelKdump <==> matched == 3 && ended && last == 2)
              && (o.fault == KernelFadump <==> matched == 3 && ended && last == 7)
              && (o.fault == KernelPanic <==> matched == 3 && ended && last !in {2, 7})
              && (o.fault == KernelHardLockup <==> matched in {4, 6, 7} && ended)
              && (o.fault == KernelOops <==> matched == 5 && ended)
              && (o.fault == SkibootException <==> matched == 10 && c.tail.Read?)
              && (o.fault == PlatformError <==> matched == 13 && !c.tail.Gone?)
  {
    CompleteReportEnds(c.follow);
  }

  /** `spawn.expect`. The log of a kernel failure holds its follow-up reads up to and including the
      first one that ends the report. */
  method Expect(callback: bool, listed: nat, c: Console) returns (o: Outcome, log: seq<FollowUp>)
    ensures o == Expected(callback, listed, c)
    ensures c.raw.Matched? && 1 <= c.raw.index <= 8 && c.raw.index < FATAL_PATTERNS + listed ==>
              log == c.follow[..ReportLength(c.follow)]
  {
    log := [];
    if c.raw.Lost? || c.raw.index >= FATAL_PATTERNS + listed {
      return Raises(ConsoleLost, false), log;
    }
    var r := c.raw.index;
    if r == 0 {
      return Raises(CommandFailed, false), log;
    }
    var marked := false;
    if 1 <= r <= 13 && callback {
      marked := true;
    }
    if 1 <= r <= 8 {
      CompleteReportEnds(c.follow);
      var l: FollowUp := 0;
      var n := 0;
      while l != 8
        invariant n <= ReportLength(c.follow)
        invariant log == c.follow[..n]
        invariant n > 0 ==> l == c.follow[n - 1] && (l == 8 || !EndsKernelReport(l))
        invariant n == 0 ==> l == 0
        invariant n > 0 && l == 8 ==> n == ReportLength(c.follow)
        decreases |c.follow| - n
      {
        if n == |c.follow| {
          return Raises(ConsoleLost, marked), log;
        }
        l := c.follow[n];
        n := n + 1;
        log := log + [l];
        if l in {2, 3, 4, 7} {
          break;
        }
      }
      assert EndsKernelReport(l) && n == ReportLength(c.follow);
      if r == 1 || r == 8 { return Raises(KernelSoftLockup, marked), log; }
      if r == 2 { return Raises(KernelBug, marked), log; }
      if r == 4 || r == 6 || r == 7 { return Raises(KernelHardLockup, marked), log; }
      if r == 3 && l == 2 { return Raises(KernelKdump, marked), log; }
      if r == 3 && l == 7 { return Raises(KernelFadump, marked), log; }
      if r == 3 { return Raises(KernelPanic, marked), log; }
      if r == 5 { return Raises(KernelOops, marked), log; }
      // Unreachable: the branches above cover every r from 1 to 8.
      assert false;
      if l == 8 { return Raises(KernelCrashUnknown, marked), log; }
    }
    if 9 <= r <= 12 {
      if c.tail.Gone? { return Raises(ConsoleLost, marked), log; }
      if c.tail.TimedOut? { return Raises(BrokenLog, marked), log; }
      if r == 9 || r == 11 || r == 12 { return Raises(SkibootAssert, marked), log; }
      if r == 10 { return Raises(SkibootException, marked), log; }
    }
    if r == 13 {
      if c.tail.Gone? { return Raises(ConsoleLost, marked), log; }
      return Raises(PlatformError, marked), log;
    }
    o := Index(r - FATAL_PATTERNS);
  }
}
