/** What detection finds, told from its observations: the exact conditions under which a probe yields the
    target, raises or enters the reboot, and what the two phases of `run_DETECT` make of two probes. */
module HostDetection {
  import opened OpExpect
  import opened WaitForIt
  import opened WaitEnds
  import opened HostSpec
  import opened HostTermination
  import opened HostSafety

  // ----- One probe -----

  const TARGETS := {OS, PETITBOOT, PETITBOOT_SHELL}

  /** ssh answers with the very state that is looked for. */
  predicate SshAgrees(t: St, e: ProbeEnv) {
    (t == OS && e.ssh.SawOs?) || (t == PETITBOOT_SHELL && e.ssh.SawShell?)
  }

  /** The console is consulted: ssh says nothing, or is not asked, or sees the shell on the way to an OS
      that may not be rebooted. */
  predicate AsksConsole(allowed: bool, t: St, e: ProbeEnv) {
    e.ssh.SawNothing? || t !in {OS, PETITBOOT_SHELL} || (t == OS && e.ssh.SawShell? && !allowed)
  }

  /** The kernel check names the target. */
  predicate KernelAgrees(t: St, e: ProbeEnv) {
    (t == OS && e.kernel == KernelIs(SawOs)) || (t == PETITBOOT_SHELL && e.kernel == KernelIs(SawShell))
  }

  /** The petitboot shell is left for petitboot. */
  predicate LeavesShell(t: St, e: ProbeEnv) {
    t == PETITBOOT && e.kernel == KernelIs(SawShell)
  }

  /** The probe finds the target. `allowed` says whether it may reboot the host. */
  predicate Finds(allowed: bool, t: St, e: ProbeEnv) {
    || SshAgrees(t, e)
    || (AsksConsole(allowed, t, e) && e.console.Fine? &&
        if e.r <= 1 then t == PETITBOOT || (t == PETITBOOT_SHELL && e.action.Fine?)
        else if e.r <= 3 then
          || KernelAgrees(t, e) || (LeavesShell(t, e) && e.action.Fine?)
          || (t == PETITBOOT_SHELL && !allowed && e.kernel.KernelIs?)
        else e.r == 4 && t == OS)
  }

  /** The probe raises. */
  predicate Raises(allowed: bool, t: St, e: ProbeEnv, reboots: bool) {
    || (reboots && e.rebootStep.Broke?)
    || (AsksConsole(allowed, t, e) && !SshAgrees(t, e) &&
        (|| e.console.Broke?
         || (e.r <= 1 && e.action.Broke? && (t == PETITBOOT_SHELL || (t == OS && allowed)))
         || (e.r in {2, 3} && (e.kernel.KernelRaises? || (LeavesShell(t, e) && e.action.Broke?)))))
  }

  lemma PromptExactly(m: Machine, t: St, reboot: bool, e: ProbeEnv)
    requires t in TARGETS
    ensures var c := ProbePrompt(m, t, reboot, e);
            && (c.Saw? && c.s == t <==>
                  KernelAgrees(t, e) || (LeavesShell(t, e) && e.action.Fine?)
                  || (t == PETITBOOT_SHELL && !reboot && e.kernel.KernelIs?))
            && (c.ProbeRaised? <==>
                  || e.kernel.KernelRaises? || (LeavesShell(t, e) && e.action.Broke?)
                  || (reboot && !KernelAgrees(t, e) && !LeavesShell(t, e) && e.rebootStep.Broke?))
  {
    hide WaitFor;
  }

  lemma MenuExactly(m: Machine, t: St, reboot: bool, e: ProbeEnv)
    requires t in TARGETS
    ensures var c := ProbeMenu(m, t, reboot, e);
            && (c.Saw? && c.s == t <==> t == PETITBOOT || (t == PETITBOOT_SHELL && e.action.Fine?))
            && (c.ProbeRaised? <==>
                  || (e.action.Broke? && (t == PETITBOOT_SHELL || (t == OS && reboot)))
                  || (t == OS && reboot && e.rebootStep.Broke?))
  {
    hide WaitFor;
  }

  lemma RebootExactly(m: Machine, t: St, e: ProbeEnv)
    ensures var c := Reboot(m, t, e); (c.ProbeRaised? <==> e.rebootStep.Broke?) && (c.Saw? ==> c.s == UNKNOWN)
  {
    hide WaitFor;
  }

  lemma ConsoleExactly(m: Machine, t: St, reboot: bool, e: ProbeEnv)
    requires t in TARGETS
    ensures var c := ProbeConsole(m, t, reboot, e);
            && (c.Saw? && c.s == t <==>
                  e.console.Fine? &&
                  if e.r <= 1 then t == PETITBOOT || (t == PETITBOOT_SHELL && e.action.Fine?)
                  else if e.r <= 3 then
                    || KernelAgrees(t, e) || (LeavesShell(t, e) && e.action.Fine?)
                    || (t == PETITBOOT_SHELL && !reboot && e.kernel.KernelIs?)
                  else e.r == 4 && t == OS)
            && (c.ProbeRaised? <==>
                  || e.console.Broke?
                  || (e.r <= 1 && e.action.Broke? && (t == PETITBOOT_SHELL || (t == OS && reboot)))
                  || (e.r in {2, 3} && (e.kernel.KernelRaises? || (LeavesShell(t, e) && e.action.Broke?)))
                  || (e.rebootStep.Broke? && reboot &&
                      if e.r <= 1 then t == OS
                      else if e.r <= 3 then !KernelAgrees(t, e) && !LeavesShell(t, e)
                      else e.r == 4 && t != OS))
  {
    PromptExactly(m, t, reboot, e);
    MenuExactly(m, t, reboot, e);
    RebootExactly(m, t, e);
    hide ProbePrompt, ProbeMenu, Reboot;
  }

  lemma ProbeFindsExactly(m: Machine, t: St, e: ProbeEnv)
    requires t in TARGETS
    ensures var c := Probe(m, t, e); c.Saw? && c.s == t <==> Finds(m.neverRebooted, t, e)
  {
    ProbeRoutes(m, t, e);
    hide Probe;
    ConsoleExactly(m, t, m.neverRebooted, e);
    RebootExactly(m, t, e);
    hide ProbeConsole, Reboot;
  }

  lemma ProbeRaisesExactly(m: Machine, t: St, e: ProbeEnv)
    requires t in TARGETS
    ensures Probe(m, t, e).ProbeRaised? <==> Raises(m.neverRebooted, t, e, Rebooting(m, t, e))
  {
    ProbeRoutes(m, t, e);
    hide Probe;
    ConsoleExactly(m, t, m.neverRebooted, e);
    RebootExactly(m, t, e);
    hide ProbeConsole, Reboot;
  }

  /** A probe finds the target, and raises, exactly in these cases; otherwise it says UNKNOWN. */
  lemma ProbeExactly(m: Machine, t: St, e: ProbeEnv)
    requires t in TARGETS
    ensures var c := CountedProbe(m, t, e);
            && (c.Saw? && c.s == t <==> Finds(m.neverRebooted, t, e))
            && (c.ProbeRaised? <==> Raises(m.neverRebooted, t, e, Rebooting(m, t, e)))
            && (c.Saw? && c.s != t ==> c.s == UNKNOWN)
  {
    var m0 := m.(tally := m.tally.(probes := m.tally.probes + 1));
    ProbeYieldsTargetOrUnknown(m, t, e);
    ProbeFindsExactly(m0, t, e);
    ProbeRaisesExactly(m0, t, e);
    RebootingLooksAtPermission(m, m0, t, e);
    hide Probe, Finds, Raises, Rebooting;
  }

  /** What ssh says decides between the answer, the console and the reboot. */
  lemma ProbeRoutes(m: Machine, t: St, e: ProbeEnv)
    requires t in TARGETS
    ensures Probe(m, t, e) ==
            if SshAgrees(t, e) then Saw(m, t)
            else if AsksConsole(m.neverRebooted, t, e) then ProbeConsole(m, t, m.neverRebooted, e)
            else if m.neverRebooted then Reboot(m, t, e)
            else Saw(m, UNKNOWN)
  {
    hide ProbeConsole, Reboot;
  }

  // ----- The two phases -----

  /** The first probe neither finds the target nor raises. */
  predicate FirstMisses(m: Machine, t: St, e: ProbeEnv) {
    !Finds(m.neverRebooted, t, e) && !Raises(m.neverRebooted, t, e, Rebooting(m, t, e))
  }

  /** `run_DETECT` finds the target exactly if its first probe does, or if that one misses and a second one,
      still allowed by the counter and without the permission to reboot, does. It raises exactly if one of
      them raises, and says UNKNOWN otherwise. */
  lemma DetectExactly(m: Machine, t: St, d: nat -> ProbeEnv)
    requires t in TARGETS
    ensures var c := Detect(m, t, d);
            var e := d(m.detects + 1);
            && (c.Saw? && c.s == t <==>
                  m.detects < 2 &&
                  (Finds(m.neverRebooted, t, e) || (m.detects == 0 && FirstMisses(m, t, e) && Finds(false, t, d(2)))))
            && (c.ProbeRaised? <==>
                  m.detects < 2 &&
                  (|| Raises(m.neverRebooted, t, e, Rebooting(m, t, e))
                   || (m.detects == 0 && FirstMisses(m, t, e) && Raises(false, t, d(2), false))))
            && (c.Saw? && c.s != t ==> c.s == UNKNOWN)
  {
    hide CountedProbe, Finds, Raises, DetectLoop, Rebooting;
    var m1 := m.(detects := m.detects + 1);
    var e := d(m1.detects);
    ExclusiveOutcomes(m, t, e);
    RebootingLooksAtPermission(m, m1, t, e);
    DetectRound(m1, t, d);
    ProbeExactly(m1, t, e);
    CountedProbeCounts(m1, t, e);
    var c1 := CountedProbe(m1, t, e);
    if c1.Saw? && c1.s == UNKNOWN {
      NoRebootWithoutPermission(c1.m, t, d(2));
      DetectRound(c1.m, t, d);
      ProbeExactly(c1.m, t, d(2));
      CountedProbeCounts(c1.m, t, d(2));
      DetectRound(CountedProbe(c1.m, t, d(2)).m, t, d);
    }
  }

  lemma DetectRound(m: Machine, t: St, d: nat -> ProbeEnv)
    ensures var c := CountedProbe(m, t, d(m.detects));
            DetectLoop(m, t, d) ==
            if m.detects > 2 then Saw(m, UNKNOWN)
            else if c.Saw? && c.s == UNKNOWN then DetectLoop(c.m, t, d)
            else c
  {
    hide CountedProbe;
  }

  /** No probe both finds the target and raises. */
  lemma ExclusiveOutcomes(m: Machine, t: St, e: ProbeEnv)
    requires t in TARGETS
    ensures !(Finds(m.neverRebooted, t, e) && Raises(m.neverRebooted, t, e, Rebooting(m, t, e)))
  {
  }

  lemma RebootingLooksAtPermission(m: Machine, m': Machine, t: St, e: ProbeEnv)
    requires m.neverRebooted == m'.neverRebooted
    ensures Rebooting(m, t, e) == Rebooting(m', t, e)
  {
  }

  lemma NoRebootWithoutPermission(m: Machine, t: St, e: ProbeEnv)
    requires !m.neverRebooted
    ensures !Rebooting(m, t, e)
  {
  }

  // ----- What a probe leaves -----

  /** A reboot waits for the strings of its target, for at most 100 expects. What the wait raises is
      swallowed, but not what the first alarm's callback did to the system; and the probe says UNKNOWN. */
  lemma RebootAlarmStays(m: Machine, t: St, e: ProbeEnv, k: nat)
    requires t in TARGETS && Rebooting(m, t, e) && e.rebootStep.Fine?
    requires e.rebootWait.runtime.Up? && e.rebootWait.connect.Fine?
    requires var cfg := Config(if t == OS then LOGIN_TABLE else PETITBOOT_TABLE, t == OS, 100, 12, true, true);
             && k < 100 && QuietBefore(e.rebootWait.polls, k)
             && e.rebootWait.polls(k).open.Fine? && Alarm(cfg, e.rebootWait.polls(k)).Some?
    ensures var c := CountedProbe(m, t, e);
            var cfg := Config(if t == OS then LOGIN_TABLE else PETITBOOT_TABLE, t == OS, 100, 12, true, true);
            var thrown := Alarm(cfg, e.rebootWait.polls(k)).value;
            && c.Saw? && c.s == UNKNOWN
            && c.m.stop == (m.stop || thrown.stopped)
            && c.m.state == if thrown.bad then UNKNOWN_BAD else m.state
  {
    var m0 := m.(tally := m.tally.(probes := m.tally.probes + 1));
    RebootingLooksAtPermission(m, m0, t, e);
    RebootingReboots(m0, t, e);
    RebootWaits(t, e, k);
    hide WaitFor, Alarm, QuietBefore, Probe, Rebooting;
  }

  lemma RebootWaits(t: St, e: ProbeEnv, k: nat)
    requires e.rebootWait.runtime.Up? && e.rebootWait.connect.Fine?
    requires k < 100 && QuietBefore(e.rebootWait.polls, k)
    requires e.rebootWait.polls(k).open.Fine? && Alarm(RebootConfig(t), e.rebootWait.polls(k)).Some?
    ensures var w := WaitFor(RebootConfig(t), e.rebootWait);
            w.Threw? && w.thrown == Alarm(RebootConfig(t), e.rebootWait.polls(k)).value
  {
    assert forall j :: 0 <= j < k ==> Quiet(e.rebootWait.polls(j));
    FirstAlarmEndsWait(RebootConfig(t), e.rebootWait.polls, START, k);
    hide Wait, Alarm, QuietBefore;
  }

  lemma RebootingReboots(m: Machine, t: St, e: ProbeEnv)
    requires t in TARGETS && Rebooting(m, t, e)
    ensures Probe(m, t, e) == Reboot(m, t, e)
  {
    hide Reboot;
  }

  /** A probe that raises leaves UNKNOWN_BAD if what broke had met a fatal console pattern, and the state as
      it was otherwise; it does not set stop. */
  lemma RaisingProbeLeaves(m: Machine, t: St, e: ProbeEnv)
    ensures var c := CountedProbe(m, t, e);
            c.ProbeRaised? ==>
              var check := if e.kernel.KernelRaises? then Broke(e.kernel.marked) else Fine;
              var marks := {e.console, e.action, e.rebootStep, check};
              && c.m.stop == m.stop
              && (Broke(false) !in marks ==> c.m.state == UNKNOWN_BAD)
              && (Broke(true) !in marks ==> c.m.state == m.state)
  {
    hide WaitFor;
  }
}
