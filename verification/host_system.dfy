/** OpTestSystem and OpTestLPARSystem as an object: its fields, the handlers, the detection phase and the
    `goto_state` loop, each proved to do what `HostSpec` says. */
module HostSystem {
  import opened Wrappers
  import opened WaitForIt
  import opened HostSpec
  import opened HostTermination
  import opened HostSafety
  import HostOutcomes

  /** What a handler call ends with. */
  datatype Reply = To(s: St) | Fail(error: Error)

  ghost function WithReply(r: Reply, m: Machine): Handled {
    match r
    case To(s) => Next(m, s)
    case Fail(e) => Raised(m, e)
  }

  class System {
    const platform: Platform
    const killCord: int
    var state: St
    var stop: bool
    var detectCounter: nat
    var neverRebooted: bool
    var iplWatermark: int
    var bootingWatermark: int
    ghost var tally: Tally

    ghost function Abs(): Machine
      reads this
    {
      Machine(state, stop, detectCounter, neverRebooted, iplWatermark, bootingWatermark, killCord, tally)
    }

    constructor (platform: Platform, state: St)
      ensures Abs() == Machine(state, false, 0, true, 100, 100, 102, NEW_TALLY) && this.platform == platform
    {
      this.platform := platform;
      this.state := state;
      stop := false;
      detectCounter := 0;
      neverRebooted := true;
      iplWatermark := 100;
      bootingWatermark := 100;
      killCord := 102;
      tally := NEW_TALLY;
    }

    method SetState(s: St)
      modifies this
      ensures Abs() == old(Abs()).(state := s)
    {
      state := s;
    }

    /** A console or BMC action that may raise, possibly after a fatal pattern marked the system. */
    method DoAction(s: Step) returns (ok: bool)
      modifies this`state
      ensures ok == s.Fine?
      ensures Abs() == Mark(old(Abs()), s.Broke? && s.marked)
    {
      ok := s.Fine?;
      if s.Broke? && s.marked {
        state := UNKNOWN_BAD;
      }
    }

    method PowerOffHost(e: Env) returns (r: Reply)
      modifies this
      ensures WithReply(r, Abs()) == PowerOff(old(Abs()), e)
    {
      tally := tally.(powerOffs := tally.powerOffs + 1);
      var ok := DoAction(e.first);
      r := if ok then To(POWERING_OFF) else Fail(Action);
    }

    /** `wait_for_it` of the platform, with the effects of its callbacks on this object. */
    method WaitForIt(cfg: Config, e: WaitEnv) returns (w: Result)
      modifies this
      ensures w == WaitFor(cfg, e)
      ensures Abs() == if w.Threw? then Apply(old(Abs()), w.thrown) else old(Abs())
    {
      if e.runtime.HttpDown? {
        return Threw(Thrown(HttpCheck, false, false), 0, 0);
      }
      if e.runtime.Broken? {
        var _ := DoAction(Broke(e.runtime.marked));
        return Threw(Thrown(Other, e.runtime.marked, false), 0, 0);
      }
      var ok := DoAction(e.connect);
      if !ok {
        return Threw(Thrown(Other, e.connect.marked, false), 0, 0);
      }
      w := WaitLoop(cfg, e.polls);
      if w.Threw? {
        if w.thrown.bad {
          state := UNKNOWN_BAD;
        }
        if w.thrown.stopped {
          stop := true;
        }
      }
    }

    method RunUnknown(e: Env) returns (r: Reply)
      modifies this
      ensures WithReply(r, Abs()) == PowerOff(old(Abs()), e)
    {
      r := PowerOffHost(e);
    }

    /** `run_OFF` of OpTestLPARSystem: straight to BOOTING. */
    method LparRunOff(t: St, e: Env) returns (r: Reply)
      requires platform.lpar
      modifies this
      ensures WithReply(r, Abs()) == HandleOff(platform, old(Abs()), t, e)
    {
      if t == OFF {
        return To(OFF);
      }
      if t == UNKNOWN {
        return Fail(Transition);
      }
      if e.power.PowerRaises? {
        var _ := DoAction(Broke(e.power.marked));
        return Fail(PowerTrouble);
      }
      r := To(BOOTING);
    }

    method RunOff(t: St, e: Env) returns (r: Reply)
      requires !platform.lpar
      modifies this
      ensures WithReply(r, Abs()) == HandleOff(platform, old(Abs()), t, e)
    {
      if t == OFF {
        return To(OFF);
      }
      if t == UNKNOWN {
        return Fail(Transition);
      }
      if !platform.hmc {
        var ok := DoAction(e.first);
        if !ok {
          return Fail(Action);
        }
      }
      var reply := e.power;
      if reply.Failed? || (reply.OtherCode? && platform.hmc) {
        reply := e.powerAgain;  // only retry once
        if reply.Failed? || (reply.OtherCode? && platform.hmc) {
          return Fail(PowerTrouble);
        }
      }
      if reply.PowerRaises? {
        var _ := DoAction(Broke(reply.marked));
        return Fail(PowerTrouble);
      }
      r := To(IPLING);
    }

    method RunIpling(t: St, e: Env) returns (r: Reply)
      modifies this
      ensures WithReply(r, Abs()) == HandleIpling(old(Abs()), t, e)
    {
      hide WaitFor;
      if t == OFF {
        r := PowerOffHost(e);
        return;
      }
      var w := WaitForIt(Config(PETITBOOT_TABLE, false, iplWatermark, 12, true, true), e.wait);
      if w.Threw? && w.thrown.exc.HostbootShutdown? {
        var ok := DoAction(e.second);
        return if ok then Fail(FromWait(w.thrown.exc)) else Fail(Action);
      }
      if w.Threw? && (w.thrown.exc.WaitForItFailed? || w.thrown.exc.HttpCheck?) {
        if iplWatermark < killCord {
          iplWatermark := iplWatermark + 1;
          tally := tally.(retries := tally.retries + 1);
          return To(UNKNOWN_BAD);
        }
        return To(UNKNOWN);
      }
      if !w.Found? {
        stop := true;
        state := UNKNOWN_BAD;
        return Fail(Transition);
      }
      var ok := DoAction(e.second);
      r := if ok then To(PETITBOOT) else Fail(Action);
    }

    method RunPetitboot(t: St, e: Env) returns (r: Reply)
      modifies this
      ensures WithReply(r, Abs()) == HandlePetitboot(old(Abs()), t, e)
    {
      if t == PETITBOOT {
        var ok := DoAction(e.first);
        if ok {
          ok := DoAction(e.second);
        }
        return if ok then To(PETITBOOT) else Fail(Action);
      }
      if t == PETITBOOT_SHELL {
        var ok := DoAction(e.first);
        return if ok then To(PETITBOOT_SHELL) else Fail(Action);
      }
      if t == OFF {
        r := PowerOffHost(e);
        return;
      }
      if t == OS {
        return To(BOOTING);
      }
      r := Fail(Transition);
    }

    method RunPetitbootShell(t: St, e: Env) returns (r: Reply)
      modifies this
      ensures WithReply(r, Abs()) == HandleShell(old(Abs()), t, e)
    {
      if t == PETITBOOT_SHELL || t == PETITBOOT {
        var ok := DoAction(e.first);
        return if ok then To(t) else Fail(Action);
      }
      r := PowerOffHost(e);
    }

    method RunBooting(t: St, e: Env) returns (r: Reply)
      modifies this
      ensures WithReply(r, Abs()) == HandleBooting(platform, old(Abs()), t, e)
    {
      hide WaitFor;
      if platform.hmc && e.sshLogin {
        return To(OS);
      }
      var w := WaitForIt(Config(LOGIN_TABLE, true, bootingWatermark, 12, true, true), e.wait);
      if w.Threw? && w.thrown.exc.WaitForItFailed? {
        if bootingWatermark < killCord {
          bootingWatermark := bootingWatermark + 1;
          tally := tally.(retries := tally.retries + 1);
          return To(UNKNOWN_BAD);
        }
        return To(UNKNOWN);
      }
      if !w.Found? {
        stop := true;
        state := UNKNOWN_BAD;
        return Fail(Transition);
      }
      r := To(OS);
    }

    method RunOs(t: St, e: Env) returns (r: Reply)
      modifies this
      ensures WithReply(r, Abs()) == HandleOs(old(Abs()), t, e)
    {
      if t == OS {
        return To(OS);
      }
      r := PowerOffHost(e);
    }

    method RunPoweringOff(e: Env) returns (r: Reply)
      modifies this
      ensures WithReply(r, Abs()) == HandlePoweringOff(platform, old(Abs()), e)
    {
      if platform.lpar {
        return To(OFF);
      }
      if e.standby.StandbyRaises? {
        var _ := DoAction(Broke(e.standby.marked));
        return Fail(Action);
      }
      r := if e.standby.rc == FW_SUCCESS || e.standby.rc == FW_PARAMETER then To(OFF) else Fail(PowerTrouble);
    }

    method Dispatch(t: St, e: Env) returns (r: Reply)
      modifies this
      ensures WithReply(r, Abs()) == Handle(platform, old(Abs()), t, e)
    {
      hide WaitFor, HandleOff, HandleIpling, HandlePetitboot, HandleBooting, HandlePoweringOff;
      match state {
        case UNKNOWN => r := RunUnknown(e);
        case UNKNOWN_BAD => r := RunUnknown(e);
        case OFF => if platform.lpar { r := LparRunOff(t, e); } else { r := RunOff(t, e); }
        case IPLING => r := RunIpling(t, e);
        case PETITBOOT => r := RunPetitboot(t, e);
        case PETITBOOT_SHELL => r := RunPetitbootShell(t, e);
        case BOOTING => r := RunBooting(t, e);
        case OS => r := RunOs(t, e);
        case POWERING_OFF => r := RunPoweringOff(e);
      }
    }

    // ----- Detection -----

    /** `run_REBOOT`; `None` in place of a state stands for an exception. */
    method RunReboot(t: St, e: ProbeEnv) returns (s: Option<St>)
      modifies this
      ensures AsProbed(s) == Reboot(old(Abs()), t, e)
    {
      hide WaitFor;
      tally := tally.(reboots := tally.reboots + 1);
      var ok := DoAction(e.rebootStep);
      if !ok {
        return None;
      }
      var _ := WaitForIt(RebootConfig(t), e.rebootWait);
      s := Some(UNKNOWN);
    }

    ghost function AsProbed(s: Option<St>): Probed
      reads this
    {
      if s.Some? then Saw(Abs(), s.value) else ProbeRaised(Abs())
    }

    method Try(s: Step, found: St) returns (r: Option<St>)
      modifies this`state
      ensures AsProbed(r) == ProbeAct(old(Abs()), s, found)
    {
      var ok := DoAction(s);
      r := if ok then Some(found) else None;
    }

    method ProbeTheMenu(t: St, reboot: bool, e: ProbeEnv) returns (s: Option<St>)
      modifies this
      ensures AsProbed(s) == ProbeMenu(old(Abs()), t, reboot, e)
    {
      hide Reboot;
      if t == PETITBOOT {
        return Some(PETITBOOT);
      }
      if t == PETITBOOT_SHELL {
        s := Try(e.action, PETITBOOT_SHELL);
        return;
      }
      if t == OS && reboot {
        var ok := DoAction(e.action);
        if !ok {
          return None;
        }
        s := RunReboot(t, e);
        return;
      }
      s := Some(UNKNOWN);
    }

    method ProbeThePrompt(t: St, reboot: bool, e: ProbeEnv) returns (s: Option<St>)
      modifies this
      ensures AsProbed(s) == ProbePrompt(old(Abs()), t, reboot, e)
    {
      hide Reboot;
      if e.kernel.KernelRaises? {
        s := Try(Broke(e.kernel.marked), UNKNOWN);
        return;
      }
      var seen := AsState(e.kernel.seen);
      if seen == t {
        return Some(seen);
      }
      if reboot {
        if t == OS {
          s := RunReboot(t, e);
        } else if t == PETITBOOT {
          if seen == PETITBOOT_SHELL {
            s := Try(e.action, PETITBOOT);
          } else {
            s := RunReboot(t, e);
          }
        } else if t == PETITBOOT_SHELL {
          s := RunReboot(t, e);
        } else {
          s := Some(UNKNOWN);
        }
      } else if seen == PETITBOOT_SHELL && t == PETITBOOT {
        s := Try(e.action, PETITBOOT);
      } else if t == PETITBOOT_SHELL {
        s := Some(PETITBOOT_SHELL);
      } else {
        s := Some(UNKNOWN);
      }
    }

    method ProbeTheConsole(t: St, reboot: bool, e: ProbeEnv) returns (s: Option<St>)
      modifies this
      ensures AsProbed(s) == ProbeConsole(old(Abs()), t, reboot, e)
    {
      hide Reboot, ProbeMenu, ProbePrompt;
      var ok := DoAction(e.console);
      if !ok {
        return None;
      }
      if e.r <= 1 {
        s := ProbeTheMenu(t, reboot, e);
      } else if e.r <= 3 {
        s := ProbeThePrompt(t, reboot, e);
      } else if e.r == 4 {
        if t == OS {
          return Some(OS);
        }
        if reboot && t in {PETITBOOT, PETITBOOT_SHELL} {
          s := RunReboot(t, e);
          return;
        }
        s := Some(UNKNOWN);
      } else {
        s := Some(UNKNOWN);
      }
    }

    /** `detect_target` */
    method DetectTarget(t: St, reboot: bool, e: ProbeEnv) returns (s: Option<St>)
      requires reboot == neverRebooted
      modifies this
      ensures AsProbed(s) == Probe(old(Abs()), t, e)
    {
      hide Reboot, ProbeConsole;
      if t in {OS, PETITBOOT_SHELL} && e.ssh != SawNothing {
        var seen := AsState(e.ssh);
        if seen == t {
          return Some(seen);
        }
        if seen == PETITBOOT_SHELL && t == OS && reboot {
          s := RunReboot(t, e);
          return;
        }
        if seen == OS && t == PETITBOOT_SHELL {
          if reboot {
            s := RunReboot(t, e);
            return;
          }
          return Some(UNKNOWN);
        }
      }
      s := ProbeTheConsole(t, reboot, e);
    }

    /** One round of the loop of `run_DETECT`. */
    method DetectOnce(t: St, e: ProbeEnv) returns (s: Option<St>)
      modifies this
      ensures AsProbed(s) == CountedProbe(old(Abs()), t, e)
    {
      hide Probe;
      tally := tally.(probes := tally.probes + 1);
      ProbeKeepsCounter(Abs(), t, e);
      s := DetectTarget(t, neverRebooted, e);
      if s.None? {
        tally := tally.(brokenProbes := tally.brokenProbes + 1);
        return;
      }
      neverRebooted := false;
      detectCounter := detectCounter + 1;
    }

    method RunDetect(t: St, d: nat -> ProbeEnv) returns (s: Option<St>)
      modifies this
      ensures AsProbed(s) == Detect(old(Abs()), t, d)
    {
      hide CountedProbe;
      detectCounter := detectCounter + 1;
      if detectCounter >= 3 {
        return Some(UNKNOWN);
      }
      s := Some(UNKNOWN);
      while s == Some(UNKNOWN) && detectCounter <= 2
        invariant s.Some?
        invariant Detect(old(Abs()), t, d) ==
                  if s == Some(UNKNOWN) then DetectLoop(Abs(), t, d) else Saw(Abs(), s.value)
        decreases 3 - detectCounter
      {
        ProbeKeepsBudgets(Abs(), t, d(detectCounter));
        s := DetectOnce(t, d(detectCounter));
        if s.None? {
          return;
        }
      }
    }

    // ----- goto_state -----

    /** `goto_state` up to its loop; `None` lets the loop start. */
    method BeforeLoop(t: St, d: nat -> ProbeEnv) returns (error: Option<Error>)
      modifies this
      ensures var r := Enter(platform, t, old(Abs()), d);
              r.m == Abs() && r == Begin(r.m).(status := if error.Some? then Failing(error.value) else Running)
    {
      hide Detect;
      if Guarded(platform, t) {
        return Some(Skipped);
      }
      if state == UNKNOWN {
        var s := RunDetect(t, d);
        if s.None? {
          return Some(Action);
        }
        state := s.value;
      }
      error := None;
    }

    /** The body of the loop of `goto_state`; `ran` tells whether a handler was called. */
    method LoopBody(t: St, ghost r: Run, wasKnown: bool, e: Env) returns (status: Status, known: bool, ran: bool)
      requires r.status.Running? && r.m == Abs() && r.known == wasKnown
      modifies this
      ensures var r' := Pass(platform, t, r, e);
              && r'.m == Abs() && r'.known == known && r'.status == status
              && r'.calls == r.calls + if ran then 1 else 0
    {
      hide Handle;
      known, ran := wasKnown, false;
      if stop {
        return Failing(Stopping), known, ran;
      }
      if state != UNKNOWN {
        known := true;
      }
      tally := tally.(handlers := tally.handlers + 1);
      var reply := Dispatch(t, e);
      ran := true;
      if reply.Fail? {
        return Failing(reply.error), known, ran;
      }
      state := reply.s;
      if state == t {
        return Returned, known, ran;
      }
      if known && state == UNKNOWN {
        stop := true;
        return Failing(Transition), known, ran;
      }
      status := Running;
    }

    /** The loop of `goto_state`. */
    method RunLoop(t: St, ghost start: Run, env: nat -> Env) returns (status: Status, calls: nat)
      requires Finishes(platform, t) && !Guarded(platform, t) && start == Begin(Abs())
      modifies this
      ensures var r := Passes(platform, t, start, env, Bound(start.m));
              Abs() == r.m && status == r.status && calls == r.calls && !r.status.Running?
    {
      hide Pass, Passes, Measure;
      var known := false;
      status, calls := Running, 0;
      ghost var r := start;
      NoPasses(platform, t, start, env);
      while status.Running?
        invariant r.m == Abs() && r.known == known && r.calls == calls && r.status == status
        invariant status.Running? ==> r == Passes(platform, t, start, env, calls)
        invariant !status.Running? ==> r == Passes(platform, t, start, env, Bound(start.m))
        decreases if status.Running? then 1 + Measure(platform, t, r.m) else 0
      {
        var ran;
        ghost var before := r;
        StillRunning(platform, t, start, env, calls);
        OneMorePass(platform, t, start, env, calls);
        status, known, ran := LoopBody(t, before, known, env(calls));
        r := Pass(platform, t, before, env(calls));
        if r.status.Running? {
          PassDecreases(platform, t, before, env(calls));
        } else {
          FinalRun(platform, t, start, env, calls);
        }
        calls := if ran then calls + 1 else calls;
      }
    }

    /** `goto_state`, for the targets that finish; `EndsExactlyWhenFinishes` shows that the loop runs for
        ever under some environment for the others, whose passes `GotoPasses` makes.

        It returns only with the system in the target state. The watermarks never go back, nor above the
        kill cord. After a stop it raises without calling any handler, and the stop stays. It never returns
        with the system stopped, and never leaves it fallen back to UNKNOWN without stopping it. */
    method GotoState(t: St, d: nat -> ProbeEnv, env: nat -> Env, nvram: Step) returns (error: Option<Error>, calls: nat)
      requires Finishes(platform, t)
      modifies this
      ensures var run := GotoRun(platform, t, old(Abs()), d, env, nvram);
              && Abs() == run.m && calls == run.calls
              && run.status == (if error.Some? then Failing(error.value) else Returned)
      ensures calls <= 6 * (old(BootBudget(Abs())) + 1) + 4 * old(IplBudget(Abs()))
      ensures error.None? ==> state == t
      ensures old(iplWatermark) <= iplWatermark <= Max(old(iplWatermark), killCord)
      ensures old(bootingWatermark) <= bootingWatermark <= Max(old(bootingWatermark), killCord)
      ensures old(stop) ==> stop && calls == 0 && error.Some?
      ensures stop ==> error.Some?
      ensures old(state) != UNKNOWN && t != UNKNOWN && state == UNKNOWN ==> stop
    {
      hide Pass, Passes, Enter, Measure, Max, Later, Guarded, Finishes;
      ghost var m0 := Abs();
      calls := 0;
      GotoFinishes(platform, t, m0, d, env, nvram);
      GotoConsequences(platform, t, m0, d, env, nvram);
      HostOutcomes.GotoEndsSafely(platform, t, m0, d, env, nvram);
      EnterKeepsBudgets(platform, t, m0, d);
      ghost var start := Enter(platform, t, m0, d);
      error := BeforeLoop(t, d);
      if error.Some? {
        PassesStay(platform, t, start, env, Bound(start.m));
        return;
      }
      var status;
      status, calls := RunLoop(t, start, env);
      if status.Failing? {
        return Some(status.error), calls;
      }
      if t in {PETITBOOT_SHELL, OS} && !platform.hmc {
        var ok := DoAction(nvram);
        if !ok {
          return Some(Action), calls;
        }
      }
      error := None;
    }

    /** The first `n` passes of `goto_state` at most, for every platform and every target. */
    method GotoPasses(t: St, d: nat -> ProbeEnv, env: nat -> Env, n: nat) returns (status: Status, calls: nat)
      modifies this
      ensures var r := Passes(platform, t, Enter(platform, t, old(Abs()), d), env, n);
              Abs() == r.m && status == r.status && calls == r.calls
    {
      hide Pass, Passes, Enter;
      ghost var start := Enter(platform, t, Abs(), d);
      EnterRunsNoHandler(platform, t, Abs(), d);
      NoPasses(platform, t, start, env);
      var error := BeforeLoop(t, d);
      calls := 0;
      if error.Some? {
        PassesStay(platform, t, start, env, n);
        return Failing(error.value), calls;
      }
      var known := false;
      status := Running;
      ghost var r := start;
      var k := 0;
      while k < n && status.Running?
        invariant k <= n && r == Passes(platform, t, start, env, k)
        invariant r.m == Abs() && r.known == known && r.calls == calls && r.status == status
        decreases n - k
      {
        OneMorePass(platform, t, start, env, k);
        var ran;
        ghost var before := r;
        status, known, ran := LoopBody(t, before, known, env(k));
        r := Pass(platform, t, before, env(k));
        calls := if ran then calls + 1 else calls;
        k := k + 1;
      }
      if !status.Running? {
        FinishedPasses(platform, t, start, env, k, n);
      }
    }
  }

  lemma GotoConsequences(p: Platform, t: St, m: Machine, d: nat -> ProbeEnv, env: nat -> Env, nvram: Step)
    ensures var run := GotoRun(p, t, m, d, env, nvram);
            && m.iplMark <= run.m.iplMark <= Max(m.iplMark, m.killCord)
            && m.bootMark <= run.m.bootMark <= Max(m.bootMark, m.killCord)
            && (m.stop ==> run.m.stop)
            && (run.status.Returned? ==> run.m.state == t)
            && (m.stop ==> run.calls == 0 && run.status.Failing?)
  {
    hide Passes, Enter;
    ObeyLater(p, m, Goto(t, d, env, nvram));
    EnterRunsNoHandler(p, t, m, d);
    var r := Enter(p, t, m, d);
    ReturnedAtTarget(p, t, r, env, Bound(r.m));
    if m.stop {
      StoppedGoto(p, t, m, d, env, nvram);
    }
  }

  lemma PassReturnsAtTarget(p: Platform, t: St, r: Run, e: Env)
    requires r.status.Running?
    ensures Pass(p, t, r, e).status.Returned? ==> Pass(p, t, r, e).m.state == t
  {
    hide Handle;
  }

  lemma {:induction false} ReturnedAtTarget(p: Platform, t: St, r: Run, env: nat -> Env, n: nat)
    requires !r.status.Returned?
    ensures Passes(p, t, r, env, n).status.Returned? ==> Passes(p, t, r, env, n).m.state == t
  {
    hide Pass;
    if n > 0 {
      ReturnedAtTarget(p, t, r, env, n - 1);
      var q := Passes(p, t, r, env, n - 1);
      if q.status.Running? {
        PassReturnsAtTarget(p, t, q, env(n - 1));
      }
    }
  }

  lemma ProbeKeepsCounter(m: Machine, t: St, e: ProbeEnv)
    ensures Probe(m, t, e).m.detects == m.detects
  {
    hide WaitFor;
  }

  /** While the loop is running it has not used up its bound. */
  lemma StillRunning(p: Platform, t: St, start: Run, env: nat -> Env, n: nat)
    requires Finishes(p, t) && !Guarded(p, t) && start == Begin(start.m)
    requires Passes(p, t, start, env, n).status.Running?
    ensures n < Bound(start.m)
  {
    hide Passes;
    PassesBounded(p, t, start, env, n);
    RankRange(p, t, Passes(p, t, start, env, n).m.state);
    RankRange(p, t, start.m.state);
  }

  /** A pass that ends the loop gives the final run. */
  lemma FinalRun(p: Platform, t: St, start: Run, env: nat -> Env, n: nat)
    requires n < Bound(start.m) && Passes(p, t, start, env, n).status.Running?
    requires !Pass(p, t, Passes(p, t, start, env, n), env(n)).status.Running?
    ensures Passes(p, t, start, env, Bound(start.m)) == Pass(p, t, Passes(p, t, start, env, n), env(n))
  {
    hide Pass;
    FinishedPasses(p, t, start, env, n + 1, Bound(start.m));
  }
}
