/** The host state machine of OpTestSystem as functions of the machine and an explicit environment:
    what each handler, the detection phase and `goto_state` do for every outcome of every console,
    BMC or HMC action. */
module HostSpec {
  import opened WaitForIt

  datatype St = UNKNOWN | OFF | IPLING | PETITBOOT | PETITBOOT_SHELL | BOOTING | OS | POWERING_OFF | UNKNOWN_BAD

  /** Which subclass runs and which console it has. */
  datatype Platform = Platform(lpar: bool, hmc: bool, simulator: bool)

  /** Counts of events the source does not store; they are here to be reasoned about. */
  datatype Tally = Tally(handlers: nat, powerOffs: nat, retries: nat, probes: nat, brokenProbes: nat, reboots: nat)

  datatype Machine = Machine(
    state: St, stop: bool, detects: nat, neverRebooted: bool,
    iplMark: int, bootMark: int, killCord: int, tally: Tally)

  const NEW_TALLY := Tally(0, 0, 0, 0, 0, 0)

  datatype Error = Stopping | Skipped | Transition | PowerTrouble | Action | FromWait(exc: Exc)

  // ----- Environment of one handler call -----

  /** What the platform's own `wait_for_it` sees before the console loop starts. */
  datatype Runtime = Up | HttpDown | Broken(marked: bool)

  datatype WaitEnv = WaitEnv(runtime: Runtime, connect: Step, polls: nat -> Poll)

  datatype PowerReply = Success | Failed | OtherCode | PowerRaises(marked: bool)

  datatype Standby = Code(rc: int) | StandbyRaises(marked: bool)

  const FW_SUCCESS := 0
  const FW_PARAMETER := 4

  /** `first` and `second` are the plain actions of the handler in their order (power off, boot device,
      petitboot prompts, SEL check); `sshLogin` is the HMC's ssh login detection. */
  datatype Env = Env(
    first: Step, second: Step, power: PowerReply, powerAgain: PowerReply,
    standby: Standby, sshLogin: bool, wait: WaitEnv)

  // ----- Handlers -----

  datatype Handled = Next(m: Machine, to: St) | Raised(m: Machine, error: Error)

  function Mark(m: Machine, marked: bool): Machine {
    if marked then m.(state := UNKNOWN_BAD) else m
  }

  function Apply(m: Machine, t: Thrown): Machine {
    m.(state := if t.bad then UNKNOWN_BAD else m.state, stop := m.stop || t.stopped)
  }

  function Halt(m: Machine): Machine {
    m.(state := UNKNOWN_BAD, stop := true)
  }

  function Act(m: Machine, s: Step, to: St): Handled {
    if s.Broke? then Raised(Mark(m, s.marked), Action) else Next(m, to)
  }

  function PowerOff(m: Machine, e: Env): Handled {
    Act(m.(tally := m.tally.(powerOffs := m.tally.powerOffs + 1)), e.first, POWERING_OFF)
  }

  function IplConfig(m: Machine): Config {
    Config(PETITBOOT_TABLE, false, m.iplMark, 12, true, true)
  }

  function BootConfig(m: Machine): Config {
    Config(LOGIN_TABLE, true, m.bootMark, 12, true, true)
  }

  function WaitFor(cfg: Config, e: WaitEnv): Result {
    match e.runtime
    case HttpDown => Threw(Thrown(HttpCheck, false, false), 0, 0)
    case Broken(marked) => Threw(Thrown(Other, marked, false), 0, 0)
    case Up =>
      if e.connect.Broke? then Threw(Thrown(Other, e.connect.marked, false), 0, 0) else Wait(cfg, e.polls, START)
  }

  function HandlePowerOn(m: Machine, e: Env, acceptOther: bool, to: St): Handled {
    match e.power
    case PowerRaises(marked) => Raised(Mark(m, marked), PowerTrouble)
    case Success => Next(m, to)
    case r =>
      if r.OtherCode? && acceptOther then Next(m, to)
      else
        match e.powerAgain
        case PowerRaises(marked) => Raised(Mark(m, marked), PowerTrouble)
        case Success => Next(m, to)
        case r' => if r'.OtherCode? && acceptOther then Next(m, to) else Raised(m, PowerTrouble)
  }

  function HandleOff(p: Platform, m: Machine, t: St, e: Env): Handled {
    if t == OFF then Next(m, OFF)
    else if t == UNKNOWN then Raised(m, Transition)
    else if p.lpar then
      // sys_power_on of the LPAR returns nothing, so its retry never runs
      if e.power.PowerRaises? then Raised(Mark(m, e.power.marked), PowerTrouble) else Next(m, BOOTING)
    else if p.hmc then HandlePowerOn(m, e, false, IPLING)
    else if e.first.Broke? then Raised(Mark(m, e.first.marked), Action)
    else HandlePowerOn(m, e, true, IPLING)
  }

  function Retry(m: Machine): Machine {
    m.(tally := m.tally.(retries := m.tally.retries + 1))
  }

  function HandleIpling(m: Machine, t: St, e: Env): Handled {
    if t == OFF then PowerOff(m, e)
    else
      match WaitFor(IplConfig(m), e.wait)
      case Found(_, _, _) => Act(m, e.second, PETITBOOT)
      case FellThrough(_) => Raised(Halt(m), Transition)
      case Threw(th, _, _) =>
        var m' := Apply(m, th);
        if th.exc.HostbootShutdown? then
          if e.second.Broke? then Raised(Mark(m', e.second.marked), Action) else Raised(m', FromWait(th.exc))
        else if th.exc.WaitForItFailed? || th.exc.HttpCheck? then
          if m'.iplMark < m'.killCord then Next(Retry(m'.(iplMark := m'.iplMark + 1)), UNKNOWN_BAD)
          else Next(m', UNKNOWN)
        else Raised(Halt(m'), Transition)
  }

  function HandlePetitboot(m: Machine, t: St, e: Env): Handled {
    match t
    case PETITBOOT =>
      if e.first.Broke? then Raised(Mark(m, e.first.marked), Action) else Act(m, e.second, PETITBOOT)
    case PETITBOOT_SHELL => Act(m, e.first, PETITBOOT_SHELL)
    case OFF => PowerOff(m, e)
    case OS => Next(m, BOOTING)
    case _ => Raised(m, Transition)
  }

  function HandleShell(m: Machine, t: St, e: Env): Handled {
    if t == PETITBOOT_SHELL || t == PETITBOOT then Act(m, e.first, t) else PowerOff(m, e)
  }

  function HandleBooting(p: Platform, m: Machine, t: St, e: Env): Handled {
    if p.hmc && e.sshLogin then Next(m, OS)
    else
      match WaitFor(BootConfig(m), e.wait)
      case Found(_, _, _) => Next(m, OS)
      case FellThrough(_) => Raised(Halt(m), Transition)
      case Threw(th, _, _) =>
        var m' := Apply(m, th);
        if th.exc.WaitForItFailed? then
          if m'.bootMark < m'.killCord then Next(Retry(m'.(bootMark := m'.bootMark + 1)), UNKNOWN_BAD)
          else Next(m', UNKNOWN)
        else Raised(Halt(m'), Transition)
  }

  function HandleOs(m: Machine, t: St, e: Env): Handled {
    if t == OS then Next(m, OS) else PowerOff(m, e)
  }

  function HandlePoweringOff(p: Platform, m: Machine, e: Env): Handled {
    if p.lpar then Next(m, OFF)
    else
      match e.standby
      case StandbyRaises(marked) => Raised(Mark(m, marked), Action)
      case Code(rc) => if rc == FW_SUCCESS || rc == FW_PARAMETER then Next(m, OFF) else Raised(m, PowerTrouble)
  }

  function Handle(p: Platform, m: Machine, t: St, e: Env): Handled {
    match m.state
    case UNKNOWN => PowerOff(m, e)
    case UNKNOWN_BAD => PowerOff(m, e)
    case OFF => HandleOff(p, m, t, e)
    case IPLING => HandleIpling(m, t, e)
    case PETITBOOT => HandlePetitboot(m, t, e)
    case PETITBOOT_SHELL => HandleShell(m, t, e)
    case BOOTING => HandleBooting(p, m, t, e)
    case OS => HandleOs(m, t, e)
    case POWERING_OFF => HandlePoweringOff(p, m, e)
  }

  // ----- The goto_state loop -----

  datatype Status = Running | Returned | Failing(error: Error)

  /** A `goto_state` in progress. `trace` lists the states the handlers left the system in. */
  datatype Run = Run(m: Machine, known: bool, calls: nat, trace: seq<St>, status: Status)

  function Begin(m: Machine): Run {
    Run(m, false, 0, [], Running)
  }

  function Pass(p: Platform, t: St, r: Run, e: Env): Run
    requires r.status.Running?
  {
    if r.m.stop then r.(status := Failing(Stopping))
    else
      var known := r.known || r.m.state != UNKNOWN;
      var m := r.m.(tally := r.m.tally.(handlers := r.m.tally.handlers + 1));
      match Handle(p, m, t, e)
      case Raised(m', error) => Run(m', known, r.calls + 1, r.trace + [m'.state], Failing(error))
      case Next(m', to) =>
        var m'' := m'.(state := to);
        if to == t then Run(m'', known, r.calls + 1, r.trace + [to], Returned)
        else if known && to == UNKNOWN then
          Run(m''.(stop := true), known, r.calls + 1, r.trace + [to], Failing(Transition))
        else Run(m'', known, r.calls + 1, r.trace + [to], Running)
  }

  /** The run after at most `n` passes; `env(k)` is the environment of handler call number `k`. */
  function Passes(p: Platform, t: St, r: Run, env: nat -> Env, n: nat): Run {
    if n == 0 then r
    else
      var r' := Passes(p, t, r, env, n - 1);
      if r'.status.Running? then Pass(p, t, r', env(n - 1)) else r'
  }

  // ----- Detection -----

  datatype Seen = SawOs | SawShell | SawNothing

  datatype Kernel = KernelIs(seen: Seen) | KernelRaises(marked: bool)

  /** One probe: ssh, opening the console, the index matched there (0..6), the kernel check, leaving or
      entering the petitboot shell, and the reboot with its own wait. */
  datatype ProbeEnv = ProbeEnv(
    ssh: Seen, console: Step, r: nat, kernel: Kernel, action: Step, rebootStep: Step, rebootWait: WaitEnv)

  datatype Probed = Saw(m: Machine, s: St) | ProbeRaised(m: Machine)

  function AsState(s: Seen): St {
    match s
    case SawOs => OS
    case SawShell => PETITBOOT_SHELL
    case SawNothing => UNKNOWN
  }

  function RebootConfig(t: St): Config {
    if t == OS then Config(LOGIN_TABLE, true, 100, 12, true, true)
    else Config(PETITBOOT_TABLE, false, 100, 12, true, true)
  }

  /** `run_REBOOT` swallows what its wait raises, but not what a callback did to the system. */
  function Reboot(m: Machine, t: St, e: ProbeEnv): Probed {
    var m' := m.(tally := m.tally.(reboots := m.tally.reboots + 1));
    if e.rebootStep.Broke? then ProbeRaised(Mark(m', e.rebootStep.marked))
    else
      var w := WaitFor(RebootConfig(t), e.rebootWait);
      Saw(if w.Threw? then Apply(m', w.thrown) else m', UNKNOWN)
  }

  function ProbeAct(m: Machine, s: Step, to: St): Probed {
    if s.Broke? then ProbeRaised(Mark(m, s.marked)) else Saw(m, to)
  }

  function ProbeMenu(m: Machine, t: St, reboot: bool, e: ProbeEnv): Probed {
    if t == PETITBOOT then Saw(m, PETITBOOT)
    else if t == PETITBOOT_SHELL then ProbeAct(m, e.action, PETITBOOT_SHELL)
    else if t == OS && reboot then
      if e.action.Broke? then ProbeRaised(Mark(m, e.action.marked)) else Reboot(m, t, e)
    else Saw(m, UNKNOWN)
  }

  function ProbePrompt(m: Machine, t: St, reboot: bool, e: ProbeEnv): Probed {
    if e.kernel.KernelRaises? then ProbeRaised(Mark(m, e.kernel.marked))
    else
      var s := AsState(e.kernel.seen);
      if s == t then Saw(m, s)
      else if s == PETITBOOT_SHELL && t == PETITBOOT then ProbeAct(m, e.action, PETITBOOT)
      else if reboot then
        if t in {OS, PETITBOOT, PETITBOOT_SHELL} then Reboot(m, t, e) else Saw(m, UNKNOWN)
      else if t == PETITBOOT_SHELL then Saw(m, PETITBOOT_SHELL)
      else Saw(m, UNKNOWN)
  }

  function ProbeConsole(m: Machine, t: St, reboot: bool, e: ProbeEnv): Probed {
    if e.console.Broke? then ProbeRaised(Mark(m, e.console.marked))
    else if e.r <= 1 then ProbeMenu(m, t, reboot, e)
    else if e.r <= 3 then ProbePrompt(m, t, reboot, e)
    else if e.r == 4 then
      if t == OS then Saw(m, OS)
      else if reboot && t in {PETITBOOT, PETITBOOT_SHELL} then Reboot(m, t, e)
      else Saw(m, UNKNOWN)
    else Saw(m, UNKNOWN)
  }

  /** `detect_target` */
  function Probe(m: Machine, t: St, e: ProbeEnv): Probed {
    var reboot := m.neverRebooted;
    if t in {OS, PETITBOOT_SHELL} && e.ssh != SawNothing then
      if AsState(e.ssh) == t then Saw(m, t)
      else if e.ssh == SawShell && reboot then Reboot(m, t, e)
      else if e.ssh == SawOs then if reboot then Reboot(m, t, e) else Saw(m, UNKNOWN)
      else ProbeConsole(m, t, reboot, e)
    else ProbeConsole(m, t, reboot, e)
  }

  /** The probe with its event counts. */
  function CountedProbe(m: Machine, t: St, e: ProbeEnv): Probed {
    match Probe(m.(tally := m.tally.(probes := m.tally.probes + 1)), t, e)
    case Saw(m', s) => Saw(m'.(neverRebooted := false, detects := m.detects + 1), s)
    case ProbeRaised(m') =>
      ProbeRaised(m'.(tally := m'.tally.(brokenProbes := m'.tally.brokenProbes + 1)))
  }

  /** The loop of `run_DETECT`; the probe made at counter value `c` has environment `d(c)`. */
  function DetectLoop(m: Machine, t: St, d: nat -> ProbeEnv): Probed
    decreases 3 - m.detects
  {
    if m.detects > 2 then Saw(m, UNKNOWN)
    else
      match CountedProbe(m, t, d(m.detects))
      case ProbeRaised(m') => ProbeRaised(m')
      case Saw(m', s) =>
        if s == UNKNOWN then DetectLoop(m', t, d) else Saw(m', s)
  }

  /** `run_DETECT` */
  function Detect(m: Machine, t: St, d: nat -> ProbeEnv): Probed {
    DetectLoop(m.(detects := m.detects + 1), t, d)
  }

  // ----- goto_state -----

  predicate Guarded(p: Platform, t: St) {
    || (p.simulator && t == OS)
    || (p.hmc && t in {IPLING, PETITBOOT, PETITBOOT_SHELL})
  }

  /** Everything of `goto_state` before its loop. */
  function Enter(p: Platform, t: St, m: Machine, d: nat -> ProbeEnv): Run {
    if Guarded(p, t) then Begin(m).(status := Failing(Skipped))
    else if m.state != UNKNOWN then Begin(m)
    else
      match Detect(m, t, d)
      case ProbeRaised(m') => Begin(m').(status := Failing(Action))
      case Saw(m', s) => Begin(m'.(state := s))
  }

  /** The NVRAM check after the loop. */
  function Leave(p: Platform, t: St, r: Run, nvram: Step): Run {
    if r.status.Returned? && t in {PETITBOOT_SHELL, OS} && !p.hmc && nvram.Broke? then
      r.(m := Mark(r.m, nvram.marked), status := Failing(Action))
    else r
  }

  // ----- Budgets -----

  function IplBudget(m: Machine): nat {
    if m.iplMark < m.killCord then m.killCord - m.iplMark else 0
  }

  function BootBudget(m: Machine): nat {
    if m.bootMark < m.killCord then m.killCord - m.bootMark else 0
  }

  function Bound(m: Machine): nat {
    6 * (BootBudget(m) + 1) + 4 * IplBudget(m)
  }

  /** A whole `goto_state`, for the platforms and targets on which it finishes. */
  function GotoRun(p: Platform, t: St, m: Machine, d: nat -> ProbeEnv, env: nat -> Env, nvram: Step): Run {
    var r := Enter(p, t, m, d);
    Leave(p, t, Passes(p, t, r, env, Bound(r.m)), nvram)
  }
}
