/** `goto_state` finishes: a measure built from the retry budgets and a target-dependent rank falls
    with every handler call, the resulting bound is attained, and the LPAR machine finishes for
    exactly the targets whose cycle does not avoid the budgets. */
module HostTermination {
  import opened OpExpect
  import opened WaitForIt
  import opened HostSpec

  /** The targets that finish under every environment. */
  predicate Finishes(p: Platform, t: St) {
    p.lpar ==> Guarded(p, t) || t !in {IPLING, PETITBOOT, PETITBOOT_SHELL, UNKNOWN_BAD}
  }

  /** Handler calls left when every wait succeeds. */
  function Rank(p: Platform, t: St, s: St): nat {
    if p.lpar then LparRank(t, s) else BaseRank(t, s)
  }

  function BaseRank(t: St, s: St): nat {
    match t
    case OS => (match s case OS => 1 case BOOTING => 1 case PETITBOOT => 2 case IPLING => 3 case OFF => 4
                        case POWERING_OFF => 5 case _ => 6)
    case PETITBOOT => (match s case PETITBOOT => 1 case PETITBOOT_SHELL => 1 case IPLING => 1 case OFF => 2
                               case POWERING_OFF => 3 case BOOTING => 5 case _ => 4)
    case PETITBOOT_SHELL => (match s case PETITBOOT_SHELL => 1 case PETITBOOT => 1 case IPLING => 2 case OFF => 3
                                     case POWERING_OFF => 4 case BOOTING => 6 case _ => 5)
    case OFF => (match s case OFF => 1 case POWERING_OFF => 1 case BOOTING => 3 case _ => 2)
    case POWERING_OFF => (match s case PETITBOOT => 1 case BOOTING => 2 case IPLING => 2 case OFF => 3
                                  case POWERING_OFF => 4 case _ => 1)
    case IPLING => (match s case OFF => 1 case PETITBOOT => 1 case IPLING => 2 case POWERING_OFF => 2
                            case BOOTING => 4 case _ => 3)
    case UNKNOWN => (match s case OFF => 1 case PETITBOOT => 1 case IPLING => 2 case POWERING_OFF => 2
                             case BOOTING => 4 case _ => 3)
    case _ => (match s case PETITBOOT => 1 case IPLING => 2 case OFF => 3 case POWERING_OFF => 4
                       case BOOTING => 6 case _ => 5)
  }

  function LparRank(t: St, s: St): nat {
    match t
    case OFF => (match s case OFF => 1 case POWERING_OFF => 1 case BOOTING => 3 case _ => 2)
    case OS => (match s case OS => 1 case BOOTING => 1 case OFF => 2 case PETITBOOT => 2 case IPLING => 3
                        case POWERING_OFF => 3 case _ => 4)
    case POWERING_OFF => (match s case PETITBOOT => 1 case BOOTING => 2 case IPLING => 2 case OFF => 3
                                  case POWERING_OFF => 4 case _ => 1)
    case _ => (match s case OFF => 1 case PETITBOOT => 1 case POWERING_OFF => 2 case IPLING => 2
                       case BOOTING => 4 case _ => 3)
  }

  function Measure(p: Platform, t: St, m: Machine): nat {
    Rank(p, t, m.state) + 6 * BootBudget(m) + 4 * IplBudget(m)
  }

  /** Which state a handler may return. */
  predicate Moves(p: Platform, t: St, s: St, to: St) {
    match s
    case OFF => if t == OFF then to == OFF else t != UNKNOWN && to == if p.lpar then BOOTING else IPLING
    case IPLING => if t == OFF then to == POWERING_OFF else to in {PETITBOOT, UNKNOWN_BAD, UNKNOWN}
    case PETITBOOT =>
      if t == OFF then to == POWERING_OFF
      else if t == OS then to == BOOTING
      else t in {PETITBOOT, PETITBOOT_SHELL} && to == t
    case PETITBOOT_SHELL => if t in {PETITBOOT, PETITBOOT_SHELL} then to == t else to == POWERING_OFF
    case BOOTING => to in {OS, UNKNOWN_BAD, UNKNOWN}
    case OS => to == if t == OS then OS else POWERING_OFF
    case POWERING_OFF => to == OFF
    case _ => to == POWERING_OFF
  }

  /** Only a wait that gave up moves to UNKNOWN_BAD, and it pays with one retry. */
  ghost predicate Pays(m: Machine, m': Machine, to: St) {
    && m'.killCord == m.killCord
    && m'.tally.retries + IplBudget(m') + BootBudget(m') == m.tally.retries + IplBudget(m) + BootBudget(m)
    && m'.iplMark == (if m.state == IPLING && to == UNKNOWN_BAD then m.iplMark + 1 else m.iplMark)
    && m'.bootMark == (if m.state == BOOTING && to == UNKNOWN_BAD then m.bootMark + 1 else m.bootMark)
    && (m'.iplMark > m.iplMark ==> m.iplMark < m.killCord)
    && (m'.bootMark > m.bootMark ==> m.bootMark < m.killCord)
  }

  /** What is known of a handler call without looking at its environment. */
  ghost predicate Orderly(p: Platform, t: St, m: Machine, h: Handled) {
    && (h.Next? ==> Moves(p, t, m.state, h.to) && Pays(m, h.m, h.to))
    && (h.Raised? ==> Pays(m, h.m, UNKNOWN) && h.m.state in {m.state, UNKNOWN_BAD})
    && (m.stop ==> h.m.stop)
  }

  lemma IplingMoves(p: Platform, m: Machine, t: St, e: Env)
    requires m.state == IPLING
    ensures var h := HandleIpling(m, t, e);
            if h.Next? then Moves(p, t, IPLING, h.to) else h.m.state in {IPLING, UNKNOWN_BAD}
  {
    hide WaitFor;
  }

  lemma IplingPays(m: Machine, t: St, e: Env)
    requires m.state == IPLING
    ensures var h := HandleIpling(m, t, e);
            Pays(m, h.m, if h.Next? then h.to else UNKNOWN) && (m.stop ==> h.m.stop)
  {
    hide WaitFor;
  }

  lemma IplingOrderly(p: Platform, m: Machine, t: St, e: Env)
    ensures m.state == IPLING ==> Orderly(p, t, m, HandleIpling(m, t, e))
  {
    hide HandleIpling, Moves, Pays;
    if m.state == IPLING {
      IplingMoves(p, m, t, e);
      IplingPays(m, t, e);
    }
  }

  lemma BootingOrderly(p: Platform, m: Machine, t: St, e: Env)
    ensures m.state == BOOTING ==> Orderly(p, t, m, HandleBooting(p, m, t, e))
  {
    hide WaitFor;
  }

  lemma PowerOnKeeps(m: Machine, e: Env, acceptOther: bool, to: St)
    ensures var h := HandlePowerOn(m, e, acceptOther, to);
            if h.Next? then h == Next(m, to) else h.m == m || h.m == Mark(m, true)
  {
  }

  predicate SameBooks(a: Machine, b: Machine) {
    SameBudgets(a, b) && a.tally.retries == b.tally.retries && a.stop == b.stop
  }

  lemma RestKeepsBooks(p: Platform, m: Machine, t: St, e: Env)
    requires m.state !in {IPLING, BOOTING}
    ensures var h := Handle(p, m, t, e);
            SameBooks(m, h.m) && (h.Raised? ==> h.m.state in {m.state, UNKNOWN_BAD})
  {
    hide HandleIpling, HandleBooting, HandleOff;
    if m.state == OFF {
      OffKeepsBooks(p, m, t, e);
    }
  }

  lemma OffKeepsBooks(p: Platform, m: Machine, t: St, e: Env)
    requires m.state == OFF
    ensures var h := HandleOff(p, m, t, e);
            && SameBooks(m, h.m)
            && if h.Next? then Moves(p, t, OFF, h.to) else h.m.state in {OFF, UNKNOWN_BAD}
  {
    PowerOnKeeps(m, e, false, IPLING);
    PowerOnKeeps(m, e, true, IPLING);
    hide HandlePowerOn;
  }

  lemma RestMoves(p: Platform, m: Machine, t: St, e: Env)
    requires m.state !in {IPLING, BOOTING}
    ensures var h := Handle(p, m, t, e); h.Next? ==> Moves(p, t, m.state, h.to)
  {
    hide HandleIpling, HandleBooting, HandleOff;
    if m.state == OFF {
      OffKeepsBooks(p, m, t, e);
    }
  }

  lemma RestOrderly(p: Platform, m: Machine, t: St, e: Env)
    ensures m.state !in {IPLING, BOOTING} ==> Orderly(p, t, m, Handle(p, m, t, e))
  {
    if m.state !in {IPLING, BOOTING} {
      hide Handle, Moves;
      RestKeepsBooks(p, m, t, e);
      RestMoves(p, m, t, e);
    }
  }

  lemma HandleMoves(p: Platform, m: Machine, t: St, e: Env)
    ensures Orderly(p, t, m, Handle(p, m, t, e))
  {
    hide Orderly, PowerOff;
    hide HandleIpling, HandleBooting, HandleOff, HandlePetitboot, HandleShell, HandleOs, HandlePoweringOff;
    IplingOrderly(p, m, t, e);
    BootingOrderly(p, m, t, e);
    RestOrderly(p, m, t, e);
  }

  lemma RankFalls(p: Platform, t: St, s: St, to: St)
    requires Finishes(p, t) && !Guarded(p, t) && Moves(p, t, s, to) && to != t && to != UNKNOWN
    ensures Rank(p, t, to) < Rank(p, t, s) + (if to != UNKNOWN_BAD then 0 else if s == IPLING then 4 else 6)
  {
  }

  /** A pass after which the loop goes on: its handler moved on, and to UNKNOWN only from UNKNOWN. */
  lemma PassGoesOn(p: Platform, t: St, r: Run, e: Env)
    requires r.status.Running? && Pass(p, t, r, e).status.Running?
    ensures var h := Handle(p, r.m.(tally := r.m.tally.(handlers := r.m.tally.handlers + 1)), t, e);
            && h.Next? && h.to != t && (h.to == UNKNOWN ==> r.m.state == UNKNOWN)
            && Pass(p, t, r, e).m == h.m.(state := h.to)
    ensures Pass(p, t, r, e).calls == r.calls + 1
  {
    hide Handle;
  }

  /** Every pass that does not end the run lowers the measure; a pass that spends no budget lowers the
      rank, a retry lowers a budget by one. */
  lemma PassDecreases(p: Platform, t: St, r: Run, e: Env)
    requires Finishes(p, t) && !Guarded(p, t) && r.status.Running? && Pass(p, t, r, e).status.Running?
    ensures Measure(p, t, Pass(p, t, r, e).m) < Measure(p, t, r.m)
    ensures Pass(p, t, r, e).calls == r.calls + 1
  {
    hide Handle, Pass, Finishes, Guarded, Rank;
    var m := r.m.(tally := r.m.tally.(handlers := r.m.tally.handlers + 1));
    HandleMoves(p, m, t, e);
    PassGoesOn(p, t, r, e);
    var h := Handle(p, m, t, e);
    PaidMoveDecreases(p, t, m, h.m, h.to);
  }

  lemma PaidMoveDecreases(p: Platform, t: St, m: Machine, m': Machine, to: St)
    requires Finishes(p, t) && !Guarded(p, t) && to != t && to != UNKNOWN
    requires Moves(p, t, m.state, to) && Pays(m, m', to)
    ensures Measure(p, t, m'.(state := to)) < Measure(p, t, m)
  {
    RankFalls(p, t, m.state, to);
    hide Rank, Finishes, Guarded;
  }

  lemma PassCalls(p: Platform, t: St, r: Run, e: Env)
    requires r.status.Running?
    ensures r.calls <= Pass(p, t, r, e).calls <= r.calls + 1
  {
    hide Handle;
  }

  lemma RankRange(p: Platform, t: St, s: St)
    ensures 1 <= Rank(p, t, s) <= 6
  {
  }

  lemma {:induction false} PassesBounded(p: Platform, t: St, r: Run, env: nat -> Env, n: nat)
    requires Finishes(p, t) && !Guarded(p, t) && r.status.Running?
    ensures var r' := Passes(p, t, r, env, n);
            && (r'.status.Running? ==> r'.calls == r.calls + n && Measure(p, t, r'.m) + n <= Measure(p, t, r.m))
            && r'.calls <= r.calls + Measure(p, t, r.m)
  {
    hide Pass, Rank;
    if n > 0 {
      PassesBounded(p, t, r, env, n - 1);
      var q := Passes(p, t, r, env, n - 1);
      if q.status.Running? {
        PassCalls(p, t, q, env(n - 1));
        RankRange(p, t, q.m.state);
        if Pass(p, t, q, env(n - 1)).status.Running? {
          PassDecreases(p, t, q, env(n - 1));
        }
      }
    }
  }

  /** For every start, target, detection and environment, `goto_state` returns or raises after at most
      6 (b + 1) + 4 i handler calls, b and i being the boot and IPL retries left. */
  lemma GotoFinishes(p: Platform, t: St, m: Machine, d: nat -> ProbeEnv, env: nat -> Env, nvram: Step)
    requires Finishes(p, t)
    ensures var run := GotoRun(p, t, m, d, env, nvram);
            && !run.status.Running?
            && run.calls <= 6 * (BootBudget(m) + 1) + 4 * IplBudget(m)
            && run.calls <= 6 * (BootBudget(m) + IplBudget(m) + 1)
  {
    hide Pass, Detect;
    EnterKeepsBudgets(p, t, m, d);
    var r := Enter(p, t, m, d);
    if r.status.Running? {
      PassesBounded(p, t, r, env, Bound(r.m));
      RankRange(p, t, r.m.state);
    } else {
      PassesStay(p, t, r, env, Bound(r.m));
    }
  }

  lemma {:induction false} PassesStay(p: Platform, t: St, r: Run, env: nat -> Env, n: nat)
    requires !r.status.Running?
    ensures Passes(p, t, r, env, n) == r
  {
    if n > 0 {
      PassesStay(p, t, r, env, n - 1);
    }
  }

  lemma {:induction false} FinishedPasses(p: Platform, t: St, r: Run, env: nat -> Env, n: nat, n': nat)
    requires n <= n' && !Passes(p, t, r, env, n).status.Running?
    ensures Passes(p, t, r, env, n') == Passes(p, t, r, env, n)
    decreases n'
  {
    hide Pass;
    if n < n' {
      FinishedPasses(p, t, r, env, n, n' - 1);
    }
  }

  predicate SameBudgets(a: Machine, b: Machine) {
    a.iplMark == b.iplMark && a.bootMark == b.bootMark && a.killCord == b.killCord
  }

  lemma ProbeKeepsBudgets(m: Machine, t: St, e: ProbeEnv)
    ensures SameBudgets(m, CountedProbe(m, t, e).m)
    ensures CountedProbe(m, t, e).Saw? ==> CountedProbe(m, t, e).m.detects == m.detects + 1
  {
    hide WaitFor;
  }

  lemma {:induction false} DetectKeepsBudgets(m: Machine, t: St, d: nat -> ProbeEnv)
    ensures SameBudgets(m, DetectLoop(m, t, d).m)
    decreases 3 - m.detects
  {
    hide CountedProbe;
    if m.detects <= 2 {
      ProbeKeepsBudgets(m, t, d(m.detects));
      var c := CountedProbe(m, t, d(m.detects));
      if c.Saw? && c.s == UNKNOWN {
        DetectKeepsBudgets(c.m, t, d);
      }
    }
  }

  lemma EnterKeepsBudgets(p: Platform, t: St, m: Machine, d: nat -> ProbeEnv)
    ensures SameBudgets(m, Enter(p, t, m, d).m)
    ensures Enter(p, t, m, d).status.Running? ==> !Guarded(p, t)
    ensures Enter(p, t, m, d).calls == 0
  {
    hide DetectLoop;
    DetectKeepsBudgets(m.(detects := m.detects + 1), t, d);
  }

  lemma NoPasses(p: Platform, t: St, r: Run, env: nat -> Env)
    ensures Passes(p, t, r, env, 0) == r
  {
  }

  lemma OneMorePass(p: Platform, t: St, r: Run, env: nat -> Env, n: nat)
    requires Passes(p, t, r, env, n).status.Running?
    ensures Passes(p, t, r, env, n + 1) == Pass(p, t, Passes(p, t, r, env, n), env(n))
  {
    hide Pass;
  }

  // ----- Environments that succeed or retry -----

  /** A poll that matches entry `i` of the table at once. */
  predicate Shows(p: Poll, i: nat) {
    p.open.Fine? && p.console.raw == Matched(FATAL_PATTERNS + BASE + i) && p.kick.Fine?
  }

  predicate Willing(e: Env) {
    && e.first.Fine? && e.second.Fine? && e.power.Success? && e.standby == Code(FW_SUCCESS)
    && e.wait.runtime.Up? && e.wait.connect.Fine?
  }

  /** The environment in which everything works and the wait matches entry `i` at once. */
  function ShowEnv(i: nat): (e: Env)
    ensures Willing(e) && Shows(e.wait.polls(0), i)
  {
    var poll := Poll(Fine, Console(Matched(FATAL_PATTERNS + BASE + i), [], Read), "", Fine, Collected, Fine);
    Env(Fine, Fine, Success, Success, Code(FW_SUCCESS), false, WaitEnv(Up, Fine, k => poll))
  }

  /** Entry 2 is a plain string in both tables: "Petitboot" and "login: ". */
  predicate Smooth(e: Env) {
    Willing(e) && Shows(e.wait.polls(0), 2)
  }

  /** The IPL wait meets the login prompt, whose callback asks for a retry. */
  predicate MissesPetitboot(e: Env) {
    Willing(e) && Shows(e.wait.polls(0), 5)
  }

  /** The boot wait meets the petitboot prompt, whose callback asks for a retry. */
  predicate MissesLogin(e: Env) {
    Willing(e) && Shows(e.wait.polls(0), 0)
  }

  lemma WaitOutcomes(m: Machine, e: Env)
    requires m.iplMark >= 1 && m.bootMark >= 1
    ensures Smooth(e) ==> WaitFor(IplConfig(m), e.wait).Found? && WaitFor(BootConfig(m), e.wait).Found?
    ensures MissesPetitboot(e) ==> WaitFor(IplConfig(m), e.wait) == Threw(Thrown(WaitForItFailed, false, false), 0, 1)
    ensures MissesLogin(e) ==> WaitFor(BootConfig(m), e.wait) == Threw(Thrown(WaitForItFailed, false, false), 0, 1)
  {
    var p := e.wait.polls(0);
    var ipl, boot := IplConfig(m), BootConfig(m);
    assert Wait(ipl, e.wait.polls, START) ==
           match OnePass(ipl, START, p) case Done(w) => w case Again(_) => Wait(ipl, e.wait.polls, START);
  }

  // ----- The bound is attained -----

  const BASE_PLATFORM := Platform(false, false, false)

  /** `i` retries in the IPL, then `b` retries in the boot, then a clean boot. */
  ghost predicate Stubborn(env: nat -> Env, i: nat, b: nat) {
    forall k: nat ::
      if k < 4 * i then if k % 4 == 3 then MissesPetitboot(env(k)) else Willing(env(k))
      else if k < 4 * i + 6 * b then if (k - 4 * i) % 6 == 5 then MissesLogin(env(k)) else Smooth(env(k))
      else Smooth(env(k))
  }

  function StubbornEntry(i: nat, b: nat, k: nat): nat {
    if k < 4 * i then 5 else if k < 4 * i + 6 * b && (k - 4 * i) % 6 == 5 then 0 else 2
  }

  function StubbornEnv(i: nat, b: nat): nat -> Env {
    (k: nat) => ShowEnv(StubbornEntry(i, b, k))
  }

  lemma StubbornEnvIsStubborn(i: nat, b: nat)
    ensures Stubborn(StubbornEnv(i, b), i, b)
  {
  }

  ghost predicate At(r: Run, s: St, iplMark: int, bootMark: int, killCord: int, calls: nat) {
    && r.status.Running? && !r.m.stop && r.m.state == s
    && r.m.iplMark == iplMark && r.m.bootMark == bootMark && r.m.killCord == killCord && r.calls == calls
  }

  /** One pass of a base machine that heads for OS. */
  lemma StepTowardsOs(r: Run, e: Env, s: St, ipl: int, boot: int, kill: int, n: nat)
    requires At(r, s, ipl, boot, kill, n) && ipl >= 1 && boot >= 1 && Willing(e)
    ensures var r' := Pass(BASE_PLATFORM, OS, r, e);
            && (s in {PETITBOOT_SHELL, UNKNOWN_BAD} ==> At(r', POWERING_OFF, ipl, boot, kill, n + 1))
            && (s == POWERING_OFF ==> At(r', OFF, ipl, boot, kill, n + 1))
            && (s == OFF ==> At(r', IPLING, ipl, boot, kill, n + 1))
            && (s == PETITBOOT ==> At(r', BOOTING, ipl, boot, kill, n + 1))
            && (s == IPLING && Smooth(e) ==> At(r', PETITBOOT, ipl, boot, kill, n + 1))
            && (s == IPLING && MissesPetitboot(e) && ipl < kill ==> At(r', UNKNOWN_BAD, ipl + 1, boot, kill, n + 1))
            && (s == BOOTING && MissesLogin(e) && boot < kill ==> At(r', UNKNOWN_BAD, ipl, boot + 1, kill, n + 1))
            && (s == BOOTING && Smooth(e) ==> r'.status.Returned? && r'.calls == n + 1)
  {
    hide WaitFor;
    WaitOutcomes(r.m.(tally := r.m.tally.(handlers := r.m.tally.handlers + 1)), e);
  }

  lemma {:induction false} IplBlocks(m: Machine, env: nat -> Env, i: nat, b: nat, k: nat)
    requires m.iplMark >= 1 && m.bootMark >= 1 && i <= IplBudget(m) && k <= i
    requires m.state == PETITBOOT_SHELL && !m.stop && Stubborn(env, i, b)
    ensures At(Passes(BASE_PLATFORM, OS, Begin(m), env, 4 * k), if k == 0 then PETITBOOT_SHELL else UNKNOWN_BAD,
               m.iplMark + k, m.bootMark, m.killCord, 4 * k)
  {
    hide Pass, Passes, Stubborn, Willing, MissesPetitboot;
    if k == 0 {
      NoPasses(BASE_PLATFORM, OS, Begin(m), env);
    } else {
      IplBlocks(m, env, i, b, k - 1);
      StubbornIpl(env, i, b, k - 1);
      IplBlock(m, env, 4 * (k - 1), if k == 1 then PETITBOOT_SHELL else UNKNOWN_BAD, m.iplMark + k - 1, m.bootMark);
    }
  }

  lemma StubbornIpl(env: nat -> Env, i: nat, b: nat, k: nat)
    requires Stubborn(env, i, b) && k < i
    ensures forall j :: 4 * k <= j < 4 * k + 3 ==> Willing(env(j))
    ensures MissesPetitboot(env(4 * k + 3)) && Willing(env(4 * k + 3))
  {
    assert (4 * k + 3) % 4 == 3;
    assert forall j: nat :: 4 * k <= j < 4 * k + 3 ==> j % 4 != 3;
  }

  /** Four passes from a power-off state to the retry after the IPL. */
  lemma IplBlock(m: Machine, env: nat -> Env, n: nat, s: St, ipl: int, boot: int)
    requires s in {PETITBOOT_SHELL, UNKNOWN_BAD} && 1 <= ipl < m.killCord && boot >= 1
    requires At(Passes(BASE_PLATFORM, OS, Begin(m), env, n), s, ipl, boot, m.killCord, n)
    requires forall j :: n <= j < n + 3 ==> Willing(env(j))
    requires MissesPetitboot(env(n + 3)) && Willing(env(n + 3))
    ensures At(Passes(BASE_PLATFORM, OS, Begin(m), env, n + 4), UNKNOWN_BAD, ipl + 1, boot, m.killCord, n + 4)
  {
    hide Pass, Passes, Willing, MissesPetitboot;
    var r0 := Passes(BASE_PLATFORM, OS, Begin(m), env, n);
    OneMorePass(BASE_PLATFORM, OS, Begin(m), env, n);
    StepTowardsOs(r0, env(n), s, ipl, boot, m.killCord, n);
    var r1 := Passes(BASE_PLATFORM, OS, Begin(m), env, n + 1);
    OneMorePass(BASE_PLATFORM, OS, Begin(m), env, n + 1);
    StepTowardsOs(r1, env(n + 1), POWERING_OFF, ipl, boot, m.killCord, n + 1);
    var r2 := Passes(BASE_PLATFORM, OS, Begin(m), env, n + 2);
    OneMorePass(BASE_PLATFORM, OS, Begin(m), env, n + 2);
    StepTowardsOs(r2, env(n + 2), OFF, ipl, boot, m.killCord, n + 2);
    var r3 := Passes(BASE_PLATFORM, OS, Begin(m), env, n + 3);
    OneMorePass(BASE_PLATFORM, OS, Begin(m), env, n + 3);
    StepTowardsOs(r3, env(n + 3), IPLING, ipl, boot, m.killCord, n + 3);
  }

  /** Five passes from a power-off state to BOOTING. */
  lemma ToBooting(r: Run, m: Machine, env: nat -> Env, n: nat, s: St, ipl: int, boot: int)
    requires r == Passes(BASE_PLATFORM, OS, Begin(m), env, n) && s in {PETITBOOT_SHELL, UNKNOWN_BAD}
    requires ipl >= 1 && boot >= 1 && At(r, s, ipl, boot, m.killCord, n)
    requires forall j :: n <= j < n + 5 ==> Smooth(env(j))
    ensures At(Passes(BASE_PLATFORM, OS, Begin(m), env, n + 5), BOOTING, ipl, boot, m.killCord, n + 5)
  {
    hide Pass;
    var kill := m.killCord;
    StepTowardsOs(r, env(n), s, ipl, boot, kill, n);
    var r1 := Passes(BASE_PLATFORM, OS, Begin(m), env, n + 1);
    StepTowardsOs(r1, env(n + 1), POWERING_OFF, ipl, boot, kill, n + 1);
    var r2 := Passes(BASE_PLATFORM, OS, Begin(m), env, n + 2);
    StepTowardsOs(r2, env(n + 2), OFF, ipl, boot, kill, n + 2);
    var r3 := Passes(BASE_PLATFORM, OS, Begin(m), env, n + 3);
    StepTowardsOs(r3, env(n + 3), IPLING, ipl, boot, kill, n + 3);
    var r4 := Passes(BASE_PLATFORM, OS, Begin(m), env, n + 4);
    StepTowardsOs(r4, env(n + 4), PETITBOOT, ipl, boot, kill, n + 4);
  }

  lemma StubbornBlock(env: nat -> Env, i: nat, b: nat, k: nat)
    requires Stubborn(env, i, b)
    ensures var n := 4 * i + 6 * k;
            && (forall j :: n <= j < n + 5 ==> Smooth(env(j)))
            && if k < b then MissesLogin(env(n + 5)) else Smooth(env(n + 5))
  {
    hide Smooth, MissesLogin, MissesPetitboot, Willing;
    var n := 4 * i + 6 * k;
    forall j | n <= j < n + 5 ensures Smooth(env(j)) {
      assert (j - 4 * i) % 6 == j - n;
    }
    assert (n + 5 - 4 * i) % 6 == 5;
  }

  /** From UNKNOWN_BAD or the shell, a block of six passes either boots or spends one boot retry. */
  lemma BootBlock(m: Machine, env: nat -> Env, n: nat, s: St, ipl: int, boot: int)
    requires s in {PETITBOOT_SHELL, UNKNOWN_BAD} && ipl >= 1 && boot >= 1
    requires At(Passes(BASE_PLATFORM, OS, Begin(m), env, n), s, ipl, boot, m.killCord, n)
    requires forall j :: n <= j < n + 5 ==> Smooth(env(j))
    ensures MissesLogin(env(n + 5)) && boot < m.killCord ==>
              At(Passes(BASE_PLATFORM, OS, Begin(m), env, n + 6), UNKNOWN_BAD, ipl, boot + 1, m.killCord, n + 6)
    ensures Smooth(env(n + 5)) ==>
              var r := Passes(BASE_PLATFORM, OS, Begin(m), env, n + 6);
              r.status.Returned? && r.calls == n + 6
  {
    hide Pass, Smooth, MissesLogin;
    ToBooting(Passes(BASE_PLATFORM, OS, Begin(m), env, n), m, env, n, s, ipl, boot);
    var r5 := Passes(BASE_PLATFORM, OS, Begin(m), env, n + 5);
    if MissesLogin(env(n + 5)) || Smooth(env(n + 5)) {
      WillingEither(env(n + 5));
      StepTowardsOs(r5, env(n + 5), BOOTING, ipl, boot, m.killCord, n + 5);
    }
  }

  lemma WillingEither(e: Env)
    requires MissesLogin(e) || Smooth(e)
    ensures Willing(e)
  {
  }

  lemma {:induction false} BootBlocks(m: Machine, env: nat -> Env, i: nat, b: nat, k: nat)
    requires m.iplMark >= 1 && m.bootMark >= 1 && i == IplBudget(m) && k <= b <= BootBudget(m)
    requires m.state == PETITBOOT_SHELL && !m.stop && Stubborn(env, i, b)
    ensures At(Passes(BASE_PLATFORM, OS, Begin(m), env, 4 * i + 6 * k),
               if i + k == 0 then PETITBOOT_SHELL else UNKNOWN_BAD,
               m.iplMark + i, m.bootMark + k, m.killCord, 4 * i + 6 * k)
  {
    hide Pass, Smooth, MissesLogin, Stubborn, Passes;
    if k == 0 {
      IplBlocks(m, env, i, b, i);
    } else {
      BootBlocks(m, env, i, b, k - 1);
      StubbornBlock(env, i, b, k - 1);
      BootBlock(m, env, 4 * i + 6 * (k - 1), if i + k == 1 then PETITBOOT_SHELL else UNKNOWN_BAD,
                m.iplMark + i, m.bootMark + k - 1);
    }
  }

  /** The bound is exact: from the petitboot shell towards OS, the stubborn environment uses up both
      budgets and makes 6 (b + 1) + 4 i handler calls. */
  lemma BoundIsAttained(m: Machine, d: nat -> ProbeEnv)
    requires m.iplMark >= 1 && m.bootMark >= 1 && m.state == PETITBOOT_SHELL && !m.stop
    ensures var run := GotoRun(BASE_PLATFORM, OS, m, d, StubbornEnv(IplBudget(m), BootBudget(m)), Fine);
            run.status.Returned? && run.calls == 6 * (BootBudget(m) + 1) + 4 * IplBudget(m)
  {
    hide Pass, Smooth, MissesLogin, Stubborn, Passes;
    var i, b := IplBudget(m), BootBudget(m);
    var env := StubbornEnv(i, b);
    StubbornEnvIsStubborn(i, b);
    BootBlocks(m, env, i, b, b);
    StubbornBlock(env, i, b, b);
    var start := if i + b == 0 then PETITBOOT_SHELL else UNKNOWN_BAD;
    BootBlock(m, env, 4 * i + 6 * b, start, m.iplMark + i, m.bootMark + b);
  }

  // ----- The LPAR machine -----

  /** The LPAR cycle that spends no budget. */
  function LparCycle(n: nat): St {
    match n % 4
    case 0 => OFF
    case 1 => BOOTING
    case 2 => OS
    case _ => POWERING_OFF
  }

  /** One pass of an LPAR machine that heads for a target its cycle never meets. */
  lemma LparStep(p: Platform, t: St, r: Run, e: Env, s: St, n: nat)
    requires p.lpar && t in {IPLING, PETITBOOT, PETITBOOT_SHELL, UNKNOWN_BAD}
    requires At(r, s, r.m.iplMark, r.m.bootMark, r.m.killCord, n) && r.m.iplMark >= 1 && r.m.bootMark >= 1 && Smooth(e)
    ensures var r' := Pass(p, t, r, e);
            var (ipl, boot, kill) := (r.m.iplMark, r.m.bootMark, r.m.killCord);
            && (s == OFF ==> At(r', BOOTING, ipl, boot, kill, n + 1))
            && (s == BOOTING ==> At(r', OS, ipl, boot, kill, n + 1))
            && (s == OS ==> At(r', POWERING_OFF, ipl, boot, kill, n + 1))
            && (s == POWERING_OFF ==> At(r', OFF, ipl, boot, kill, n + 1))
  {
    hide WaitFor;
    WaitOutcomes(r.m.(tally := r.m.tally.(handlers := r.m.tally.handlers + 1)), e);
  }

  lemma {:induction false} LparCycles(p: Platform, t: St, m: Machine, env: nat -> Env, n: nat)
    requires p.lpar && t in {IPLING, PETITBOOT, PETITBOOT_SHELL, UNKNOWN_BAD}
    requires m.state == OFF && !m.stop && m.iplMark >= 1 && m.bootMark >= 1
    requires forall k :: Smooth(env(k))
    ensures At(Passes(p, t, Begin(m), env, n), LparCycle(n), m.iplMark, m.bootMark, m.killCord, n)
  {
    hide Pass, Passes, Smooth;
    if n == 0 {
      NoPasses(p, t, Begin(m), env);
    } else {
      LparCycles(p, t, m, env, n - 1);
      OneMorePass(p, t, Begin(m), env, n - 1);
      var r := Passes(p, t, Begin(m), env, n - 1);
      assert Smooth(env(n - 1));
      LparStep(p, t, r, env(n - 1), LparCycle(n - 1), n - 1);
    }
  }

  /** `goto_state` has ended within `n` handler calls. */
  ghost predicate EndsWithin(p: Platform, t: St, m: Machine, d: nat -> ProbeEnv, env: nat -> Env, n: nat) {
    !Passes(p, t, Enter(p, t, m, d), env, n).status.Running?
  }

  ghost predicate Ends(p: Platform, t: St, m: Machine, d: nat -> ProbeEnv, env: nat -> Env) {
    exists n :: EndsWithin(p, t, m, d, env, n)
  }

  /** A target ends under every environment exactly if `Finishes`. The guard of `goto_state` covers the
      petitboot-side targets of an HMC console, but not UNKNOWN_BAD. */
  lemma EndsExactlyWhenFinishes(p: Platform, t: St, d: nat -> ProbeEnv)
    ensures Finishes(p, t) <==>
            forall m: Machine, env: nat -> Env :: Ends(p, t, m, d, env)
  {
    hide Pass, Detect;
    if Finishes(p, t) {
      forall m: Machine, env: nat -> Env ensures Ends(p, t, m, d, env) {
        var r := Enter(p, t, m, d);
        GotoFinishes(p, t, m, d, env, Fine);
        assert EndsWithin(p, t, m, d, env, Bound(r.m));
      }
    } else {
      var m := Machine(OFF, false, 0, true, 100, 100, 102, NEW_TALLY);
      var env: nat -> Env := k => ShowEnv(2);
      forall n ensures !EndsWithin(p, t, m, d, env, n) {
        LparCycles(p, t, m, env, n);
      }
      assert !Ends(p, t, m, d, env);
    }
  }
}
