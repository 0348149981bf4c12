/** What becomes of a handler call and of a whole `goto_state`, told from the environment: when a handler
    goes on and where to, when `goto_state` ends and how, and when it stops the system. */
module HostOutcomes {
  import opened WaitForIt
  import opened WaitEnds
  import opened HostSpec
  import opened HostTermination
  import opened HostSafety

  // ----- When a handler goes on -----

  /** The power-on reply counts as success; only an HMC takes other codes for failures. */
  predicate Accepts(p: Platform, r: PowerReply) {
    r.Success? || (r.OtherCode? && !p.hmc)
  }

  /** The host powers up: at once, or when asked once more after a reply that was no exception. On an LPAR
      any reply will do. */
  predicate PowersUp(p: Platform, e: Env) {
    if p.lpar then !e.power.PowerRaises?
    else
      && (p.hmc || e.first.Fine?)
      && (Accepts(p, e.power) || (!e.power.PowerRaises? && Accepts(p, e.powerAgain)))
  }

  predicate GaveUp(s: St, w: Result) {
    w.Threw? && Retryable(s, w.thrown.exc)
  }

  /** The handler of the machine's state hands on a state, instead of raising. */
  predicate GoesOn(p: Platform, m: Machine, t: St, e: Env) {
    match m.state
    case OFF => t == OFF || (t != UNKNOWN && PowersUp(p, e))
    case POWERING_OFF => p.lpar || e.standby in {Code(FW_SUCCESS), Code(FW_PARAMETER)}
    case PETITBOOT =>
      t == OS || (t in {PETITBOOT, PETITBOOT_SHELL, OFF} && e.first.Fine? && (t == PETITBOOT ==> e.second.Fine?))
    case OS => t == OS || e.first.Fine?
    case IPLING =>
      if t == OFF then e.first.Fine?
      else var w := WaitOf(m, e); (w.Found? && e.second.Fine?) || GaveUp(IPLING, w)
    case BOOTING =>
      (p.hmc && e.sshLogin) || var w := WaitOf(m, e); w.Found? || GaveUp(BOOTING, w)
    case _ => e.first.Fine?
  }

  predicate RetryLeft(m: Machine) {
    if m.state == IPLING then m.iplMark < m.killCord else m.bootMark < m.killCord
  }

  /** The state it hands on then. */
  function Onward(p: Platform, m: Machine, t: St, e: Env): St {
    match m.state
    case OFF => if t == OFF then OFF else if p.lpar then BOOTING else IPLING
    case POWERING_OFF => OFF
    case PETITBOOT => if t == OS then BOOTING else if t == OFF then POWERING_OFF else t
    case PETITBOOT_SHELL => if t in {PETITBOOT, PETITBOOT_SHELL} then t else POWERING_OFF
    case OS => if t == OS then OS else POWERING_OFF
    case IPLING =>
      if t == OFF then POWERING_OFF
      else if WaitOf(m, e).Found? then PETITBOOT
      else if RetryLeft(m) then UNKNOWN_BAD
      else UNKNOWN
    case BOOTING =>
      if (p.hmc && e.sshLogin) || WaitOf(m, e).Found? then OS
      else if RetryLeft(m) then UNKNOWN_BAD
      else UNKNOWN
    case _ => POWERING_OFF
  }

  lemma OffGoesOn(p: Platform, m: Machine, t: St, e: Env)
    requires m.state == OFF
    ensures var h := HandleOff(p, m, t, e);
            (h.Next? <==> GoesOn(p, m, t, e)) && (h.Next? ==> h.to == Onward(p, m, t, e) && h.m == m)
  {
    PowerOnGoesOn(p, m, e);
    hide HandlePowerOn;
  }

  lemma PowerOnGoesOn(p: Platform, m: Machine, e: Env)
    ensures var h := HandlePowerOn(m, e, !p.hmc, IPLING);
            && (h.Next? <==> Accepts(p, e.power) || (!e.power.PowerRaises? && Accepts(p, e.powerAgain)))
            && (h.Next? ==> h == Next(m, IPLING))
  {
  }

  /** A wait that gave up has touched neither state nor stop. */
  lemma GaveUpLeaves(m: Machine, e: Env)
    requires m.state in {IPLING, BOOTING}
    ensures var w := WaitOf(m, e);
            w.Threw? && Retryable(m.state, w.thrown.exc) ==> !w.thrown.bad && !w.thrown.stopped
  {
    hide Wait;
    ThrownEffects(if m.state == IPLING then IplConfig(m) else BootConfig(m), e.wait.polls, START);
  }

  lemma WaitingGoesOn(p: Platform, m: Machine, t: St, e: Env)
    requires m.state in {IPLING, BOOTING}
    ensures var h := Handle(p, m, t, e);
            (h.Next? <==> GoesOn(p, m, t, e)) && (h.Next? ==> h.to == Onward(p, m, t, e) && h.m.stop == m.stop)
  {
    hide WaitFor;
    GaveUpLeaves(m, e);
    if m.state == IPLING {
      IplingGoesOn(p, m, t, e);
    } else {
      BootingGoesOn(p, m, t, e);
    }
    hide HandleIpling, HandleBooting, GoesOn, Onward;
  }

  lemma IplingGoesOn(p: Platform, m: Machine, t: St, e: Env)
    requires m.state == IPLING
    requires GaveUp(IPLING, WaitOf(m, e)) ==> !WaitOf(m, e).thrown.bad && !WaitOf(m, e).thrown.stopped
    ensures var h := HandleIpling(m, t, e);
            (h.Next? <==> GoesOn(p, m, t, e)) && (h.Next? ==> h.to == Onward(p, m, t, e) && h.m.stop == m.stop)
  {
    hide WaitFor;
  }

  lemma BootingGoesOn(p: Platform, m: Machine, t: St, e: Env)
    requires m.state == BOOTING
    requires GaveUp(BOOTING, WaitOf(m, e)) ==> !WaitOf(m, e).thrown.bad && !WaitOf(m, e).thrown.stopped
    ensures var h := HandleBooting(p, m, t, e);
            (h.Next? <==> GoesOn(p, m, t, e)) && (h.Next? ==> h.to == Onward(p, m, t, e) && h.m.stop == m.stop)
  {
    hide WaitFor;
  }

  lemma RestGoesOn(p: Platform, m: Machine, t: St, e: Env)
    requires m.state !in {OFF, IPLING, BOOTING}
    ensures var h := Handle(p, m, t, e);
            (h.Next? <==> GoesOn(p, m, t, e)) && (h.Next? ==> h.to == Onward(p, m, t, e) && h.m.stop == m.stop)
  {
    hide HandleIpling, HandleBooting, HandleOff, WaitFor;
  }

  /** Every handler, in every environment: when it goes on, and to which state. */
  lemma HandlerGoesOn(p: Platform, m: Machine, t: St, e: Env)
    ensures var h := Handle(p, m, t, e);
            && (h.Next? <==> GoesOn(p, m, t, e))
            && (h.Next? ==> h.to == Onward(p, m, t, e) && h.m.stop == m.stop)
  {
    hide HandleIpling, HandleBooting, HandleOff, GoesOn, Onward;
    if m.state == OFF {
      OffGoesOn(p, m, t, e);
    } else if m.state in {IPLING, BOOTING} {
      WaitingGoesOn(p, m, t, e);
    } else {
      RestGoesOn(p, m, t, e);
    }
  }

  // ----- What a raise leaves -----

  predicate Unmarked(s: Step) {
    s.Broke? ==> !s.marked
  }

  /** No failing action of the environment met a fatal console pattern. */
  predicate NoneMarked(e: Env) {
    && Unmarked(e.first) && Unmarked(e.second)
    && (e.power.PowerRaises? ==> !e.power.marked) && (e.powerAgain.PowerRaises? ==> !e.powerAgain.marked)
    && (e.standby.StandbyRaises? ==> !e.standby.marked)
  }

  /** Every failing action of the environment met one. */
  predicate AllMarked(e: Env) {
    && (e.first.Broke? ==> e.first.marked) && (e.second.Broke? ==> e.second.marked)
    && (e.power.PowerRaises? ==> e.power.marked) && (e.powerAgain.PowerRaises? ==> e.powerAgain.marked)
    && (e.standby.StandbyRaises? ==> e.standby.marked)
  }

  /** A handler that raises without waiting leaves UNKNOWN_BAD if the action that broke had met a fatal
      pattern, and its own state otherwise. */
  lemma RaiseLeaves(p: Platform, m: Machine, t: St, e: Env)
    requires !Waits(p, m, t, e)
    ensures var h := Handle(p, m, t, e);
            h.Raised? ==>
              && (NoneMarked(e) ==> h.m.state == m.state)
              && (AllMarked(e) && h.error.Action? ==> h.m.state == UNKNOWN_BAD)
              && h.m.stop == m.stop
  {
    hide WaitFor;
    if m.state == OFF {
      PowerOnLeaves(p, m, e);
      hide HandlePowerOn;
    }
    hide HandleIpling, HandleBooting;
    if m.state == IPLING {
      assert HandleIpling(m, t, e) == PowerOff(m, e) by { IplingOff(m, t, e); }
    } else if m.state == BOOTING {
      BootingSeen(p, m, t, e);
    }
  }

  lemma IplingOff(m: Machine, t: St, e: Env)
    requires t == OFF
    ensures HandleIpling(m, t, e) == PowerOff(m, e)
  {
    hide WaitFor;
  }

  lemma BootingSeen(p: Platform, m: Machine, t: St, e: Env)
    requires p.hmc && e.sshLogin
    ensures HandleBooting(p, m, t, e) == Next(m, OS)
  {
    hide WaitFor;
  }

  lemma PowerOnLeaves(p: Platform, m: Machine, e: Env)
    ensures var h := HandlePowerOn(m, e, !p.hmc, IPLING);
            h.Raised? ==> h.error == PowerTrouble && h.m.stop == m.stop && (NoneMarked(e) ==> h.m.state == m.state)
  {
  }

  // ----- From the console to the handler -----

  /** The platform's own check and the opening connect come before the console loop; trouble there ends
      the wait at once. */
  lemma WaitBegins(cfg: Config, e: WaitEnv)
    ensures var w := WaitFor(cfg, e);
            if e.runtime.Up? && e.connect.Fine? then w == Wait(cfg, e.polls, START)
            else
              && w.Threw? && !w.thrown.stopped && w.polls == 0
              && w.thrown.exc == (if e.runtime.HttpDown? then HttpCheck else Other)
              && (w.thrown.bad <==>
                    || (e.runtime.Broken? && e.runtime.marked)
                    || (e.runtime.Up? && e.connect.Broke? && e.connect.marked))
  {
  }

  /** The console is there, and its first expect that is more than a timeout, within the expects that the
      wait makes, matches the plain string number `i` of the table. */
  ghost predicate Shown(m: Machine, e: Env, k: nat, i: nat) {
    var cfg := if m.state == IPLING then IplConfig(m) else BootConfig(m);
    && e.wait.runtime.Up? && e.wait.connect.Fine?
    && cfg.loopMax >= 2 && k < cfg.loopMax
    && QuietBefore(e.wait.polls, k) && Good(cfg, e.wait.polls(k), i)
  }

  /** The same console saying nothing in all the expects of the wait. */
  ghost predicate Silent(m: Machine, e: Env) {
    var loopMax := if m.state == IPLING then m.iplMark else m.bootMark;
    e.wait.runtime.Up? && e.wait.connect.Fine? && loopMax >= 2 && QuietBefore(e.wait.polls, loopMax)
  }

  /** A good string takes the IPL to petitboot and the boot to the OS, at whatever expect it comes. */
  lemma GoodStringGoesOn(p: Platform, m: Machine, t: St, e: Env, k: nat, i: nat)
    requires Waits(p, m, t, e) && Shown(m, e, k, i)
    ensures var h := Handle(p, m, t, e);
            if m.state == IPLING then if e.second.Fine? then h.Next? && h.to == PETITBOOT else h.Raised?
            else h.Next? && h.to == OS
  {
    var cfg := if m.state == IPLING then IplConfig(m) else BootConfig(m);
    FirstHitEndsWait(cfg, e.wait.polls, k, i);
    WaitBegins(cfg, e.wait);
    hide Wait, WaitFor, Handle;
    HandlerGoesOn(p, m, t, e);
  }

  /** A silent console uses up a retry, or ends in UNKNOWN when none is left. */
  lemma SilenceSpendsRetry(p: Platform, m: Machine, t: St, e: Env)
    requires Waits(p, m, t, e) && Silent(m, e)
    ensures var h := Handle(p, m, t, e);
            && h.Next? && h.to == (if RetryLeft(m) then UNKNOWN_BAD else UNKNOWN)
            && IplBudget(h.m) + BootBudget(h.m) == IplBudget(m) + BootBudget(m) - (if RetryLeft(m) then 1 else 0)
  {
    var cfg := if m.state == IPLING then IplConfig(m) else BootConfig(m);
    SilenceGivesUp(cfg, e.wait.polls);
    WaitBegins(cfg, e.wait);
    hide Wait, WaitFor, Handle;
    HandlerGoesOn(p, m, t, e);
    HandleMoves(p, m, t, e);
  }

  // ----- How a goto_state ends -----

  /** The handler goes on to a state that is neither the target nor UNKNOWN. */
  predicate Ongoing(p: Platform, m: Machine, t: St, e: Env) {
    GoesOn(p, m, t, e) && Onward(p, m, t, e) !in {t, UNKNOWN}
  }

  /** A waiting handler after which the system is stopped: its wait ended neither well nor in a retryable
      way, or it used up its last retry on the way to another state. */
  predicate StopsSystem(p: Platform, m: Machine, t: St, e: Env) {
    Waits(p, m, t, e) &&
    var w := WaitOf(m, e);
    || w.FellThrough?
    || (w.Threw? && (!Retryable(m.state, w.thrown.exc) || (!RetryLeft(m) && t != UNKNOWN)))
  }

  /** The counts are not looked at by any handler. */
  lemma CountsDoNotMatter(p: Platform, m: Machine, t: St, e: Env, tally: Tally)
    ensures var m' := m.(tally := tally);
            && GoesOn(p, m', t, e) == GoesOn(p, m, t, e) && Onward(p, m', t, e) == Onward(p, m, t, e)
            && StopsSystem(p, m', t, e) == StopsSystem(p, m, t, e) && Waits(p, m', t, e) == Waits(p, m, t, e)
            && WaitOf(m', e) == WaitOf(m, e)
  {
    hide WaitFor;
  }

  lemma HandlerStops(p: Platform, m: Machine, t: St, e: Env)
    requires !m.stop
    ensures var h := Handle(p, m, t, e);
            && (h.Raised? ==> (h.m.stop <==> StopsSystem(p, m, t, e)))
            && (h.Next? ==> !h.m.stop)
            && (h.Next? && h.to == UNKNOWN ==> Waits(p, m, t, e))
            && (h.Next? ==> (StopsSystem(p, m, t, e) <==> h.to == UNKNOWN && t != UNKNOWN))
  {
    HandlerGoesOn(p, m, t, e);
    if Waits(p, m, t, e) {
      StopExactlyOnFatalWait(p, m, t, e);
    } else {
      RaiseLeaves(p, m, t, e);
    }
    hide Handle, WaitFor;
  }

  /** One round of the loop, told from the environment. */
  lemma RoundOutcome(p: Platform, t: St, r: Run, e: Env)
    requires r.status.Running? && !r.m.stop
    ensures var r' := Pass(p, t, r, e);
            && r'.calls == r.calls + 1
            && (r'.status.Running? <==> Ongoing(p, r.m, t, e))
            && (r'.status.Returned? <==> GoesOn(p, r.m, t, e) && Onward(p, r.m, t, e) == t)
            && (GoesOn(p, r.m, t, e) ==> r'.m.state == Onward(p, r.m, t, e))
            && (r'.m.stop <==> StopsSystem(p, r.m, t, e))
            && (r'.m.stop ==> r'.status.Failing?)
            && (r'.m.state == UNKNOWN && r.m.state != UNKNOWN ==>
                  if t == UNKNOWN then r'.status.Returned? else r'.status == Failing(Transition) && r'.m.stop)
  {
    hide Handle, GoesOn, Onward, StopsSystem, Waits, WaitOf;
    var m := r.m.(tally := r.m.tally.(handlers := r.m.tally.handlers + 1));
    CountsDoNotMatter(p, r.m, t, e, m.tally);
    HandlerGoesOn(p, m, t, e);
    HandlerStops(p, m, t, e);
    HandleMoves(p, m, t, e);
    WaitsKnown(p, m, t, e);
  }

  lemma WaitsKnown(p: Platform, m: Machine, t: St, e: Env)
    ensures Waits(p, m, t, e) ==> m.state != UNKNOWN
  {
  }

  /** The machine after the first `k` handler calls of a `goto_state`. */
  function After(p: Platform, t: St, m: Machine, d: nat -> ProbeEnv, env: nat -> Env, k: nat): Machine {
    Passes(p, t, Enter(p, t, m, d), env, k).m
  }

  /** The first `n` handler calls are ongoing ones. */
  ghost predicate AllOngoing(p: Platform, t: St, r0: Run, env: nat -> Env, n: int) {
    forall k :: 0 <= k < n ==> Ongoing(p, Passes(p, t, r0, env, k).m, t, env(k))
  }

  lemma OneMoreOngoing(p: Platform, t: St, r0: Run, env: nat -> Env, n: nat)
    requires AllOngoing(p, t, r0, env, n) && Ongoing(p, Passes(p, t, r0, env, n).m, t, env(n))
    ensures AllOngoing(p, t, r0, env, n + 1)
  {
    hide Passes, Ongoing;
  }

  lemma NoneOngoing(p: Platform, t: St, r0: Run, env: nat -> Env, n: int)
    requires n <= 0
    ensures AllOngoing(p, t, r0, env, n)
  {
  }

  lemma {:induction false} Rounds(p: Platform, t: St, r0: Run, env: nat -> Env, n: nat)
    requires r0.status.Running? && !r0.m.stop && r0.calls == 0
    ensures var r := Passes(p, t, r0, env, n);
            if r.status.Running? then r.calls == n && !r.m.stop && AllOngoing(p, t, r0, env, n)
            else
              && 1 <= r.calls <= n && AllOngoing(p, t, r0, env, r.calls - 1)
              && var q := Passes(p, t, r0, env, r.calls - 1);
                 q.status.Running? && !q.m.stop && r == Pass(p, t, q, env(r.calls - 1))
  {
    hide Pass, Passes, Ongoing, AllOngoing;
    if n == 0 {
      NoPasses(p, t, r0, env);
      NoneOngoing(p, t, r0, env, 0);
    } else {
      Rounds(p, t, r0, env, n - 1);
      var q := Passes(p, t, r0, env, n - 1);
      if q.status.Running? {
        OneMorePass(p, t, r0, env, n - 1);
        RoundOutcome(p, t, q, env(n - 1));
        if Pass(p, t, q, env(n - 1)).status.Running? {
          OneMoreOngoing(p, t, r0, env, n - 1);
        }
      } else {
        FinishedPasses(p, t, r0, env, n - 1, n);
      }
    }
  }

  /** A `goto_state` whose loop starts ends with the first handler call that is not ongoing. It returns
      exactly if that handler goes on to the target and the NVRAM check, where there is one, is fine; and it
      stops the system exactly if that handler stops it. Otherwise it raises. */
  lemma GotoEndsExactly(p: Platform, t: St, m: Machine, d: nat -> ProbeEnv, env: nat -> Env, nvram: Step)
    requires Finishes(p, t) && Enter(p, t, m, d).status.Running? && !Enter(p, t, m, d).m.stop
    ensures var run := GotoRun(p, t, m, d, env, nvram);
            && run.calls >= 1 && !run.status.Running?
            && AllOngoing(p, t, Enter(p, t, m, d), env, run.calls - 1)
            && var last, e := After(p, t, m, d, env, run.calls - 1), env(run.calls - 1);
               && !Ongoing(p, last, t, e)
               && (run.status.Returned? <==>
                     && GoesOn(p, last, t, e) && Onward(p, last, t, e) == t
                     && (nvram.Fine? || p.hmc || t !in {PETITBOOT_SHELL, OS}))
               && (GoesOn(p, last, t, e) && !run.status.Returned? && Onward(p, last, t, e) == t ==>
                     run.m.state == if nvram.marked then UNKNOWN_BAD else t)
               && (run.m.stop <==> StopsSystem(p, last, t, e))
               && (run.m.stop ==> run.status.Failing?)
  {
    hide Pass, Passes, Enter, GoesOn, Onward, StopsSystem;
    GotoFinishes(p, t, m, d, env, nvram);
    EnterRunsNoHandler(p, t, m, d);
    var r0 := Enter(p, t, m, d);
    var n := Bound(r0.m);
    Rounds(p, t, r0, env, n);
    var r := Passes(p, t, r0, env, n);
    RoundOutcome(p, t, Passes(p, t, r0, env, r.calls - 1), env(r.calls - 1));
  }

  // ----- Falling back to UNKNOWN -----

  /** The system comes to UNKNOWN from another state. */
  ghost predicate Fell(h: seq<St>) {
    exists j :: 0 < j < |h| && h[j] == UNKNOWN && h[j - 1] != UNKNOWN
  }

  lemma FellSnoc(h: seq<St>, s: St)
    requires |h| > 0 && !Fell(h)
    ensures Fell(h + [s]) <==> s == UNKNOWN && h[|h| - 1] != UNKNOWN
  {
    var g := h + [s];
    assert forall j :: 0 <= j < |h| ==> g[j] == h[j];
    assert g[|h|] == s && g[|h| - 1] == h[|h| - 1];
  }

  lemma {:induction false} PassesFall(p: Platform, t: St, r0: Run, env: nat -> Env, n: nat)
    requires r0.status.Running? && !r0.m.stop && r0.trace == [] && t != UNKNOWN
    ensures var r := Passes(p, t, r0, env, n);
            var h := [r0.m.state] + r.trace;
            && h[|h| - 1] == r.m.state
            && (r.status.Running? ==> !r.m.stop && !Fell(h))
            && (Fell(h) ==> r.status.Failing? && r.m.stop && r.m.state == UNKNOWN && !Fell(h[..|h| - 1]))
            && (r0.m.state != UNKNOWN && r.m.state == UNKNOWN ==> Fell(h))
  {
    hide Pass, Fell;
    if n == 0 {
      NoPasses(p, t, r0, env);
      OneState(r0.m.state);
      assert [r0.m.state] + [] == [r0.m.state];
    } else {
      PassesFall(p, t, r0, env, n - 1);
      var q := Passes(p, t, r0, env, n - 1);
      if q.status.Running? {
        var h := [r0.m.state] + q.trace;
        var r := Pass(p, t, q, env(n - 1));
        RoundOutcome(p, t, q, env(n - 1));
        PassTraces(p, t, q, env(n - 1));
        FellSnoc(h, r.m.state);
        assert [r0.m.state] + r.trace == h + [r.m.state];
        assert (h + [r.m.state])[..|h|] == h;
      }
    }
  }

  lemma OneState(s: St)
    ensures !Fell([s])
  {
  }

  lemma PassTraces(p: Platform, t: St, r: Run, e: Env)
    requires r.status.Running? && !r.m.stop
    ensures Pass(p, t, r, e).trace == r.trace + [Pass(p, t, r, e).m.state]
  {
    hide Handle;
  }

  /** A `goto_state` during which the system, having been outside UNKNOWN, comes to UNKNOWN raises at once,
      in that state and with stop set; so no handler ever runs again. */
  lemma FallbackStops(
    p: Platform, t: St, m: Machine, d: nat -> ProbeEnv, env: nat -> Env, nvram: Step, later: seq<Command>)
    requires t != UNKNOWN && Enter(p, t, m, d).status.Running? && !Enter(p, t, m, d).m.stop
    ensures var run := GotoRun(p, t, m, d, env, nvram);
            var h := [Enter(p, t, m, d).m.state] + run.trace;
            Fell(h) ==>
              && run.status.Failing? && run.m.stop && run.m.state == UNKNOWN && !Fell(h[..|h| - 1])
              && Live(p, run.m, later).tally.handlers == run.m.tally.handlers
  {
    hide Pass, Passes, Enter, Fell, Live;
    EnterRunsNoHandler(p, t, m, d);
    var r0 := Enter(p, t, m, d);
    PassesFall(p, t, r0, env, Bound(r0.m));
    var run := GotoRun(p, t, m, d, env, nvram);
    if run.m.stop {
      StopIsAbsorbing(p, run.m, later, SetState(UNKNOWN));
    }
  }

  /** Whatever `goto_state` is asked for and meets: if it started outside UNKNOWN, was not asked for UNKNOWN and
      ends there, it has stopped the system; and if the system is stopped, it has raised. */
  lemma GotoEndsSafely(p: Platform, t: St, m: Machine, d: nat -> ProbeEnv, env: nat -> Env, nvram: Step)
    ensures var run := GotoRun(p, t, m, d, env, nvram);
            && (m.state != UNKNOWN && t != UNKNOWN && run.m.state == UNKNOWN ==> run.m.stop)
            && (run.m.stop ==> !run.status.Returned?)
  {
    hide Pass, Passes, Fell, DetectLoop;
    EnterRunsNoHandler(p, t, m, d);
    var r0 := Enter(p, t, m, d);
    if !r0.status.Running? {
      PassesStay(p, t, r0, env, Bound(r0.m));
    } else if r0.m.stop {
      StoppedPasses(p, t, r0, env, Bound(r0.m));
    } else {
      var n := Bound(r0.m);
      Rounds(p, t, r0, env, n);
      var r := Passes(p, t, r0, env, n);
      if !r.status.Running? {
        RoundOutcome(p, t, Passes(p, t, r0, env, r.calls - 1), env(r.calls - 1));
      }
      if t != UNKNOWN {
        PassesFall(p, t, r0, env, n);
      }
    }
  }

  /** The end of the budget: while waiting in IPLing or BOOTING, a retryable end of the wait with the
      watermark at the kill cord ends `goto_state` after this one handler call, in UNKNOWN. Unless UNKNOWN was
      asked for it raises, with stop set, and no handler ever runs again. */
  lemma BudgetEndStops(
    p: Platform, t: St, m: Machine, d: nat -> ProbeEnv, env: nat -> Env, nvram: Step, later: seq<Command>)
    requires !Guarded(p, t) && !m.stop && Waits(p, m, t, env(0))
    requires GaveUp(m.state, WaitOf(m, env(0))) && !RetryLeft(m)
    ensures var run := GotoRun(p, t, m, d, env, nvram);
            && run.calls == 1 && run.m.state == UNKNOWN
            && if t == UNKNOWN then run.status.Returned? && !run.m.stop
               else
                 && run.status.Failing? && run.m.stop
                 && Live(p, run.m, later).tally.handlers == run.m.tally.handlers
  {
    hide Pass, Detect, WaitOf, Live;
    var r0 := Enter(p, t, m, d);
    WaitsKnown(p, m, t, env(0));
    assert r0 == Begin(m);
    RoundOutcome(p, t, r0, env(0));
    NoRetryEnds(p, m, t, env(0));
    NoPasses(p, t, r0, env);
    OneMorePass(p, t, r0, env, 0);
    FinishedPasses(p, t, r0, env, 1, Bound(m));
    hide Passes;
    var run := GotoRun(p, t, m, d, env, nvram);
    if run.m.stop {
      StopIsAbsorbing(p, run.m, later, SetState(UNKNOWN));
    }
  }

  lemma NoRetryEnds(p: Platform, m: Machine, t: St, e: Env)
    requires Waits(p, m, t, e) && GaveUp(m.state, WaitOf(m, e)) && !RetryLeft(m)
    ensures GoesOn(p, m, t, e) && Onward(p, m, t, e) == UNKNOWN
  {
    hide WaitOf;
  }

  /** So a console that stays silent through the last retry stops the system for good. */
  lemma SilenceStopsForGood(
    p: Platform, t: St, m: Machine, d: nat -> ProbeEnv, env: nat -> Env, nvram: Step, later: seq<Command>)
    requires !Guarded(p, t) && !m.stop && t != UNKNOWN && Waits(p, m, t, env(0)) && Silent(m, env(0)) && !RetryLeft(m)
    ensures var run := GotoRun(p, t, m, d, env, nvram);
            && run.status.Failing? && run.calls == 1 && run.m.state == UNKNOWN && run.m.stop
            && Live(p, run.m, later).tally.handlers == run.m.tally.handlers
  {
    var cfg := if m.state == IPLING then IplConfig(m) else BootConfig(m);
    SilenceGivesUp(cfg, env(0).wait.polls);
    WaitBegins(cfg, env(0).wait);
    hide Wait, WaitFor, GotoRun, Live;
    BudgetEndStops(p, t, m, d, env, nvram, later);
  }

  /** `goto_state` is skipped for the OS of a simulator and for the petitboot side of an HMC, and for nothing
      else; it has then done nothing. A target that is not skipped is looked for exactly from UNKNOWN. */
  lemma SkippedExactly(p: Platform, t: St, m: Machine, d: nat -> ProbeEnv, env: nat -> Env, nvram: Step)
    ensures var run := GotoRun(p, t, m, d, env, nvram);
            var skips := (p.simulator && t == OS) || (p.hmc && t in {IPLING, PETITBOOT, PETITBOOT_SHELL});
            && (Enter(p, t, m, d).status == Failing(Skipped) <==> skips)
            && (skips ==> run == Begin(m).(status := Failing(Skipped)))
            && (!skips && m.state != UNKNOWN ==> Enter(p, t, m, d) == Begin(m))
            && (!skips && m.state == UNKNOWN && Detect(m, t, d).Saw? ==>
                  Enter(p, t, m, d) == Begin(Detect(m, t, d).m.(state := Detect(m, t, d).s)))
            && (!skips && m.state == UNKNOWN && Detect(m, t, d).ProbeRaised? ==>
                  run == Begin(Detect(m, t, d).m).(status := Failing(Action)))
  {
    hide Detect, Pass, Bound, Passes;
    var r := Enter(p, t, m, d);
    if !r.status.Running? {
      PassesStay(p, t, r, env, Bound(r.m));
    }
  }
}
