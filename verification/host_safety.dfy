/** Safety of the host state machine over its whole life: any sequence of `goto_state` and `set_state`
    calls, with any detection and any environment. */
module HostSafety {
  import opened WaitForIt
  import opened HostSpec
  import opened HostTermination

  datatype Command =
    | Goto(t: St, d: nat -> ProbeEnv, env: nat -> Env, nvram: Step)
    | SetState(s: St)

  function Obey(p: Platform, m: Machine, c: Command): Machine {
    match c
    case Goto(t, d, env, nvram) => GotoRun(p, t, m, d, env, nvram).m
    case SetState(s) => m.(state := s)
  }

  function Live(p: Platform, m: Machine, cs: seq<Command>): Machine {
    if |cs| == 0 then m else Obey(p, Live(p, m, cs[..|cs| - 1]), cs[|cs| - 1])
  }

  // ----- Budgets over a lifetime -----

  function Max(a: int, b: int): int {
    if a < b then b else a
  }

  /** `m'` comes after `m`: watermarks only grow, never past the kill cord (or past where they were set),
      and every retry is paid for. */
  ghost predicate Later(m: Machine, m': Machine) {
    && m'.killCord == m.killCord
    && m.iplMark <= m'.iplMark <= Max(m.iplMark, m.killCord)
    && m.bootMark <= m'.bootMark <= Max(m.bootMark, m.killCord)
    && m'.tally.retries + IplBudget(m') + BootBudget(m') == m.tally.retries + IplBudget(m) + BootBudget(m)
    && (m.stop ==> m'.stop)
  }

  lemma HandleLater(p: Platform, m: Machine, t: St, e: Env)
    ensures Later(m, Handle(p, m, t, e).m)
  {
    hide Handle, Moves;
    HandleMoves(p, m, t, e);
  }

  lemma PassLater(p: Platform, t: St, r: Run, e: Env)
    requires r.status.Running?
    ensures Later(r.m, Pass(p, t, r, e).m)
  {
    hide Handle;
    HandleLater(p, r.m.(tally := r.m.tally.(handlers := r.m.tally.handlers + 1)), t, e);
  }

  lemma {:induction false} PassesLater(p: Platform, t: St, r: Run, env: nat -> Env, n: nat)
    ensures Later(r.m, Passes(p, t, r, env, n).m)
  {
    hide Pass;
    if n > 0 {
      PassesLater(p, t, r, env, n - 1);
      var q := Passes(p, t, r, env, n - 1);
      if q.status.Running? {
        PassLater(p, t, q, env(n - 1));
      }
    }
  }

  /** What a probe may change: the state, the stop flag once and for all, and the reboot count. */
  ghost predicate Touches(m: Machine, m': Machine) {
    && m' == m.(state := m'.state, stop := m'.stop, tally := m.tally.(reboots := m'.tally.reboots))
    && (m.stop ==> m'.stop)
  }

  lemma RebootTouches(m: Machine, t: St, e: ProbeEnv)
    ensures Touches(m, Reboot(m, t, e).m)
  {
    hide WaitFor;
  }

  lemma ConsoleTouches(m: Machine, t: St, reboot: bool, e: ProbeEnv)
    ensures Touches(m, ProbeConsole(m, t, reboot, e).m)
  {
    RebootTouches(m, t, e);
    hide Reboot;
  }

  lemma ProbeLater(m: Machine, t: St, e: ProbeEnv)
    ensures Later(m, CountedProbe(m, t, e).m)
  {
    hide Reboot, ProbeConsole;
    var m0 := m.(tally := m.tally.(probes := m.tally.probes + 1));
    RebootTouches(m0, t, e);
    ConsoleTouches(m0, t, m0.neverRebooted, e);
  }

  lemma {:induction false} DetectLater(m: Machine, t: St, d: nat -> ProbeEnv)
    ensures Later(m, DetectLoop(m, t, d).m)
    decreases 3 - m.detects
  {
    hide CountedProbe;
    if m.detects <= 2 {
      ProbeLater(m, t, d(m.detects));
      CountedProbeCounts(m, t, d(m.detects));
      var c := CountedProbe(m, t, d(m.detects));
      if c.Saw? && c.s == UNKNOWN {
        DetectLater(c.m, t, d);
      }
    }
  }

  lemma EnterLater(p: Platform, t: St, m: Machine, d: nat -> ProbeEnv)
    ensures Later(m, Enter(p, t, m, d).m)
  {
    var m0 := m.(detects := m.detects + 1);
    var m1 := DetectLoop(m0, t, d).m;
    DetectLater(m0, t, d);
    SameBooks(m, m0);
    LaterLater(m, m0, m1);
    SameBooks(m1, Enter(p, t, m, d).m);
    SameBooks(m, Enter(p, t, m, d).m);
    hide DetectLoop, Later;
    if !Guarded(p, t) && m.state == UNKNOWN {
      LaterLater(m, m1, Enter(p, t, m, d).m);
    }
  }

  lemma SameBooks(a: Machine, b: Machine)
    ensures b == a.(state := b.state, detects := b.detects) ==> Later(a, b)
  {
  }

  lemma ObeyLater(p: Platform, m: Machine, c: Command)
    ensures Later(m, Obey(p, m, c))
  {
    hide Passes, Enter;
    if c.Goto? {
      EnterLater(p, c.t, m, c.d);
      var r := Enter(p, c.t, m, c.d);
      PassesLater(p, c.t, r, c.env, Bound(r.m));
    }
  }

  /** Over a lifetime both watermarks are monotone and capped, and the re-IPL retries ever made plus the
      budget left equal the initial budget. */
  lemma {:induction false} LifetimeBudget(p: Platform, m: Machine, cs: seq<Command>)
    ensures Later(m, Live(p, m, cs))
    ensures Live(p, m, cs).tally.retries - m.tally.retries <= IplBudget(m) + BootBudget(m)
  {
    hide Obey;
    if |cs| > 0 {
      LifetimeBudget(p, m, cs[..|cs| - 1]);
      ObeyLater(p, Live(p, m, cs[..|cs| - 1]), cs[|cs| - 1]);
    }
  }

  lemma LaterLater(a: Machine, b: Machine, c: Machine)
    requires Later(a, b) && Later(b, c)
    ensures Later(a, c)
  {
  }

  /** The same after any number of passes of one more `goto_state`, which need not end. */
  lemma BudgetDuringGoto(p: Platform, m: Machine, cs: seq<Command>, t: St, d: nat -> ProbeEnv, env: nat -> Env, n: nat)
    ensures var m' := Passes(p, t, Enter(p, t, Live(p, m, cs), d), env, n).m;
            Later(m, m') && m'.tally.retries - m.tally.retries <= IplBudget(m) + BootBudget(m)
  {
    hide Passes, Enter, Live;
    var r := Enter(p, t, Live(p, m, cs), d);
    LifetimeBudget(p, m, cs);
    EnterLater(p, t, Live(p, m, cs), d);
    PassesLater(p, t, r, env, n);
    LaterLater(m, Live(p, m, cs), r.m);
    LaterLater(m, r.m, Passes(p, t, r, env, n).m);
  }

  // ----- Detection over a lifetime -----

  ghost predicate Detected(m: Machine) {
    && m.tally.probes <= 2 && m.tally.probes <= m.detects
    && m.tally.reboots <= m.tally.brokenProbes + (if m.neverRebooted then 0 else 1)
    && m.tally.reboots <= m.tally.probes
  }

  predicate SameDetection(a: Machine, b: Machine) {
    && a.detects == b.detects && a.neverRebooted == b.neverRebooted && a.tally.probes == b.tally.probes
    && a.tally.brokenProbes == b.tally.brokenProbes && a.tally.reboots == b.tally.reboots
  }

  lemma CountedProbeCounts(m: Machine, t: St, e: ProbeEnv)
    ensures var c := CountedProbe(m, t, e);
            && c.m.tally.probes == m.tally.probes + 1
            && m.tally.reboots <= c.m.tally.reboots <= m.tally.reboots + 1
            && (c.m.tally.reboots > m.tally.reboots ==> m.neverRebooted)
            && (c.Saw? ==> c.m.detects == m.detects + 1 && !c.m.neverRebooted
                           && c.m.tally.brokenProbes == m.tally.brokenProbes)
            && (c.ProbeRaised? ==> c.m.detects == m.detects && c.m.neverRebooted == m.neverRebooted
                                   && c.m.tally.brokenProbes == m.tally.brokenProbes + 1)
            && c.m.tally.handlers == m.tally.handlers
  {
    hide WaitFor;
  }

  lemma {:induction false} DetectLoopCounts(m: Machine, t: St, d: nat -> ProbeEnv)
    requires Detected(m) && m.tally.probes < m.detects
    ensures Detected(DetectLoop(m, t, d).m)
    decreases 3 - m.detects
  {
    hide CountedProbe;
    if m.detects <= 2 {
      CountedProbeCounts(m, t, d(m.detects));
      var c := CountedProbe(m, t, d(m.detects));
      if c.Saw? && c.s == UNKNOWN {
        DetectLoopCounts(c.m, t, d);
      }
    }
  }

  lemma WaitingSameDetection(p: Platform, m: Machine, t: St, e: Env)
    ensures m.state == IPLING ==> SameDetection(m, HandleIpling(m, t, e).m)
    ensures m.state == BOOTING ==> SameDetection(m, HandleBooting(p, m, t, e).m)
  {
    hide WaitFor;
  }

  lemma HandleSameDetection(p: Platform, m: Machine, t: St, e: Env)
    ensures SameDetection(m, Handle(p, m, t, e).m)
  {
    WaitingSameDetection(p, m, t, e);
    hide HandleIpling, HandleBooting;
  }

  lemma {:induction false} PassesSameDetection(p: Platform, t: St, r: Run, env: nat -> Env, n: nat)
    ensures SameDetection(r.m, Passes(p, t, r, env, n).m)
  {
    hide Handle;
    if n > 0 {
      PassesSameDetection(p, t, r, env, n - 1);
      var q := Passes(p, t, r, env, n - 1);
      if q.status.Running? {
        HandleSameDetection(p, q.m.(tally := q.m.tally.(handlers := q.m.tally.handlers + 1)), t, env(n - 1));
      }
    }
  }

  lemma ObeyDetected(p: Platform, m: Machine, c: Command)
    requires Detected(m)
    ensures Detected(Obey(p, m, c))
  {
    hide Passes, DetectLoop;
    if c.Goto? {
      DetectLoopCounts(m.(detects := m.detects + 1), c.t, c.d);
      var r := Enter(p, c.t, m, c.d);
      PassesSameDetection(p, c.t, r, c.env, Bound(r.m));
    }
  }

  /** From a fresh object there are at most two detection probes ever, whether or not they raise. There is
      at most one reboot, plus one for every probe that raised. */
  lemma {:induction false} LifetimeDetection(p: Platform, m: Machine, cs: seq<Command>)
    requires m.tally == NEW_TALLY
    ensures var m' := Live(p, m, cs);
            Detected(m') && m'.tally.probes <= 2 && (m'.tally.brokenProbes == 0 ==> m'.tally.reboots <= 1)
  {
    hide Obey;
    if |cs| > 0 {
      LifetimeDetection(p, m, cs[..|cs| - 1]);
      ObeyDetected(p, Live(p, m, cs[..|cs| - 1]), cs[|cs| - 1]);
    }
  }

  /** When a probe reboots the host. */
  predicate Rebooting(m: Machine, t: St, e: ProbeEnv) {
    var unseen := e.ssh.SawNothing? || t !in {OS, PETITBOOT_SHELL};
    && m.neverRebooted
    && t in {OS, PETITBOOT, PETITBOOT_SHELL}
    && if !unseen && AsState(e.ssh) != t then true
       else
         && unseen && e.console.Fine?
         && if e.r <= 1 then t == OS && e.action.Fine?
            else if e.r <= 3 then
              e.kernel.KernelIs? && AsState(e.kernel.seen) != t && !(e.kernel.seen == SawShell && t == PETITBOOT)
            else e.r == 4 && t != OS
  }

  /** A probe reboots exactly under that guard, and leaves the permission to reboot behind exactly if it
      raised; so it reboots and may be followed by another reboot exactly if it broke inside the reboot. */
  lemma ProbeReboots(m: Machine, t: St, e: ProbeEnv)
    ensures var m' := CountedProbe(m, t, e).m;
            && m'.tally.reboots == m.tally.reboots + (if Rebooting(m, t, e) then 1 else 0)
            && (m'.tally.reboots > m.tally.reboots && m'.neverRebooted <==> Rebooting(m, t, e) && e.rebootStep.Broke?)
  {
    hide WaitFor;
  }

  /** A probe as it was made: on which machine, for which target, in which environment. */
  datatype Made = Made(m: Machine, t: St, e: ProbeEnv)

  /** The probes that the loop of `run_DETECT` makes. */
  function DetectProbes(m: Machine, t: St, d: nat -> ProbeEnv): seq<Made>
    decreases 3 - m.detects
  {
    if m.detects > 2 then []
    else
      var c := CountedProbe(m, t, d(m.detects));
      [Made(m, t, d(m.detects))] + if c.Saw? && c.s == UNKNOWN then DetectProbes(c.m, t, d) else []
  }

  /** The probes that one command makes on machine `m`. */
  function CommandProbes(p: Platform, m: Machine, c: Command): seq<Made> {
    if c.Goto? && !Guarded(p, c.t) && m.state == UNKNOWN then DetectProbes(m.(detects := m.detects + 1), c.t, c.d)
    else []
  }

  /** All probes of a life, in their order. */
  function Probes(p: Platform, m: Machine, cs: seq<Command>): seq<Made> {
    if |cs| == 0 then []
    else
      var front := cs[..|cs| - 1];
      Probes(p, m, front) + CommandProbes(p, Live(p, m, front), cs[|cs| - 1])
  }

  function RebootCount(ps: seq<Made>): nat {
    if |ps| == 0 then 0
    else RebootCount(ps[..|ps| - 1]) + if Rebooting(ps[|ps| - 1].m, ps[|ps| - 1].t, ps[|ps| - 1].e) then 1 else 0
  }

  /** Whether rebooting is still allowed after the probes `ps`. */
  function Allowed(first: bool, ps: seq<Made>): bool {
    if |ps| == 0 then first else var last := ps[|ps| - 1]; CountedProbe(last.m, last.t, last.e).m.neverRebooted
  }

  /** The machine `m` carries the traces of exactly the probes `ps`, and each of them met the permission
      that the one before it left. */
  ghost predicate Traces(first: bool, ps: seq<Made>, m: Machine) {
    && m.tally.probes == |ps| && m.tally.reboots == RebootCount(ps) && m.neverRebooted == Allowed(first, ps)
    && forall i :: 0 <= i < |ps| ==> ps[i].m.neverRebooted == Allowed(first, ps[..i])
  }

  lemma OneMoreProbe(first: bool, ps: seq<Made>, m: Machine, t: St, e: ProbeEnv)
    requires Traces(first, ps, m)
    ensures Traces(first, ps + [Made(m, t, e)], CountedProbe(m, t, e).m)
  {
    CountedProbeCounts(m, t, e);
    ProbeReboots(m, t, e);
    hide CountedProbe, Rebooting;
    var qs := ps + [Made(m, t, e)];
    assert qs[..|qs| - 1] == ps && qs[|qs| - 1] == Made(m, t, e);
    hide RebootCount, Allowed;
    forall i | 0 <= i < |qs| ensures qs[i].m.neverRebooted == Allowed(first, qs[..i]) {
      if i < |ps| {
        assert qs[..i] == ps[..i] && qs[i] == ps[i];
      }
    }
  }

  lemma {:induction false} DetectTraces(first: bool, ps: seq<Made>, m: Machine, t: St, d: nat -> ProbeEnv)
    requires Traces(first, ps, m)
    ensures Traces(first, ps + DetectProbes(m, t, d), DetectLoop(m, t, d).m)
    decreases 3 - m.detects
  {
    hide CountedProbe, Traces;
    if m.detects > 2 {
      assert ps + [] == ps;
    } else {
      var made := Made(m, t, d(m.detects));
      OneMoreProbe(first, ps, m, t, d(m.detects));
      CountedProbeCounts(m, t, d(m.detects));
      var c := CountedProbe(m, t, d(m.detects));
      assert [made] + [] == [made];
      if c.Saw? && c.s == UNKNOWN {
        DetectTraces(first, ps + [made], c.m, t, d);
        assert ps + [made] + DetectProbes(c.m, t, d) == ps + ([made] + DetectProbes(c.m, t, d));
      }
    }
  }

  lemma SameTraces(first: bool, ps: seq<Made>, m: Machine, m': Machine)
    requires Traces(first, ps, m) && SameDetection(m, m')
    ensures Traces(first, ps, m')
  {
  }

  lemma {:induction false} LifeTraces(p: Platform, m: Machine, cs: seq<Command>)
    requires m.tally == NEW_TALLY
    ensures Traces(m.neverRebooted, Probes(p, m, cs), Live(p, m, cs))
  {
    hide Traces, Obey, CommandProbes;
    if |cs| == 0 {
      NoTraces(m);
    } else {
      var front, c := cs[..|cs| - 1], cs[|cs| - 1];
      LifeTraces(p, m, front);
      ObeyTraces(m.neverRebooted, Probes(p, m, front), p, Live(p, m, front), c);
    }
  }

  lemma NoTraces(m: Machine)
    requires m.tally == NEW_TALLY
    ensures Traces(m.neverRebooted, [], m)
  {
  }

  lemma ObeySameDetection(p: Platform, m: Machine, c: Command)
    requires c.Goto?
    ensures SameDetection(Enter(p, c.t, m, c.d).m, Obey(p, m, c))
  {
    hide Passes, Enter;
    var r := Enter(p, c.t, m, c.d);
    PassesSameDetection(p, c.t, r, c.env, Bound(r.m));
  }

  lemma EnterTraces(first: bool, ps: seq<Made>, p: Platform, m: Machine, c: Command)
    requires Traces(first, ps, m) && c.Goto?
    ensures Traces(first, ps + CommandProbes(p, m, c), Enter(p, c.t, m, c.d).m)
  {
    assert ps + [] == ps;
    hide Traces, DetectLoop, DetectProbes;
    if !Guarded(p, c.t) && m.state == UNKNOWN {
      var m0 := m.(detects := m.detects + 1);
      RaisedCounter(first, ps, m, m0);
      DetectTraces(first, ps, m0, c.t, c.d);
      SameTraces(first, ps + DetectProbes(m0, c.t, c.d), DetectLoop(m0, c.t, c.d).m, Enter(p, c.t, m, c.d).m);
    }
  }

  lemma ObeyTraces(first: bool, ps: seq<Made>, p: Platform, m: Machine, c: Command)
    requires Traces(first, ps, m)
    ensures Traces(first, ps + CommandProbes(p, m, c), Obey(p, m, c))
  {
    if c.SetState? {
      assert ps + [] == ps;
      SameTraces(first, ps, m, Obey(p, m, c));
    } else {
      hide Traces, Obey, Enter, CommandProbes;
      ObeySameDetection(p, m, c);
      EnterTraces(first, ps, p, m, c);
      SameTraces(first, ps + CommandProbes(p, m, c), Enter(p, c.t, m, c.d).m, Obey(p, m, c));
    }
  }

  lemma RaisedCounter(first: bool, ps: seq<Made>, m: Machine, m': Machine)
    requires Traces(first, ps, m) && m' == m.(detects := m'.detects)
    ensures Traces(first, ps, m')
  {
  }

  /** In every life of a fresh object the reboots are those of its probes, of which there are at most two;
      the host is rebooted twice exactly if the first probe broke inside its reboot and the second one
      reboots. */
  lemma LifetimeReboots(p: Platform, m: Machine, cs: seq<Command>)
    requires m.tally == NEW_TALLY
    ensures var ps := Probes(p, m, cs);
            var reboots := Live(p, m, cs).tally.reboots;
            && |ps| == Live(p, m, cs).tally.probes <= 2 && reboots == RebootCount(ps) <= 2
            && (reboots == 2 <==>
                  && |ps| == 2
                  && Rebooting(ps[0].m, ps[0].t, ps[0].e) && ps[0].e.rebootStep.Broke?
                  && Rebooting(ps[1].m, ps[1].t, ps[1].e))
  {
    hide Live, Probes, Traces, Detected;
    LifetimeDetection(p, m, cs);
    LifeTraces(p, m, cs);
    AtMostTwoProbes(m.neverRebooted, Probes(p, m, cs), Live(p, m, cs));
  }

  lemma AtMostTwoProbes(first: bool, ps: seq<Made>, m: Machine)
    requires Traces(first, ps, m) && m.tally.probes <= 2
    ensures RebootCount(ps) == m.tally.reboots <= 2 && |ps| == m.tally.probes
    ensures RebootCount(ps) == 2 <==>
              && |ps| == 2
              && Rebooting(ps[0].m, ps[0].t, ps[0].e) && ps[0].e.rebootStep.Broke?
              && Rebooting(ps[1].m, ps[1].t, ps[1].e)
  {
    hide Rebooting, CountedProbe;
    if |ps| > 0 {
      var one := ps[..1];
      assert one[..0] == [] && one[0] == ps[0] && RebootCount(one[..0]) == 0;
      assert RebootCount(one) == if Rebooting(ps[0].m, ps[0].t, ps[0].e) then 1 else 0;
      ProbeReboots(ps[0].m, ps[0].t, ps[0].e);
      if |ps| == 2 {
        assert ps[1].m.neverRebooted == Allowed(first, one);
        if Rebooting(ps[1].m, ps[1].t, ps[1].e) {
          RebootingIsAllowed(ps[1]);
        }
      } else {
        assert ps == one;
      }
    }
  }

  lemma RebootingIsAllowed(made: Made)
    requires Rebooting(made.m, made.t, made.e)
    ensures made.m.neverRebooted
  {
  }

  /** The exception is real: a reboot that breaks before it is recorded is tried again by the next probe. */
  lemma BrokenProbeRebootsTwice(p: Platform, e: ProbeEnv, env: nat -> Env)
    requires !p.hmc && e.console.Fine? && e.r == 4 && e.rebootStep == Broke(false)
    ensures var m := Machine(UNKNOWN, false, 0, true, 100, 100, 102, NEW_TALLY);
            Live(p, m, [Goto(PETITBOOT, _ => e, env, Fine), Goto(PETITBOOT, _ => e, env, Fine)]).tally.reboots == 2
  {
    hide WaitFor, Passes;
    var m := Machine(UNKNOWN, false, 0, true, 100, 100, 102, NEW_TALLY);
    var d: nat -> ProbeEnv := _ => e;
    var c := Goto(PETITBOOT, d, env, Fine);
    var cs := [c, c];
    assert cs[..1] == [c] && cs[..1][..0] == [];
    var m1 := Obey(p, m, c);
    PassesStay(p, PETITBOOT, Enter(p, PETITBOOT, m, d), env, Bound(Enter(p, PETITBOOT, m, d).m));
    PassesStay(p, PETITBOOT, Enter(p, PETITBOOT, m1, d), env, Bound(Enter(p, PETITBOOT, m1, d).m));
    assert Live(p, m, [c]) == m1;
    assert m1.tally.reboots == 1 && m1.detects == 1 && m1.neverRebooted && m1.state == UNKNOWN;
  }

  // ----- Stop is absorbing -----

  lemma StoppedGoto(p: Platform, t: St, m: Machine, d: nat -> ProbeEnv, env: nat -> Env, nvram: Step)
    requires m.stop
    ensures var run := GotoRun(p, t, m, d, env, nvram);
            run.status.Failing? && run.calls == 0 && run.m.stop && run.m.tally.handlers == m.tally.handlers
  {
    hide Handle, Enter;
    EnterLater(p, t, m, d);
    EnterRunsNoHandler(p, t, m, d);
    var r := Enter(p, t, m, d);
    if r.status.Running? {
      StoppedPasses(p, t, r, env, Bound(r.m));
    } else {
      PassesStay(p, t, r, env, Bound(r.m));
    }
  }

  lemma {:induction false} DetectRunsNoHandler(m: Machine, t: St, d: nat -> ProbeEnv)
    ensures DetectLoop(m, t, d).m.tally.handlers == m.tally.handlers
    decreases 3 - m.detects
  {
    hide CountedProbe;
    if m.detects <= 2 {
      CountedProbeCounts(m, t, d(m.detects));
      var c := CountedProbe(m, t, d(m.detects));
      if c.Saw? && c.s == UNKNOWN {
        DetectRunsNoHandler(c.m, t, d);
      }
    }
  }

  lemma EnterRunsNoHandler(p: Platform, t: St, m: Machine, d: nat -> ProbeEnv)
    ensures var r := Enter(p, t, m, d);
            r.m.tally.handlers == m.tally.handlers && r.calls == 0 && !r.status.Returned? && r.trace == [] && !r.known
  {
    hide DetectLoop;
    DetectRunsNoHandler(m.(detects := m.detects + 1), t, d);
  }

  lemma {:induction false} StoppedPasses(p: Platform, t: St, r: Run, env: nat -> Env, n: nat)
    requires r.status.Running? && r.m.stop && n > 0
    ensures Passes(p, t, r, env, n) == r.(status := Failing(Stopping))
  {
    hide Handle;
    if n > 1 {
      StoppedPasses(p, t, r, env, n - 1);
    } else {
      assert Passes(p, t, r, env, 0) == r;
    }
  }

  /** Once stop is set no handler ever runs again, whatever `set_state` does in between, and every
      `goto_state` raises. */
  lemma {:induction false} StopIsAbsorbing(p: Platform, m: Machine, cs: seq<Command>, next: Command)
    requires m.stop
    ensures var m' := Live(p, m, cs);
            && m'.stop && m'.tally.handlers == m.tally.handlers
            && (next.Goto? ==> GotoRun(p, next.t, m', next.d, next.env, next.nvram).status.Failing?
                               && GotoRun(p, next.t, m', next.d, next.env, next.nvram).calls == 0)
  {
    hide GotoRun;
    if |cs| > 0 {
      var c := cs[|cs| - 1];
      StopIsAbsorbing(p, m, cs[..|cs| - 1], c);
      if c.Goto? {
        StoppedGoto(p, c.t, Live(p, m, cs[..|cs| - 1]), c.d, c.env, c.nvram);
      }
    }
    if next.Goto? {
      StoppedGoto(p, next.t, Live(p, m, cs), next.d, next.env, next.nvram);
    }
  }

  // ----- What sets stop -----

  /** The exceptions that make the IPL wait (and, without the HTTP one, the boot wait) try again. */
  predicate Retryable(s: St, exc: Exc) {
    exc.WaitForItFailed? || (s == IPLING && exc.HttpCheck?)
  }

  predicate Waits(p: Platform, m: Machine, t: St, e: Env) {
    (m.state == IPLING && t != OFF) || (m.state == BOOTING && !(p.hmc && e.sshLogin))
  }

  function WaitOf(m: Machine, e: Env): Result {
    WaitFor(if m.state == IPLING then IplConfig(m) else BootConfig(m), e.wait)
  }

  /** The effects an exception can carry out of the wait: only the hostboot callback raises
      HostbootShutdown, and it has set both flags; a retryable one sets neither. */
  lemma {:induction false} ThrownEffects(cfg: Config, polls: nat -> Poll, l: Loop)
    ensures var w := Wait(cfg, polls, l);
            w.Threw? && w.thrown.exc.HostbootShutdown? ==> w.thrown.bad && w.thrown.stopped
    ensures var w := Wait(cfg, polls, l);
            w.Threw? && (w.thrown.exc.WaitForItFailed? || w.thrown.exc.HttpCheck?) ==>
              !w.thrown.bad && !w.thrown.stopped
    decreases cfg.loopMax - l.x
  {
    if l.x <= cfg.loopMax {
      var turn := OnePass(cfg, l, polls(l.polls));
      if turn.Again? && turn.l.x < cfg.loopMax {
        ThrownEffects(cfg, polls, turn.l);
      }
    }
  }

  /** While waiting in IPLing or BOOTING, stop is set exactly when the wait ended otherwise than by a
      match or a retryable exception; then the handler raises and the state is UNKNOWN_BAD. */
  lemma StopExactlyOnFatalWait(p: Platform, m: Machine, t: St, e: Env)
    requires Waits(p, m, t, e) && !m.stop
    ensures var h := Handle(p, m, t, e);
            var w := WaitOf(m, e);
            && (h.m.stop <==> w.FellThrough? || (w.Threw? && !Retryable(m.state, w.thrown.exc)))
            && (h.m.stop ==> h.Raised? && h.m.state == UNKNOWN_BAD)
  {
    hide Wait;
    ThrownEffects(if m.state == IPLING then IplConfig(m) else BootConfig(m), e.wait.polls, START);
    if m.state == IPLING {
      StopInIpling(m, t, e);
    } else {
      StopInBooting(p, m, t, e);
    }
  }

  lemma StopInIpling(m: Machine, t: St, e: Env)
    requires m.state == IPLING && t != OFF && !m.stop
    requires var w := WaitFor(IplConfig(m), e.wait);
             && (w.Threw? && w.thrown.exc.HostbootShutdown? ==> w.thrown.bad && w.thrown.stopped)
             && (w.Threw? && Retryable(IPLING, w.thrown.exc) ==> !w.thrown.bad && !w.thrown.stopped)
    ensures var h := HandleIpling(m, t, e);
            var w := WaitFor(IplConfig(m), e.wait);
            && (h.m.stop <==> w.FellThrough? || (w.Threw? && !Retryable(IPLING, w.thrown.exc)))
            && (h.m.stop ==> h.Raised? && h.m.state == UNKNOWN_BAD)
  {
    hide WaitFor;
  }

  lemma StopInBooting(p: Platform, m: Machine, t: St, e: Env)
    requires m.state == BOOTING && !(p.hmc && e.sshLogin) && !m.stop
    requires var w := WaitFor(BootConfig(m), e.wait);
             w.Threw? && Retryable(BOOTING, w.thrown.exc) ==> !w.thrown.bad && !w.thrown.stopped
    ensures var h := HandleBooting(p, m, t, e);
            var w := WaitFor(BootConfig(m), e.wait);
            && (h.m.stop <==> w.FellThrough? || (w.Threw? && !Retryable(BOOTING, w.thrown.exc)))
            && (h.m.stop ==> h.Raised? && h.m.state == UNKNOWN_BAD)
  {
    hide WaitFor;
  }

  /** From the console to the end of the object's life: if the first alarm of the wait, at expect `k`, is
      a fatal pattern or a callback with a non-retryable exception, then `goto_state` raises after this
      one handler call, with stop set and state UNKNOWN_BAD, and no handler runs ever after. */
  lemma AlarmStopsForGood(p: Platform, t: St, m: Machine, d: nat -> ProbeEnv, env: nat -> Env, nvram: Step,
                          k: nat, later: seq<Command>)
    requires !Guarded(p, t) && !m.stop && Waits(p, m, t, env(0))
    requires env(0).wait.runtime.Up? && env(0).wait.connect.Fine?
    requires var cfg := if m.state == IPLING then IplConfig(m) else BootConfig(m);
             var polls := env(0).wait.polls;
             && k < cfg.loopMax && cfg.loopMax > 1
             && (forall j :: 0 <= j < k ==> Uneventful(polls(j)) && polls(j).close.Fine? && polls(j).kick.Fine?)
             && polls(k).open.Fine? && Alarm(cfg, polls(k)).Some?
             && !Retryable(m.state, Alarm(cfg, polls(k)).value.exc)
    ensures var run := GotoRun(p, t, m, d, env, nvram);
            && run.status.Failing? && run.calls == 1 && run.m.stop && run.m.state == UNKNOWN_BAD
            && Live(p, run.m, later).tally.handlers == run.m.tally.handlers
  {
    hide Wait, OnePass, Alarm, Detect;
    var cfg := if m.state == IPLING then IplConfig(m) else BootConfig(m);
    FirstAlarmEndsWait(cfg, env(0).wait.polls, START, k);
    var m0 := m.(tally := m.tally.(handlers := m.tally.handlers + 1));
    StopExactlyOnFatalWait(p, m0, t, env(0));
    OneFailingPass(p, t, m, env);
    var run := GotoRun(p, t, m, d, env, nvram);
    StopIsAbsorbing(p, run.m, later, SetState(UNKNOWN));
  }

  lemma OneFailingPass(p: Platform, t: St, m: Machine, env: nat -> Env)
    requires !m.stop
    requires Handle(p, m.(tally := m.tally.(handlers := m.tally.handlers + 1)), t, env(0)).Raised?
    ensures var h := Handle(p, m.(tally := m.tally.(handlers := m.tally.handlers + 1)), t, env(0));
            var run := Passes(p, t, Begin(m), env, Bound(m));
            run.status.Failing? && run.calls == 1 && run.m == h.m
  {
    hide Handle;
    var r1 := Passes(p, t, Begin(m), env, 1);
    assert Passes(p, t, Begin(m), env, 0) == Begin(m);
    FinishedPasses(p, t, Begin(m), env, 1, Bound(m));
  }

  // ----- What detection may claim -----

  lemma {:induction false} DetectYieldsTargetOrUnknown(m: Machine, t: St, d: nat -> ProbeEnv)
    ensures var c := DetectLoop(m, t, d);
            c.Saw? ==> c.s == UNKNOWN || (c.s == t && t in {OS, PETITBOOT, PETITBOOT_SHELL})
    decreases 3 - m.detects
  {
    hide CountedProbe;
    if m.detects <= 2 {
      ProbeYieldsTargetOrUnknown(m, t, d(m.detects));
      CountedProbeCounts(m, t, d(m.detects));
      var c := CountedProbe(m, t, d(m.detects));
      if c.Saw? && c.s == UNKNOWN {
        DetectYieldsTargetOrUnknown(c.m, t, d);
      }
    }
  }

  lemma ProbeYieldsTargetOrUnknown(m: Machine, t: St, e: ProbeEnv)
    ensures var c := CountedProbe(m, t, e);
            && (c.Saw? ==> c.s == UNKNOWN || (c.s == t && t in {OS, PETITBOOT, PETITBOOT_SHELL}))
            && c.m.tally.powerOffs == m.tally.powerOffs
  {
    hide WaitFor;
  }

  /** The shell was seen over ssh or at the prompt, or was entered from the menu. */
  predicate ShellObserved(e: ProbeEnv) {
    || e.ssh.SawShell?
    || (e.console.Fine? && e.r <= 1)
    || (e.console.Fine? && e.r in {2, 3} && e.kernel == KernelIs(SawShell))
  }

  /** A probe may claim the petitboot shell without having seen it: exactly on a later probe that finds
      some prompt, when the kernel check says anything else than the shell. */
  lemma ShellClaimedUnseen(m: Machine, e: ProbeEnv)
    ensures var c := Probe(m, PETITBOOT_SHELL, e);
            c.Saw? && c.s == PETITBOOT_SHELL && !ShellObserved(e)
            <==> !m.neverRebooted && e.ssh.SawNothing? && e.console.Fine? && e.r in {2, 3}
                 && e.kernel.KernelIs? && e.kernel.seen != SawShell
  {
    hide WaitFor;
  }

  lemma {:induction false} DetectKeepsPowerOffs(m: Machine, t: St, d: nat -> ProbeEnv)
    ensures DetectLoop(m, t, d).m.tally.powerOffs == m.tally.powerOffs
    decreases 3 - m.detects
  {
    hide CountedProbe;
    if m.detects <= 2 {
      ProbeYieldsTargetOrUnknown(m, t, d(m.detects));
      CountedProbeCounts(m, t, d(m.detects));
      var c := CountedProbe(m, t, d(m.detects));
      if c.Saw? && c.s == UNKNOWN {
        DetectKeepsPowerOffs(c.m, t, d);
      }
    }
  }

  /** `goto_state` from UNKNOWN. If detection finds the target, exactly one handler call follows, without
      a power-off, and it reaches the target or raises. Otherwise the first handler powers off. */
  lemma DetectionDecides(p: Platform, t: St, m: Machine, d: nat -> ProbeEnv, env: nat -> Env, nvram: Step)
    requires !Guarded(p, t) && m.state == UNKNOWN
    requires Detect(m, t, d).Saw? && !Detect(m, t, d).m.stop
    ensures var found := Detect(m, t, d).s;
            var run := GotoRun(p, t, m, d, env, nvram);
            && (found == UNKNOWN || (found == t && t in {OS, PETITBOOT, PETITBOOT_SHELL}))
            && (found != UNKNOWN ==>
                  && run.calls == 1 && !run.status.Running? && run.m.tally.powerOffs == m.tally.powerOffs
                  && (env(0).first.Fine? && env(0).second.Fine? && nvram.Fine? ==>
                        run.status.Returned? && run.m.state == t))
            && (found == UNKNOWN ==>
                  Passes(p, t, Enter(p, t, m, d), env, 1).m.tally.powerOffs == m.tally.powerOffs + 1)
  {
    hide DetectLoop, WaitFor;
    DetectYieldsTargetOrUnknown(m.(detects := m.detects + 1), t, d);
    DetectKeepsPowerOffs(m.(detects := m.detects + 1), t, d);
    var r := Enter(p, t, m, d);
    assert r.status.Running? && r.m.state == Detect(m, t, d).s;
    FirstPass(p, t, r, env);
  }

  lemma FirstPass(p: Platform, t: St, r: Run, env: nat -> Env)
    requires r == Begin(r.m) && !r.m.stop
    requires r.m.state == UNKNOWN || (r.m.state == t && t in {OS, PETITBOOT, PETITBOOT_SHELL})
    ensures var run := Passes(p, t, r, env, Bound(r.m));
            r.m.state != UNKNOWN ==>
              && run.calls == 1 && !run.status.Running? && run.m.tally.powerOffs == r.m.tally.powerOffs
              && (env(0).first.Fine? && env(0).second.Fine? ==> run.status.Returned? && run.m.state == t)
    ensures r.m.state == UNKNOWN ==> Passes(p, t, r, env, 1).m.tally.powerOffs == r.m.tally.powerOffs + 1
  {
    hide WaitFor;
    assert Passes(p, t, r, env, 0) == r;
    if r.m.state != UNKNOWN {
      FinishedPasses(p, t, r, env, 1, Bound(r.m));
    }
  }
}
