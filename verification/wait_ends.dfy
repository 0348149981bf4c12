/** How a wait ends, told from the console: what the first expect that is more than a timeout leads to,
    which strings of the two tables are good, and how often a silent console is reconnected. */
module WaitEnds {
  import opened Wrappers
  import opened OpExpect
  import opened WaitForIt

  // ----- The first expect that matters -----

  /** Expects before number `k` do nothing but time out or hit EOF. */
  ghost predicate QuietBefore(polls: nat -> Poll, k: nat) {
    forall j :: 0 <= j < k ==> Quiet(polls(j))
  }

  /** A wait gets past quiet expects to number `k`: the last try, or another pass of the loop. */
  lemma {:induction false} ReachesExpect(cfg: Config, polls: nat -> Poll, l: Loop, k: nat) returns (l': Loop)
    requires cfg.threshold > 0 && QuietBefore(polls, k)
    requires l.polls == l.x - 1 && l.polls <= k < cfg.loopMax && l.x < cfg.loopMax
    ensures l'.polls == k && l'.x == k + 1
    ensures Wait(cfg, polls, l) ==
            if k < cfg.loopMax - 1 then Wait(cfg, polls, l')
            else if cfg.lastTry then LastTry(cfg, l', polls(k))
            else Threw(Thrown(WaitForItFailed, false, false), l'.reconnects, k)
    decreases cfg.loopMax - l.x
  {
    hide OnePass, LastTry, Quiet;
    if l.polls == k {
      l' := l;
    } else {
      assert Quiet(polls(l.polls));
      QuietPass(cfg, l, polls(l.polls));
      PassKeepsCount(cfg, l, polls(l.polls));
      l' := OnePass(cfg, l, polls(l.polls)).l;
      if l'.x < cfg.loopMax {
        l' := ReachesExpect(cfg, polls, l', k);
      }
    }
  }

  /** Expect number `k` is made: by the loop, or as the last try. */
  predicate Made(cfg: Config, k: nat) {
    k < cfg.loopMax - 1 || (cfg.lastTry && k == cfg.loopMax - 1)
  }

  /** The expect matches entry `i` of the table, a plain string. */
  predicate Good(cfg: Config, p: Poll, i: nat) {
    && p.open.Fine? && i < |cfg.table| && cfg.table[i].action.None?
    && p.console.raw == Matched(FATAL_PATTERNS + BASE + i)
  }

  lemma GoodPass(cfg: Config, l: Loop, p: Poll, i: nat)
    requires cfg.threshold > 0 && Good(cfg, p, i)
    ensures OnePass(cfg, l, p) == Done(Found(i, l.reconnects, l.polls + 1))
    ensures LastTry(cfg, l, p) == Found(i, l.reconnects, l.polls + 1)
  {
    assert Look(cfg.table, p) == Index(BASE + i);
    hide Look;
  }

  /** The first match of a plain string ends the wait with its index, at whatever expect it comes; the last
      try is no exception. */
  lemma FirstHitEndsWait(cfg: Config, polls: nat -> Poll, k: nat, i: nat)
    requires cfg.threshold > 0 && cfg.loopMax >= 2 && Made(cfg, k) && QuietBefore(polls, k) && Good(cfg, polls(k), i)
    ensures var w := Wait(cfg, polls, START); w.Found? && w.index == i && w.polls == k + 1
  {
    hide OnePass, LastTry;
    var l := ReachesExpect(cfg, polls, START, k);
    GoodPass(cfg, l, polls(k), i);
  }

  /** A console that cannot be opened, is lost or cannot be closed after an EOF ends the wait as well. */
  function Breakage(cfg: Config, p: Poll): Option<Thrown> {
    if p.open.Broke? then Some(Thrown(Other, p.open.marked, false))
    else if p.console.raw.Lost? || p.console.raw.index >= FATAL_PATTERNS + BASE + |cfg.table| then
      Some(Thrown(ConsoleFault(ConsoleLost), false, false))
    else if p.console.raw.index == FATAL_PATTERNS + EOF && p.close.Broke? then
      Some(Thrown(Other, p.close.marked, false))
    else None
  }

  lemma BrokenPass(cfg: Config, l: Loop, p: Poll)
    requires cfg.threshold > 0 && Breakage(cfg, p).Some?
    ensures var pass := OnePass(cfg, l, p);
            pass.Done? && pass.result.Threw? && pass.result.thrown == Breakage(cfg, p).value
    ensures var w := LastTry(cfg, l, p); w.Threw? && w.thrown == Breakage(cfg, p).value
  {
    if p.open.Fine? && p.console.raw.Matched? && p.console.raw.index == FATAL_PATTERNS + EOF {
      assert Look(cfg.table, p) == Index(EOF);
    }
  }

  lemma FirstBreakageEndsWait(cfg: Config, polls: nat -> Poll, k: nat)
    requires cfg.threshold > 0 && cfg.loopMax >= 2 && Made(cfg, k) && QuietBefore(polls, k)
    requires Breakage(cfg, polls(k)).Some?
    ensures var w := Wait(cfg, polls, START); w.Threw? && w.thrown == Breakage(cfg, polls(k)).value
  {
    hide OnePass, LastTry, Breakage;
    var l := ReachesExpect(cfg, polls, START, k);
    BrokenPass(cfg, l, polls(k));
  }

  /** A console that stays quiet makes the wait give up, after all its expects. */
  lemma SilenceGivesUp(cfg: Config, polls: nat -> Poll)
    requires cfg.threshold > 0 && cfg.loopMax >= 2 && QuietBefore(polls, cfg.loopMax)
    ensures var w := Wait(cfg, polls, START);
            && w.Threw? && w.thrown == Thrown(WaitForItFailed, false, false)
            && w.polls == if cfg.lastTry then cfg.loopMax else cfg.loopMax - 1
  {
    hide OnePass, LastTry;
    var k := cfg.loopMax - 1;
    var l := ReachesExpect(cfg, polls, START, k);
    assert Quiet(polls(k));
    QuietLastTry(cfg, l, polls(k));
  }

  lemma QuietLastTry(cfg: Config, l: Loop, p: Poll)
    requires Quiet(p)
    ensures LastTry(cfg, l, p) == Threw(Thrown(WaitForItFailed, false, false), l.reconnects, l.polls + 1)
  {
  }

  // ----- What the strings mean -----

  /** The strings that end a wait well. */
  const PETITBOOT_GOOD := ["/ #", "Petitboot", "x=exit"]
  const LOGIN_GOOD := ["login: "]

  /** A wait is only ever found on a good string of its table, and that string really matched. */
  lemma FoundIsGood(cfg: Config, polls: nat -> Poll)
    requires cfg.table in {PETITBOOT_TABLE, LOGIN_TABLE}
    ensures var w := Wait(cfg, polls, START);
            w.Found? ==>
              && w.polls > 0 && w.index < |cfg.table|
              && polls(w.polls - 1).console.raw == Matched(FATAL_PATTERNS + BASE + w.index)
              && cfg.table[w.index].key in if cfg.table == PETITBOOT_TABLE then PETITBOOT_GOOD else LOGIN_GOOD
  {
    hide Wait;
    LastPollDecides(cfg, polls, START);
    var w := Wait(cfg, polls, START);
    if w.Found? {
      StringsAct(w.index, Collected);
    }
  }

  /** What a string of the petitboot table does: end the wait well, ask for another try, or stop the system
      (with its diagnostics collected). */
  lemma StringsAct(i: nat, d: Diagnostics)
    ensures i < |PETITBOOT_TABLE| ==>
              var Entry(key, action) := PETITBOOT_TABLE[i];
              && (action.None? <==> key in PETITBOOT_GOOD)
              && (action.Some? ==> Stops(RunCallback(action.value, d), key, d))
    ensures i < |LOGIN_TABLE| ==>
              var Entry(key, action) := LOGIN_TABLE[i];
              && (action.None? <==> key in LOGIN_GOOD)
              && (action.Some? ==> Stops(RunCallback(action.value, d), key, d))
  {
    if i < |LOGIN_TABLE| {
      LoginStringsAct(i, d);
    }
  }

  lemma LoginStringsAct(i: nat, d: Diagnostics)
    requires i < |LOGIN_TABLE|
    ensures var Entry(key, action) := LOGIN_TABLE[i];
            && (action.None? <==> key in LOGIN_GOOD)
            && (action.Some? ==> Stops(RunCallback(action.value, d), key, d))
  {
  }

  /** The login prompt while waiting for petitboot, and the petitboot prompt while waiting for the login, ask
      for another try. A shutdown request and the dracut shell stop the system whatever becomes of their
      diagnostics; the other bad strings stop it if these are collected. */
  predicate Stops(t: Thrown, key: string, d: Diagnostics) {
    if key in {"login: ", "/ #"} then t == Thrown(WaitForItFailed, false, false)
    else
      && (key in {"shutdown requested", "dracut:/#"} || d.Collected? ==> t.bad && t.stopped)
      && (key == "shutdown requested" ==> t.exc == HostbootShutdown)
      && (key != "shutdown requested" && t.stopped ==> t.exc == UnexpectedCase)
      && (!t.stopped ==>
            t.exc == match d case HttpFailed => HttpCheck case ConsoleFailed(f, _) => ConsoleFault(f) case _ => Other)
  }

  // ----- Reconnecting a silent console -----

  /** A console that times out with the same text for ever. */
  ghost predicate Steady(polls: nat -> Poll, text: string) {
    && text != "emptyfirst" && text != "emptyagain"
    && forall j :: polls(j).open.Fine? && polls(j).kick.Fine? && polls(j).before == text
                   && polls(j).console.raw == Matched(FATAL_PATTERNS + TIMEOUT)
  }

  /** The loop after `n` such expects. */
  function SteadyLoop(cfg: Config, text: string, n: nat): Loop
    requires cfg.threshold > 0
  {
    if n == 0 then START
    else if n % cfg.threshold == 0 then Loop(n + 1, "emptyagain", cfg.threshold, n / cfg.threshold, n)
    else Loop(n + 1, text, n % cfg.threshold, n / cfg.threshold, n)
  }

  /** Counting on from `n` by the quotient and the remainder. */
  lemma CountOn(n: nat, m: nat)
    requires m >= 2
    ensures if n % m == m - 1 then (n + 1) % m == 0 && (n + 1) / m == n / m + 1
            else (n + 1) % m == n % m + 1 && (n + 1) / m == n / m
  {
    var q, r := n / m, n % m;
    assert n == q * m + r;
    assert (q + 1) * m == q * m + m;
    QuotientAndRest(n + 1, if r + 1 < m then q else q + 1, if r + 1 < m then r + 1 else 0, m);
  }

  lemma QuotientAndRest(x: nat, q: nat, r: nat, m: nat)
    requires r < m && x == q * m + r
    ensures x % m == r && x / m == q
  {
    var n, k := x / m, x % m;
    assert x == m * n + k;
    assert (q - n) * m == q * m - n * m;
    SmallMultiple(q - n, m);
  }

  /** The same console, but the traffic after its first reconnect raises: the wait ends there. */
  lemma BrokenKickEndsWait(cfg: Config, polls: nat -> Poll, quiet: nat -> Poll, text: string)
    requires 2 <= cfg.threshold <= cfg.loopMax && cfg.reconnect && cfg.kicks && Steady(quiet, text)
    requires forall j :: 0 <= j < cfg.threshold - 1 ==> polls(j) == quiet(j)
    requires var n := cfg.threshold - 1; polls(n) == quiet(n).(kick := polls(n).kick) && polls(n).kick.Broke?
    requires cfg.threshold < cfg.loopMax
    ensures Wait(cfg, polls, START) ==
            Threw(Thrown(Other, polls(cfg.threshold - 1).kick.marked, false), 1, cfg.threshold)
  {
    var n := cfg.threshold - 1;
    assert quiet(n).before == text;
    SmallQuotient(n, cfg.threshold);
    SteadyStretch(cfg, polls, quiet, text, n);
    BrokenKickPass(cfg, SteadyLoop(cfg, text, n), polls(n));
    hide OnePass, Steady;
  }

  lemma BrokenKickPass(cfg: Config, l: Loop, p: Poll)
    requires cfg.threshold >= 2 && cfg.reconnect && cfg.kicks && l.timeouts + 1 == cfg.threshold
    requires p.open.Fine? && p.console.raw == Matched(FATAL_PATTERNS + TIMEOUT)
    requires p.before == l.previous && p.kick.Broke?
    ensures OnePass(cfg, l, p) == Done(Threw(Thrown(Other, p.kick.marked, false), l.reconnects + 1, l.polls + 1))
  {
    assert Look(cfg.table, p) == Index(TIMEOUT);
    hide Look;
    assert cfg.threshold % cfg.threshold == 0;
  }

  lemma SmallQuotient(n: nat, m: nat)
    requires n < m
    ensures n / m == 0 && n % m == n
  {
  }

  lemma {:induction false} SteadyStretch(cfg: Config, polls: nat -> Poll, quiet: nat -> Poll, text: string, n: nat)
    requires cfg.threshold >= 2 && cfg.reconnect && Steady(quiet, text) && n < cfg.loopMax - 1
    requires forall j :: 0 <= j < n ==> polls(j) == quiet(j)
    ensures Wait(cfg, polls, START) == Wait(cfg, polls, SteadyLoop(cfg, text, n))
  {
    hide OnePass, Steady, Wait;
    if n > 0 {
      SteadyStretch(cfg, polls, quiet, text, n - 1);
      SteadyPass(cfg, quiet, text, n - 1);
      GoesOn(cfg, polls, SteadyLoop(cfg, text, n - 1), SteadyLoop(cfg, text, n));
    }
  }

  lemma SteadyPass(cfg: Config, polls: nat -> Poll, text: string, n: nat)
    requires cfg.threshold >= 2 && cfg.reconnect && Steady(polls, text)
    ensures OnePass(cfg, SteadyLoop(cfg, text, n), polls(n)) == Again(SteadyLoop(cfg, text, n + 1))
  {
    assert Look(cfg.table, polls(n)) == Index(TIMEOUT);
    hide Look;
    CountOn(n, cfg.threshold);
    SmallRest(n % cfg.threshold + 1, cfg.threshold);
  }

  lemma SmallRest(t: nat, m: nat)
    requires 0 < t <= m
    ensures t % m == 0 <==> t == m
  {
  }

  lemma {:induction false} SteadyWait(cfg: Config, polls: nat -> Poll, text: string, n: nat)
    requires cfg.threshold >= 2 && cfg.reconnect && cfg.lastTry && Steady(polls, text) && n < cfg.loopMax - 1
    ensures Wait(cfg, polls, SteadyLoop(cfg, text, n)) ==
            Threw(Thrown(WaitForItFailed, false, false), (cfg.loopMax - 1) / cfg.threshold, cfg.loopMax)
    decreases cfg.loopMax - n
  {
    hide OnePass, LastTry, Steady;
    SteadyPass(cfg, polls, text, n);
    if n + 1 < cfg.loopMax - 1 {
      SteadyWait(cfg, polls, text, n + 1);
    } else {
      SteadyLastTry(cfg, polls, text, SteadyLoop(cfg, text, n + 1));
    }
  }

  lemma SteadyLastTry(cfg: Config, polls: nat -> Poll, text: string, l: Loop)
    requires Steady(polls, text)
    ensures LastTry(cfg, l, polls(l.polls)) == Threw(Thrown(WaitForItFailed, false, false), l.reconnects, l.polls + 1)
  {
    assert Look(cfg.table, polls(l.polls)) == Index(TIMEOUT);
  }

  /** A console that stays silent is reconnected after every `threshold` expects of the loop. */
  lemma SilenceReconnects(cfg: Config, polls: nat -> Poll, text: string)
    requires cfg.threshold >= 2 && cfg.loopMax >= 2 && cfg.reconnect && cfg.lastTry && Steady(polls, text)
    ensures Wait(cfg, polls, START) ==
            Threw(Thrown(WaitForItFailed, false, false), (cfg.loopMax - 1) / cfg.threshold, cfg.loopMax)
  {
    SteadyWait(cfg, polls, text, 0);
  }
}
