/** `wait_for_it` and `check_it` of OpTestSystem: poll the console for one of the strings of a table,
    reconnect on a stale buffer, try once more at the end, and run the table's callbacks. */
module WaitForIt {
  import opened Wrappers
  import opened OpExpect

  // ----- Exceptions, callbacks and tables -----

  datatype Exc = WaitForItFailed | HttpCheck | HostbootShutdown | UnexpectedCase | ConsoleFault(fault: Fault) | Other

  /** A raised exception with what was done to the system on the way: `bad` means the state was set
      to UNKNOWN_BAD, `stopped` means the stop flag was set. */
  datatype Thrown = Thrown(exc: Exc, bad: bool, stopped: bool)

  datatype Callback = Hostboot | Login | Petitboot | Xmon | Dracut | Guard | Skiboot

  datatype Entry = Entry(key: string, action: Option<Callback>)

  /** The two tables, in the sorted key order that `wait_for_it` gives them. */
  const PETITBOOT_TABLE: seq<Entry> := [
    Entry("/ #", None), Entry("Aborting!", Some(Skiboot)), Entry("Petitboot", None),
    Entry("System shutting down with error status", Some(Guard)), Entry("dracut:/#", Some(Dracut)),
    Entry("login: ", Some(Login)), Entry("mon> ", Some(Xmon)), Entry("shutdown requested", Some(Hostboot)),
    Entry("x=exit", None)]

  const LOGIN_TABLE: seq<Entry> := [
    Entry("/ #", Some(Petitboot)), Entry("dracut:/#", Some(Dracut)), Entry("login: ", None),
    Entry("mon> ", Some(Xmon))]

  /** What happened to the diagnostics a callback collects before it sets the flags. */
  datatype Diagnostics = Collected | HttpFailed | ConsoleFailed(fault: Fault, marked: bool) | OtherFailed

  /** Every callback raises. */
  function RunCallback(cb: Callback, d: Diagnostics): Thrown {
    match cb
    case Hostboot => Thrown(HostbootShutdown, true, true)
    case Login => Thrown(WaitForItFailed, false, false)
    case Petitboot => Thrown(WaitForItFailed, false, false)
    case Dracut => Thrown(UnexpectedCase, true, true)  // swallows trouble with its diagnostics
    case _ =>
      match d
      case Collected => Thrown(UnexpectedCase, true, true)
      case HttpFailed => Thrown(HttpCheck, false, false)
      case ConsoleFailed(f, marked) => Thrown(ConsoleFault(f), marked, false)
      case OtherFailed => Thrown(Other, false, false)
  }

  // ----- The environment -----

  /** A console action other than an expect: it works, or it raises, possibly after a fatal pattern. */
  datatype Step = Fine | Broke(marked: bool)

  /** One pass of the loop: open the console, expect, the buffer text before the match, the traffic
      after a reconnect, a callback's diagnostics, and the close after an EOF. */
  datatype Poll = Poll(open: Step, console: Console, before: string, kick: Step, diagnostics: Diagnostics, close: Step)

  datatype Config = Config(table: seq<Entry>, kicks: bool, loopMax: int, threshold: nat, reconnect: bool, lastTry: bool)

  datatype Result =
    | Found(index: nat, reconnects: nat, polls: nat)
    | FellThrough(polls: nat)
    | Threw(thrown: Thrown, reconnects: nat, polls: nat)

  const TIMEOUT: nat := 0
  const EOF: nat := 1
  const BASE: nat := 2

  // ----- check_it -----

  datatype Check = Hit(index: nat) | Miss | Fails(thrown: Thrown)

  function CheckIt(table: seq<Entry>, r: nat, p: Poll): Check {
    if BASE <= r < BASE + |table| then
      if table[r - BASE].action.Some? then Fails(RunCallback(table[r - BASE].action.value, p.diagnostics))
      else Hit(r - BASE)
    else if r == EOF && p.close.Broke? then Fails(Thrown(Other, p.close.marked, false))
    else Miss
  }

  // ----- The loop -----

  datatype Loop = Loop(x: int, previous: string, timeouts: nat, reconnects: nat, polls: nat)

  const START := Loop(1, "emptyfirst", 1, 0, 0)

  function Look(table: seq<Entry>, p: Poll): Outcome {
    Expected(true, BASE + |table|, p.console)
  }

  function Stale(l: Loop, r: nat, p: Poll): bool {
    l.previous == p.before && r == TIMEOUT
  }

  /** The stale-buffer bookkeeping after a match of `r`; the flag tells whether it reconnected. */
  function Track(cfg: Config, l: Loop, r: nat, p: Poll): (Loop, bool)
    requires cfg.threshold > 0
  {
    if !Stale(l, r, p) then (l.(previous := p.before, timeouts := 1, polls := l.polls + 1), false)
    else
      var t := l.timeouts + 1;
      if t % cfg.threshold != 0 then (l.(timeouts := t, polls := l.polls + 1), false)
      else if !cfg.reconnect then (l.(previous := "emptyagain", timeouts := t, polls := l.polls + 1), false)
      else (l.(previous := "emptyagain", timeouts := t, reconnects := l.reconnects + 1, polls := l.polls + 1), true)
  }

  datatype Turn = Done(result: Result) | Again(l: Loop)

  /** The outcome of one expect on the table, as far as it ends the wait. */
  function Judge(cfg: Config, p: Poll, r: nat, l: Loop): Turn {
    match CheckIt(cfg.table, r, p)
    case Hit(i) => Done(Found(i, l.reconnects, l.polls))
    case Fails(t) => Done(Threw(t, l.reconnects, l.polls))
    case Miss => Again(l)
  }

  function OnePass(cfg: Config, l: Loop, p: Poll): Turn {
    if p.open.Broke? then Done(Threw(Thrown(Other, p.open.marked, false), l.reconnects, l.polls))
    else
      match Look(cfg.table, p)
      case Raises(f, marked) => Done(Threw(Thrown(ConsoleFault(f), marked, false), l.reconnects, l.polls + 1))
      case Index(r) =>
        if cfg.threshold == 0 && Stale(l, r, p) then Done(Threw(Thrown(Other, false, false), l.reconnects, l.polls + 1))
        else
          var (l', reconnected) := Track(cfg.(threshold := if cfg.threshold == 0 then 1 else cfg.threshold), l, r, p);
          if reconnected && cfg.kicks && p.kick.Broke? then
            Done(Threw(Thrown(Other, p.kick.marked, false), l'.reconnects, l'.polls))
          else Judge(cfg, p, r, l'.(x := l.x + 1))
  }

  /** The expect after the last loop iteration; a miss gives up. */
  function LastTry(cfg: Config, l: Loop, p: Poll): Result {
    if p.open.Broke? then Threw(Thrown(Other, p.open.marked, false), l.reconnects, l.polls)
    else
      match Look(cfg.table, p)
      case Raises(f, marked) => Threw(Thrown(ConsoleFault(f), marked, false), l.reconnects, l.polls + 1)
      case Index(r) =>
        match Judge(cfg, p, r, l.(polls := l.polls + 1))
        case Done(result) => result
        case Again(_) => Threw(Thrown(WaitForItFailed, false, false), l.reconnects, l.polls + 1)
  }

  function Wait(cfg: Config, polls: nat -> Poll, l: Loop): Result
    decreases cfg.loopMax - l.x
  {
    if l.x > cfg.loopMax then FellThrough(l.polls)
    else
      match OnePass(cfg, l, polls(l.polls))
      case Done(result) => result
      case Again(l') =>
        if l'.x < cfg.loopMax then Wait(cfg, polls, l')
        else if cfg.lastTry then LastTry(cfg, l', polls(l'.polls))
        else Threw(Thrown(WaitForItFailed, false, false), l'.reconnects, l'.polls)
  }

  /** One loop iteration: expect, stale-buffer check, `check_it`. */
  method LoopBody(cfg: Config, l: Loop, p: Poll) returns (pass: Turn)
    ensures pass == OnePass(cfg, l, p)
  {
    var Loop(x, previous, timeouts, reconnects, n) := l;
    if p.open.Broke? {
      return Done(Threw(Thrown(Other, p.open.marked, false), reconnects, n));
    }
    var o, _ := Expect(true, BASE + |cfg.table|, p.console);
    n := n + 1;
    if o.Raises? {
      return Done(Threw(Thrown(ConsoleFault(o.fault), o.marked, false), reconnects, n));
    }
    var r := o.i;
    if previous == p.before && r == TIMEOUT {
      timeouts := timeouts + 1;
      if cfg.threshold == 0 {
        return Done(Threw(Thrown(Other, false, false), reconnects, n));  // modulo by zero
      }
      if timeouts % cfg.threshold == 0 {
        if cfg.reconnect {
          reconnects := reconnects + 1;
          if cfg.kicks && p.kick.Broke? {
            return Done(Threw(Thrown(Other, p.kick.marked, false), reconnects, n));
          }
        }
        previous := "emptyagain";
      }
    } else {
      previous := p.before;
      timeouts := 1;
    }
    var working := CheckIt(cfg.table, r, p);
    if working.Fails? {
      return Done(Threw(working.thrown, reconnects, n));
    }
    if working.Hit? {
      return Done(Found(working.index, reconnects, n));
    }
    pass := Again(Loop(x + 1, previous, timeouts, reconnects, n));
  }

  method LastExpect(cfg: Config, l: Loop, p: Poll) returns (result: Result)
    ensures result == LastTry(cfg, l, p)
  {
    if p.open.Broke? {
      return Threw(Thrown(Other, p.open.marked, false), l.reconnects, l.polls);
    }
    var o, _ := Expect(true, BASE + |cfg.table|, p.console);
    if o.Raises? {
      return Threw(Thrown(ConsoleFault(o.fault), o.marked, false), l.reconnects, l.polls + 1);
    }
    var last := CheckIt(cfg.table, o.i, p);
    if last.Fails? {
      return Threw(last.thrown, l.reconnects, l.polls + 1);
    }
    if last.Hit? {
      return Found(last.index, l.reconnects, l.polls + 1);
    }
    result := Threw(Thrown(WaitForItFailed, false, false), l.reconnects, l.polls + 1);
  }

  /** `wait_for_it`, after its opening connect. */
  method WaitLoop(cfg: Config, polls: nat -> Poll) returns (result: Result)
    ensures result == Wait(cfg, polls, START)
  {
    var l := START;
    while l.x <= cfg.loopMax
      invariant l == START || l.x < cfg.loopMax
      invariant Wait(cfg, polls, START) == Wait(cfg, polls, l)
      decreases cfg.loopMax - l.x
    {
      var pass := LoopBody(cfg, l, polls(l.polls));
      if pass.Done? {
        return pass.result;
      }
      l := pass.l;
      if l.x >= cfg.loopMax {
        if cfg.lastTry {
          result := LastExpect(cfg, l, polls(l.polls));
          return;
        }
        return Threw(Thrown(WaitForItFailed, false, false), l.reconnects, l.polls);
      }
    }
    result := FellThrough(l.polls);
  }

  // ----- Bounds -----

  /** With at least two iterations allowed, the wait returns or raises after at most `loopMax` table
      expects, last try included. */
  lemma {:induction false} ExpectBound(cfg: Config, polls: nat -> Poll, l: Loop)
    requires cfg.loopMax >= 2 && 1 <= l.x < cfg.loopMax && l.polls == l.x - 1
    ensures var w := Wait(cfg, polls, l); !w.FellThrough? && w.polls <= cfg.loopMax
    decreases cfg.loopMax - l.x
  {
    var pass := OnePass(cfg, l, polls(l.polls));
    if pass.Again? && pass.l.x < cfg.loopMax {
      ExpectBound(cfg, polls, pass.l);
    }
  }

  /** Every reconnect stands for `period` of `count` expects. */
  predicate Fits(reconnects: nat, period: nat, count: nat) {
    reconnects * period <= count
  }

  /** The timeouts counted since the last reconnect, modulo the threshold, have had their expects. `slack`
      is 1 as long as the first timeout may be the initial one, counted against "emptyfirst". */
  ghost predicate Paced(cfg: Config, l: Loop, slack: nat)
    requires cfg.threshold > 0
  {
    l.reconnects * cfg.threshold + l.timeouts % cfg.threshold <= l.polls + slack
  }

  lemma SmallMultiple(n: int, m: int)
    requires 0 < m && -m < n * m < m
    ensures n == 0
  {
  }

  lemma QuotientIsUnique(x: nat, q: nat, r: nat, m: nat)
    requires r < m && x == q * m + r
    ensures x % m == r
  {
    var n, k := x / m, x % m;
    assert x == m * n + k;
    assert (q - n) * m == q * m - n * m;
    SmallMultiple(q - n, m);
  }

  lemma NextMultiple(t: nat, m: nat)
    requires m >= 2
    ensures if (t + 1) % m == 0 then t % m == m - 1 else (t + 1) % m == t % m + 1
    ensures 1 % m == 1
  {
    var q, r := t / m, t % m;
    assert t == q * m + r;
    assert (q + 1) * m == q * m + m;
    QuotientIsUnique(t + 1, if r + 1 < m then q else q + 1, if r + 1 < m then r + 1 else 0, m);
  }

  /** Every pass keeps the pace, whatever the console prints. */
  lemma PacedPass(cfg: Config, l: Loop, p: Poll, slack: nat)
    requires cfg.threshold >= 2 && Paced(cfg, l, slack)
    ensures var pass := OnePass(cfg, l, p);
            match pass
            case Again(l') => Paced(cfg, l', slack) && Fits(l'.reconnects, cfg.threshold, l'.polls + slack)
            case Done(w) => && !w.FellThrough? && w.polls <= l.polls + 1
                            && Fits(w.reconnects, cfg.threshold, w.polls + slack)
  {
    hide CheckIt, Look;
    NextMultiple(l.timeouts, cfg.threshold);
    assert (l.reconnects + 1) * cfg.threshold == l.reconnects * cfg.threshold + cfg.threshold;
  }

  lemma PassKeepsCount(cfg: Config, l: Loop, p: Poll)
    ensures var pass := OnePass(cfg, l, p);
            if pass.Again? then pass.l.x == l.x + 1 && pass.l.polls == l.polls + 1 else !pass.result.FellThrough?
  {
  }

  lemma {:induction false} PacedWait(cfg: Config, polls: nat -> Poll, l: Loop, slack: nat)
    requires cfg.threshold >= 2 && Paced(cfg, l, slack)
    requires 1 <= l.x < cfg.loopMax && l.polls == l.x - 1
    ensures var w := Wait(cfg, polls, l);
            && !w.FellThrough?
            && Fits(w.reconnects, cfg.threshold, w.polls + slack)
            && Fits(w.reconnects, cfg.threshold, cfg.loopMax - 1 + slack)
    decreases cfg.loopMax - l.x
  {
    hide Look, CheckIt, Paced, OnePass;
    PacedPass(cfg, l, polls(l.polls), slack);
    PassKeepsCount(cfg, l, polls(l.polls));
    var pass := OnePass(cfg, l, polls(l.polls));
    if pass.Again? && pass.l.x < cfg.loopMax {
      PacedWait(cfg, polls, pass.l, slack);
    }
  }

  /** However the wait ends and whatever the console prints: reconnects * threshold exceeds neither the
      expects made nor the `loopMax - 1` iterations of the loop (the last try is not one) by more than 1. */
  lemma ReconnectSlack(cfg: Config, polls: nat -> Poll)
    requires cfg.loopMax >= 2 && cfg.threshold >= 2
    ensures var w := Wait(cfg, polls, START);
            && !w.FellThrough?
            && w.reconnects * cfg.threshold <= w.polls + 1 && w.reconnects * cfg.threshold <= cfg.loopMax
  {
    NextMultiple(0, cfg.threshold);
    PacedWait(cfg, polls, START, 1);
  }

  /** It exceeds neither at all if the first buffer does not read "emptyfirst", whatever later ones read. */
  lemma ReconnectBound(cfg: Config, polls: nat -> Poll)
    requires cfg.loopMax >= 2 && cfg.threshold >= 2 && polls(0).before != "emptyfirst"
    ensures var w := Wait(cfg, polls, START);
            && !w.FellThrough?
            && w.reconnects * cfg.threshold <= w.polls && w.reconnects * cfg.threshold <= cfg.loopMax - 1
  {
    hide Look, CheckIt, OnePass;
    NextMultiple(0, cfg.threshold);
    FirstPassKeeps(cfg, polls(0));
    var pass := OnePass(cfg, START, polls(0));
    if pass.Again? && pass.l.x < cfg.loopMax {
      PacedWait(cfg, polls, pass.l, 0);
    } else if pass.Again? {
      NoReconnectInLastTry(cfg, pass.l, polls(1));
    }
  }

  /** The reconnects of a whole wait fit the expects it made. */
  ghost predicate KeepsPace(cfg: Config, polls: nat -> Poll) {
    var w := Wait(cfg, polls, START);
    w.FellThrough? || w.reconnects * cfg.threshold <= w.polls
  }

  /** For which waits every console keeps the pace whose first buffer reads `first`. */
  lemma PacingExactly(cfg: Config, first: string)
    requires cfg.loopMax >= 2 && cfg.threshold >= 2
    ensures (forall polls: nat -> Poll :: polls(0).before == first ==> KeepsPace(cfg, polls))
            <==> first != "emptyfirst" || !cfg.reconnect || cfg.loopMax < cfg.threshold
  {
    hide Wait;
    if first == "emptyfirst" && cfg.reconnect && cfg.loopMax >= cfg.threshold {
      var polls := StuckConsole(cfg.threshold - 1, "emptyfirst");
      StuckWait(cfg, START);
      assert polls(0).before == first && !KeepsPace(cfg, polls);
    } else {
      forall polls: nat -> Poll | polls(0).before == first ensures KeepsPace(cfg, polls) {
        if first != "emptyfirst" {
          ReconnectBound(cfg, polls);
        } else if !cfg.reconnect {
          NeverReconnects(cfg, polls, START);
        } else {
          ReconnectSlack(cfg, polls);
          var n := Wait(cfg, polls, START).reconnects;
          assert n > 0 ==> n * cfg.threshold >= cfg.threshold;
        }
      }
    }
  }

  lemma {:induction false} NeverReconnects(cfg: Config, polls: nat -> Poll, l: Loop)
    requires !cfg.reconnect && l.reconnects == 0
    ensures var w := Wait(cfg, polls, l); w.FellThrough? || w.reconnects == 0
    decreases cfg.loopMax - l.x
  {
    hide CheckIt, Look;
    if l.x <= cfg.loopMax {
      var pass := OnePass(cfg, l, polls(l.polls));
      if pass.Again? && pass.l.x < cfg.loopMax {
        NeverReconnects(cfg, polls, pass.l);
      }
    }
  }

  /** A console that times out `n` times with `text` in its buffer and then cannot be opened. */
  function StuckConsole(n: nat, text: string): nat -> Poll {
    var quiet := Console(Matched(FATAL_PATTERNS + TIMEOUT), [], Read);
    k => Poll(if k < n then Fine else Broke(false), quiet, text, Fine, Collected, Fine)
  }

  /** What a pass does when the console is stuck on the text it showed last. */
  lemma StuckPass(cfg: Config, l: Loop, n: nat, text: string)
    requires cfg.reconnect && cfg.threshold > 0 && l.polls < n && l.previous == text
    ensures var next := l.(x := l.x + 1, timeouts := l.timeouts + 1, polls := l.polls + 1);
            OnePass(cfg, l, StuckConsole(n, text)(l.polls)) ==
            Again(if (l.timeouts + 1) % cfg.threshold != 0 then next
                  else next.(previous := "emptyagain", reconnects := l.reconnects + 1))
  {
    var p := StuckConsole(n, text)(l.polls);
    assert Look(cfg.table, p) == Index(TIMEOUT);
    hide Look;
    assert CheckIt(cfg.table, TIMEOUT, p) == Miss;
  }

  /** When the console cannot be opened after a pass, the wait has made the reconnects and expects so far. */
  lemma EndsBroken(cfg: Config, polls: nat -> Poll, l: Loop, l': Loop)
    requires l.x <= cfg.loopMax && OnePass(cfg, l, polls(l.polls)) == Again(l') && polls(l'.polls).open.Broke?
    ensures var w := Wait(cfg, polls, l); w.Threw? && w.reconnects == l'.reconnects && w.polls == l'.polls
  {
    hide Look, CheckIt;
  }

  lemma GoesOn(cfg: Config, polls: nat -> Poll, l: Loop, l': Loop)
    requires l.x <= cfg.loopMax && l'.x < cfg.loopMax && OnePass(cfg, l, polls(l.polls)) == Again(l')
    ensures Wait(cfg, polls, l) == Wait(cfg, polls, l')
  {
    hide OnePass, LastTry;
  }

  lemma {:induction false} StuckWait(cfg: Config, l: Loop)
    requires cfg.reconnect && 2 <= cfg.threshold <= cfg.loopMax
    requires l == Loop(l.polls + 1, "emptyfirst", l.polls + 1, 0, l.polls) && l.polls < cfg.threshold - 1
    ensures var w := Wait(cfg, StuckConsole(cfg.threshold - 1, "emptyfirst"), l);
            w.Threw? && w.reconnects == 1 && w.polls == cfg.threshold - 1
    decreases cfg.threshold - l.polls
  {
    hide OnePass, Wait;
    var polls := StuckConsole(cfg.threshold - 1, "emptyfirst");
    StuckPass(cfg, l, cfg.threshold - 1, "emptyfirst");
    if l.polls + 1 < cfg.threshold - 1 {
      var l' := Loop(l.x + 1, "emptyfirst", l.timeouts + 1, 0, l.polls + 1);
      GoesOn(cfg, polls, l, l');
      StuckWait(cfg, l');
    } else {
      EndsBroken(cfg, polls, l, Loop(l.x + 1, "emptyagain", cfg.threshold, 1, cfg.threshold - 1));
    }
  }

  // ----- Reconnecting on every timeout -----

  ghost predicate NoSentinels(polls: nat -> Poll) {
    forall k :: polls(k).before != "emptyfirst" && polls(k).before != "emptyagain"
  }

  /** With a threshold of 1, a new text comes before every reconnect. */
  ghost predicate PacedByTwo(l: Loop) {
    l.reconnects * 2 + (if l.previous == "emptyfirst" || l.previous == "emptyagain" then 0 else 1) <= l.polls
  }

  /** With a threshold of 1, and a console that prints neither sentinel, at most every second expect leads
      to a reconnect. */
  lemma {:induction false} ReconnectEverySecond(cfg: Config, polls: nat -> Poll, l: Loop)
    requires cfg.loopMax >= 2 && cfg.threshold == 1 && NoSentinels(polls) && PacedByTwo(l)
    requires 1 <= l.x < cfg.loopMax && l.polls == l.x - 1
    ensures var w := Wait(cfg, polls, l);
            !w.FellThrough? && w.reconnects * 2 <= w.polls && w.reconnects * 2 <= cfg.loopMax - 1
    decreases cfg.loopMax - l.x
  {
    hide CheckIt, Look;
    var pass := OnePass(cfg, l, polls(l.polls));
    if pass.Again? && pass.l.x < cfg.loopMax {
      ReconnectEverySecond(cfg, polls, pass.l);
    }
  }

  /** The reconnects of a whole wait are at most half the expects it made. */
  ghost predicate KeepsPaceByTwo(cfg: Config, polls: nat -> Poll) {
    var w := Wait(cfg, polls, START);
    w.FellThrough? || w.reconnects * 2 <= w.polls
  }

  ghost predicate PrintsOnly(polls: nat -> Poll, texts: iset<string>) {
    forall k :: polls(k).before in texts
  }

  /** With a threshold of 1: for which waits every console keeps that pace whose buffers read only `texts`. */
  lemma PacingByTwoExactly(cfg: Config, texts: iset<string>)
    requires cfg.loopMax >= 2 && cfg.threshold == 1
    ensures (forall polls: nat -> Poll :: PrintsOnly(polls, texts) ==> KeepsPaceByTwo(cfg, polls))
            <==> !cfg.reconnect || ("emptyfirst" !in texts && ("emptyagain" !in texts || cfg.loopMax < 4))
  {
    hide Wait;
    if cfg.reconnect && "emptyfirst" in texts {
      var polls := StuckConsole(1, "emptyfirst");
      StuckOnce(cfg);
      assert PrintsOnly(polls, texts) && !KeepsPaceByTwo(cfg, polls);
    } else if cfg.reconnect && "emptyagain" in texts && cfg.loopMax >= 4 {
      var polls := StuckConsole(3, "emptyagain");
      StuckThrice(cfg);
      assert PrintsOnly(polls, texts) && !KeepsPaceByTwo(cfg, polls);
    } else {
      forall polls: nat -> Poll | PrintsOnly(polls, texts) ensures KeepsPaceByTwo(cfg, polls) {
        if !cfg.reconnect {
          NeverReconnects(cfg, polls, START);
        } else if "emptyagain" !in texts {
          assert NoSentinels(polls);
          ReconnectEverySecond(cfg, polls, START);
        } else {
          assert polls(0).before in texts;
          ShortWait(cfg, polls);
        }
      }
    }
  }

  lemma StuckOnce(cfg: Config)
    requires cfg.reconnect && cfg.threshold == 1 && cfg.loopMax >= 2
    ensures var w := Wait(cfg, StuckConsole(1, "emptyfirst"), START); w.Threw? && w.reconnects == 1 && w.polls == 1
  {
    hide OnePass, Wait;
    StuckPass(cfg, START, 1, "emptyfirst");
    EndsBroken(cfg, StuckConsole(1, "emptyfirst"), START, Loop(2, "emptyagain", 2, 1, 1));
  }

  lemma StuckThrice(cfg: Config)
    requires cfg.reconnect && cfg.threshold == 1 && cfg.loopMax >= 4
    ensures var w := Wait(cfg, StuckConsole(3, "emptyagain"), START); w.Threw? && w.reconnects == 2 && w.polls == 3
  {
    var polls := StuckConsole(3, "emptyagain");
    var l1, l2, l3 := Loop(2, "emptyagain", 1, 0, 1), Loop(3, "emptyagain", 2, 1, 2), Loop(4, "emptyagain", 3, 2, 3);
    FirstPassOfStuck(cfg);
    hide OnePass, Wait;
    StuckPass(cfg, l1, 3, "emptyagain");
    StuckPass(cfg, l2, 3, "emptyagain");
    GoesOn(cfg, polls, START, l1);
    GoesOn(cfg, polls, l1, l2);
    EndsBroken(cfg, polls, l2, l3);
  }

  lemma FirstPassOfStuck(cfg: Config)
    requires cfg.threshold > 0
    ensures OnePass(cfg, START, StuckConsole(3, "emptyagain")(0)) == Again(Loop(2, "emptyagain", 1, 0, 1))
  {
    var p := StuckConsole(3, "emptyagain")(0);
    assert Look(cfg.table, p) == Index(TIMEOUT);
    hide Look;
    assert "emptyfirst"[5] != "emptyagain"[5];
    assert CheckIt(cfg.table, TIMEOUT, p) == Miss;
  }

  /** A pass makes at most one reconnect, and that after its expect. */
  lemma OneReconnect(cfg: Config, l: Loop, p: Poll)
    ensures var pass := OnePass(cfg, l, p);
            match pass
            case Again(l') => l'.reconnects <= l.reconnects + 1 && l'.polls == l.polls + 1 && l'.x == l.x + 1
            case Done(w) => && !w.FellThrough? && l.polls <= w.polls
                            && w.reconnects <= l.reconnects + (w.polls - l.polls) && w.polls <= l.polls + 1
  {
    hide Look, CheckIt;
  }

  lemma NoReconnectInLastTry(cfg: Config, l: Loop, p: Poll)
    ensures var w := LastTry(cfg, l, p); !w.FellThrough? && w.reconnects == l.reconnects && w.polls >= l.polls
  {
    hide Look, CheckIt;
  }

  /** The first pass does not reconnect if its text is new. */
  lemma FirstPassKeeps(cfg: Config, p: Poll)
    requires cfg.threshold > 0 && p.before != "emptyfirst"
    ensures var pass := OnePass(cfg, START, p);
            match pass
            case Again(l) => l == Loop(2, p.before, 1, 0, 1)
            case Done(w) => !w.FellThrough? && w.reconnects == 0
  {
    hide Look, CheckIt;
  }

  /** A wait of at most two iterations, of which the first cannot reconnect. */
  lemma ShortWait(cfg: Config, polls: nat -> Poll)
    requires cfg.threshold == 1 && 2 <= cfg.loopMax <= 3 && polls(0).before != "emptyfirst"
    ensures KeepsPaceByTwo(cfg, polls)
  {
    hide OnePass, LastTry;
    FirstPassKeeps(cfg, polls(0));
    var first := OnePass(cfg, START, polls(0));
    if first.Again? {
      NoReconnectInLastTry(cfg, first.l, polls(1));
      OneReconnect(cfg, first.l, polls(1));
      if cfg.loopMax == 3 {
        assert Wait(cfg, polls, START) == Wait(cfg, polls, first.l);
        var second := OnePass(cfg, first.l, polls(1));
        if second.Again? {
          NoReconnectInLastTry(cfg, second.l, polls(2));
        }
      }
    }
  }

  /** The sentinel texts get round that: a console whose buffer reads "emptyagain" is reconnected three
      times within five expects. */
  lemma SentinelBreaksPacing(quiet: Poll, hit: Poll)
    requires quiet.open.Fine? && quiet.console.raw == Matched(FATAL_PATTERNS + TIMEOUT) && quiet.before == "emptyagain"
    requires hit.open.Fine? && hit.console.raw == Matched(FATAL_PATTERNS + BASE + 2)
    ensures var cfg := Config(LOGIN_TABLE, false, 100, 1, true, true);
            Wait(cfg, k => if k < 4 then quiet else hit, START) == Found(2, 3, 5)
  {
    var cfg := Config(LOGIN_TABLE, false, 100, 1, true, true);
    var polls: nat -> Poll := k => if k < 4 then quiet else hit;
    assert Look(cfg.table, quiet) == Index(TIMEOUT);
    assert Look(cfg.table, hit) == Index(BASE + 2);
    assert cfg.table[2] == Entry("login: ", None);
    var l1 := Loop(2, "emptyagain", 1, 0, 1);
    var l2 := Loop(3, "emptyagain", 2, 1, 2);
    var l3 := Loop(4, "emptyagain", 3, 2, 3);
    var l4 := Loop(5, "emptyagain", 4, 3, 4);
    assert Wait(cfg, polls, START) == Wait(cfg, polls, l1);
    assert Wait(cfg, polls, l1) == Wait(cfg, polls, l2);
    assert Wait(cfg, polls, l2) == Wait(cfg, polls, l3);
    assert Wait(cfg, polls, l3) == Wait(cfg, polls, l4);
    assert Wait(cfg, polls, l4) == Found(2, 3, 5);
  }

  // ----- What ends a wait -----

  /** Neither a listed string, nor a fatal pattern, nor a broken console: TIMEOUT or EOF. */
  predicate Uneventful(p: Poll) {
    p.open.Fine? && p.console.raw in {Matched(FATAL_PATTERNS + TIMEOUT), Matched(FATAL_PATTERNS + EOF)}
  }

  /** Nothing is passed over: before the expect that ends the wait, every expect timed out or hit EOF. */
  lemma {:induction false} EarlierPollsUneventful(cfg: Config, polls: nat -> Poll, l: Loop, k: nat)
    requires l.polls <= k && k + 1 < Wait(cfg, polls, l).polls
    ensures Uneventful(polls(k))
    decreases cfg.loopMax - l.x
  {
    var pass := OnePass(cfg, l, polls(l.polls));
    if pass.Again? && k > l.polls && pass.l.x < cfg.loopMax {
      EarlierPollsUneventful(cfg, polls, pass.l, k);
    }
  }

  /** A returned index names a table entry that really matched and whose action is `None`. */
  lemma {:induction false} LastPollDecides(cfg: Config, polls: nat -> Poll, l: Loop)
    ensures var w := Wait(cfg, polls, l);
            w.Found? ==>
              && w.polls > 0 && w.index < |cfg.table| && cfg.table[w.index].action.None?
              && polls(w.polls - 1).console.raw == Matched(FATAL_PATTERNS + BASE + w.index)
    decreases cfg.loopMax - l.x
  {
    if l.x <= cfg.loopMax {
      var pass := OnePass(cfg, l, polls(l.polls));
      if pass.Again? && pass.l.x < cfg.loopMax {
        LastPollDecides(cfg, polls, pass.l);
      }
    }
  }

  /** The exception an eventful expect leads to: a fatal pattern, or a string with a callback. */
  function Alarm(cfg: Config, p: Poll): Option<Thrown> {
    if p.console.raw.Lost? then None
    else if p.console.raw.index < FATAL_PATTERNS then
      var o := Look(cfg.table, p);
      Some(Thrown(ConsoleFault(o.fault), o.marked, false))
    else if FATAL_PATTERNS + BASE <= p.console.raw.index < FATAL_PATTERNS + BASE + |cfg.table| then
      var e := cfg.table[p.console.raw.index - FATAL_PATTERNS - BASE];
      if e.action.Some? then Some(RunCallback(e.action.value, p.diagnostics)) else None
    else None
  }

  /** Nothing a pass over an uneventful console can raise or find. */
  predicate Quiet(p: Poll) {
    Uneventful(p) && p.close.Fine? && p.kick.Fine?
  }

  lemma QuietPass(cfg: Config, l: Loop, p: Poll)
    requires cfg.threshold > 0 && Quiet(p)
    ensures OnePass(cfg, l, p).Again?
  {
  }

  lemma AlarmedPass(cfg: Config, l: Loop, p: Poll)
    requires cfg.threshold > 0 && p.open.Fine? && Alarm(cfg, p).Some?
    ensures OnePass(cfg, l, p) == Done(Threw(Alarm(cfg, p).value, l.reconnects, l.polls + 1))
  {
    var o := Look(cfg.table, p);
  }

  lemma AlarmedLastTry(cfg: Config, l: Loop, p: Poll)
    requires p.open.Fine? && Alarm(cfg, p).Some?
    ensures LastTry(cfg, l, p) == Threw(Alarm(cfg, p).value, l.reconnects, l.polls + 1)
  {
    var o := Look(cfg.table, p);
  }

  /** The first alarm ends the wait with its exception, whatever comes after it; the last try is no
      exception. */
  lemma {:induction false} FirstAlarmEndsWait(cfg: Config, polls: nat -> Poll, l: Loop, k: nat)
    requires cfg.threshold > 0 && l.polls == l.x - 1 && l.polls <= k && l.x < cfg.loopMax
    requires k < cfg.loopMax - 1 || (cfg.lastTry && k == cfg.loopMax - 1)
    requires forall j :: l.polls <= j < k ==> Uneventful(polls(j)) && polls(j).close.Fine? && polls(j).kick.Fine?
    requires polls(k).open.Fine? && Alarm(cfg, polls(k)).Some?
    ensures var w := Wait(cfg, polls, l);
            w.Threw? && w.thrown == Alarm(cfg, polls(k)).value && w.polls == k + 1
    decreases cfg.loopMax - l.x
  {
    hide OnePass, LastTry, Alarm, Uneventful;
    if l.polls == k {
      AlarmedPass(cfg, l, polls(k));
    } else {
      assert Quiet(polls(l.polls));
      QuietPass(cfg, l, polls(l.polls));
      PassKeepsCount(cfg, l, polls(l.polls));
      var next := OnePass(cfg, l, polls(l.polls)).l;
      if next.x < cfg.loopMax {
        FirstAlarmEndsWait(cfg, polls, next, k);
      } else {
        AlarmedLastTry(cfg, next, polls(k));
      }
    }
  }

  // ----- The tables are in sorted order -----

  predicate Less(a: string, b: string) {
    if |b| == 0 then false
    else if |a| == 0 then true
    else if a[0] != b[0] then a[0] < b[0]
    else Less(a[1..], b[1..])
  }

  lemma PetitbootTableSorted()
    ensures forall i :: 0 <= i < |PETITBOOT_TABLE| - 1 ==> Less(PETITBOOT_TABLE[i].key, PETITBOOT_TABLE[i + 1].key)
  {
  }

  lemma TablesSorted()
    ensures forall i :: 0 <= i < |PETITBOOT_TABLE| - 1 ==> Less(PETITBOOT_TABLE[i].key, PETITBOOT_TABLE[i + 1].key)
    ensures forall i :: 0 <= i < |LOGIN_TABLE| - 1 ==> Less(LOGIN_TABLE[i].key, LOGIN_TABLE[i + 1].key)
  {
    PetitbootTableSorted();
  }
}
