/** Path safety of the base host machine: which states follow each other in a life without external
    `set_state` calls and without detection, and what must lie between leaving OS and coming back. */
module HostPaths {
  import opened WaitForIt
  import opened HostSpec
  import opened HostTermination
  import opened HostSafety

  /** The states that may follow `a`, other than `a` itself. */
  predicate Edge(a: St, b: St) {
    match a
    case OFF => b in {IPLING, UNKNOWN_BAD}
    case IPLING => b in {POWERING_OFF, PETITBOOT, UNKNOWN_BAD, UNKNOWN}
    case PETITBOOT => b in {PETITBOOT_SHELL, POWERING_OFF, BOOTING, UNKNOWN_BAD}
    case PETITBOOT_SHELL => b in {PETITBOOT, POWERING_OFF, UNKNOWN_BAD}
    case BOOTING => b in {OS, UNKNOWN_BAD, UNKNOWN}
    case OS => b in {POWERING_OFF, UNKNOWN_BAD}
    case POWERING_OFF => b in {OFF, UNKNOWN_BAD}
    case _ => b in {POWERING_OFF, UNKNOWN_BAD}
  }

  predicate Path(h: seq<St>) {
    forall i :: 0 <= i < |h| - 1 ==> h[i] == h[i + 1] || Edge(h[i], h[i + 1])
  }

  lemma HandleEdge(p: Platform, m: Machine, t: St, e: Env)
    requires !p.lpar
    ensures var h := Handle(p, m, t, e);
            && (h.Next? ==> h.to == m.state || Edge(m.state, h.to))
            && (h.Raised? ==> h.m.state == m.state || Edge(m.state, h.m.state))
            && (h.Next? && h.to == BOOTING ==> m.state == PETITBOOT && t == OS)
            && (h.Raised? ==> h.m.state != m.state ==> h.m.state == UNKNOWN_BAD)
  {
    hide Handle;
    HandleMoves(p, m, t, e);
  }

  /** One pass appends one state, along an edge; BOOTING is entered only from PETITBOOT on the way to OS,
      and OS only from BOOTING. */
  lemma PassEdge(p: Platform, t: St, r: Run, e: Env)
    requires !p.lpar && r.status.Running? && !r.m.stop
    ensures var r' := Pass(p, t, r, e);
            && r'.trace == r.trace + [r'.m.state]
            && (r'.m.state == r.m.state || Edge(r.m.state, r'.m.state))
            && (r'.m.state == BOOTING && r.m.state != BOOTING ==> r.m.state == PETITBOOT && t == OS)
            && (r'.m.state == OS && r.m.state != OS ==> r.m.state == BOOTING)
  {
    hide Handle;
    HandleEdge(p, r.m.(tally := r.m.tally.(handlers := r.m.tally.handlers + 1)), t, e);
  }

  lemma PathSnoc(h: seq<St>, s: St)
    requires Path(h) && |h| > 0 && (h[|h| - 1] == s || Edge(h[|h| - 1], s))
    ensures Path(h + [s])
  {
  }

  lemma {:induction false} PassesPath(p: Platform, t: St, m: Machine, env: nat -> Env, n: nat)
    requires !p.lpar
    ensures var r := Passes(p, t, Begin(m), env, n);
            var h := [m.state] + r.trace;
            Path(h) && h[|h| - 1] == r.m.state
  {
    hide Pass, Edge;
    if n > 0 {
      PassesPath(p, t, m, env, n - 1);
      var q := Passes(p, t, Begin(m), env, n - 1);
      if q.status.Running? {
        if q.m.stop {
          StoppedPass(p, t, q, env(n - 1));
        } else {
          PassEdge(p, t, q, env(n - 1));
          var s := Pass(p, t, q, env(n - 1)).m.state;
          PathSnoc([m.state] + q.trace, s);
          assert [m.state] + q.trace + [s] == [m.state] + (q.trace + [s]);
        }
      }
    }
  }

  lemma StoppedPass(p: Platform, t: St, r: Run, e: Env)
    requires r.status.Running? && r.m.stop
    ensures Pass(p, t, r, e) == r.(status := Failing(Stopping))
  {
  }

  // ----- Histories -----

  /** Only `goto_state` calls, none of which starts in UNKNOWN. */
  ghost predicate Undisturbed(p: Platform, m: Machine, cs: seq<Command>) {
    |cs| == 0 ||
    var front := cs[..|cs| - 1];
    Undisturbed(p, m, front) && cs[|cs| - 1].Goto? && Live(p, m, front).state != UNKNOWN
  }

  /** The states the system goes through, beginning with the one it is in. */
  function History(p: Platform, m: Machine, cs: seq<Command>): seq<St> {
    if |cs| == 0 then [m.state]
    else
      var front, c := cs[..|cs| - 1], cs[|cs| - 1];
      match c
      case SetState(s) => History(p, m, front) + [s]
      case Goto(t, d, env, nvram) =>
        var run := GotoRun(p, t, Live(p, m, front), d, env, nvram);
        History(p, m, front) + run.trace + [run.m.state]
  }

  lemma PathJoin(a: seq<St>, b: seq<St>)
    requires Path(a) && Path(b) && |a| > 0 && |b| > 0 && a[|a| - 1] == b[0]
    ensures Path(a + b[1..])
  {
    hide Edge;
    var h := a + b[1..];
    forall i | 0 <= i < |h| - 1 ensures h[i] == h[i + 1] || Edge(h[i], h[i + 1]) {
      if i >= |a| - 1 {
        assert h[i] == b[i - (|a| - 1)] && h[i + 1] == b[i - (|a| - 1) + 1];
      }
    }
  }

  lemma GotoPath(p: Platform, t: St, m: Machine, d: nat -> ProbeEnv, env: nat -> Env, nvram: Step)
    requires !p.lpar && m.state != UNKNOWN
    ensures var run := GotoRun(p, t, m, d, env, nvram);
            Path([m.state] + run.trace + [run.m.state])
  {
    hide Pass, Edge, Passes;
    var r := Enter(p, t, m, d);
    if r.status.Running? {
      PassesPath(p, t, m, env, Bound(m));
    } else {
      PassesStay(p, t, r, env, Bound(r.m));
    }
    var q := Passes(p, t, r, env, Bound(r.m));
    var s := Leave(p, t, q, nvram).m.state;
    assert s == q.m.state || s == UNKNOWN_BAD;
    BadFollows(q.m.state);
    PathSnoc([m.state] + q.trace, s);
  }

  lemma BadFollows(s: St)
    ensures Edge(s, UNKNOWN_BAD)
  {
  }

  /** A whole undisturbed life of the base machine follows the edges. */
  lemma {:induction false} HistoryIsPath(p: Platform, m: Machine, cs: seq<Command>)
    requires !p.lpar && Undisturbed(p, m, cs)
    ensures var h := History(p, m, cs);
            Path(h) && |h| > 0 && h[|h| - 1] == Live(p, m, cs).state
  {
    hide GotoRun, Edge, Path;
    if |cs| == 0 {
      SinglePath(m.state);
    } else {
      var front, c := cs[..|cs| - 1], cs[|cs| - 1];
      HistoryIsPath(p, m, front);
      var m' := Live(p, m, front);
      GotoPath(p, c.t, m', c.d, c.env, c.nvram);
      var run := GotoRun(p, c.t, m', c.d, c.env, c.nvram);
      var b := [m'.state] + run.trace + [run.m.state];
      PathJoin(History(p, m, front), b);
      assert b[1..] == run.trace + [run.m.state];
      assert History(p, m, front) + b[1..] == History(p, m, front) + run.trace + [run.m.state];
    }
  }

  lemma SinglePath(s: St)
    ensures Path([s])
  {
  }

  // ----- Coming back to OS -----

  const STAGES: seq<St> := [POWERING_OFF, OFF, IPLING, PETITBOOT, BOOTING]

  /** How many stages must have been passed, in order, to be in `s` after leaving OS. */
  function Need(s: St): nat {
    match s
    case OS => 5
    case BOOTING => 5
    case PETITBOOT => 4
    case PETITBOOT_SHELL => 4
    case IPLING => 3
    case OFF => 2
    case POWERING_OFF => 1
    case _ => 0
  }

  /** How many stages `h` has passed in order. */
  function Progress(h: seq<St>): (k: nat)
    ensures k <= |STAGES|
  {
    if |h| == 0 then 0
    else
      var k := Progress(h[..|h| - 1]);
      if k < |STAGES| && h[|h| - 1] == STAGES[k] then k + 1 else k
  }

  lemma {:induction false} ProgressCoversNeed(h: seq<St>)
    requires |h| > 0 && Path(h) && h[0] in {POWERING_OFF, UNKNOWN_BAD}
    ensures Need(h[|h| - 1]) <= Progress(h)
  {
    var front := h[..|h| - 1];
    if |h| == 1 {
      assert front == [];
    } else {
      ProgressCoversNeed(front);
      var a, b := front[|front| - 1], h[|h| - 1];
      assert a == h[|h| - 2] && (a == b || Edge(a, b));
    }
  }

  lemma {:induction false} StagePositions(h: seq<St>) returns (at: seq<nat>)
    ensures |at| == Progress(h)
    ensures forall k :: 0 <= k < |at| ==> at[k] < |h| && h[at[k]] == STAGES[k]
    ensures forall k, l :: 0 <= k < l < |at| ==> at[k] < at[l]
  {
    if |h| == 0 {
      at := [];
    } else {
      at := StagePositions(h[..|h| - 1]);
      if |at| < |STAGES| && h[|h| - 1] == STAGES[|at|] {
        at := at + [|h| - 1];
      }
    }
  }

  /** On a path, between leaving OS and any later OS lie all the stages, in their order. */
  lemma PathBackToOs(h: seq<St>, i: nat, j: nat) returns (at: seq<nat>)
    requires Path(h) && i < j < |h| && h[i] == OS && h[i + 1] != OS && h[j] == OS
    ensures |at| == |STAGES| && i < at[0] && at[4] < j
    ensures forall k :: 0 <= k < 5 ==> at[k] < |h| && h[at[k]] == STAGES[k]
    ensures forall k, l :: 0 <= k < l < 5 ==> at[k] < at[l]
  {
    var g := h[i + 1..j + 1];
    assert Edge(h[i], h[i + 1]);
    assert Path(g) by {
      forall k | 0 <= k < |g| - 1 ensures g[k] == g[k + 1] || Edge(g[k], g[k + 1]) {
        assert g[k] == h[i + 1 + k] && g[k + 1] == h[i + 1 + k + 1];
      }
    }
    ProgressCoversNeed(g);
    var rel := StagePositions(g);
    assert g[|g| - 1] == OS;
    at := seq(5, k requires 0 <= k < 5 => rel[k] + i + 1);
  }

  /** In a whole life of `goto_state` calls on the base machine, undisturbed by `set_state` and detection:
      between leaving OS and any later OS the system goes through POWERING_OFF, OFF, IPLING, PETITBOOT and
      BOOTING, in this order. */
  lemma ReturnToOs(p: Platform, m: Machine, cs: seq<Command>, i: nat, j: nat) returns (at: seq<nat>)
    requires !p.lpar && Undisturbed(p, m, cs)
    requires var h := History(p, m, cs); i < j < |h| && h[i] == OS && h[i + 1] != OS && h[j] == OS
    ensures |at| == |STAGES| && i < at[0] && at[4] < j
    ensures var h := History(p, m, cs); forall k :: 0 <= k < 5 ==> at[k] < |h| && h[at[k]] == STAGES[k]
    ensures forall k, l :: 0 <= k < l < 5 ==> at[k] < at[l]
  {
    hide History, Path;
    HistoryIsPath(p, m, cs);
    at := PathBackToOs(History(p, m, cs), i, j);
  }
}
