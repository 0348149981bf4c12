/** The two retry layers over SSH: `OpTestSSHConnection` connects and reconnects with exponential
    backoff, `OpTestCommandExecutor` repeats commands on top of it. paramiko, sockets and the remote
    command are the environment; sleeping is added up. */
module SshRetry {

  // ----- The connection -----

  datatype Conn = Conn(client: bool, transport: bool, connected: bool, commands: nat)

  /** One connect attempt: success, an error that is caught and retried, or any other exception. */
  datatype Attempt = Connects(hasTransport: bool) | Refused | Breaks

  datatype Linked = Up | ConnectionFailed | Uncaught

  datatype Connected = Connected(c: Conn, status: Linked, attempts: nat, slept: nat)

  const CONNECT_RETRY := 3

  function Pow2(n: nat): (p: nat)
    ensures p >= 1
  {
    if n == 0 then 1 else 2 * Pow2(n - 1)
  }

  function Cleared(c: Conn): Conn {
    c.(client := false, transport := false, connected := false)
  }

  predicate Alive(c: Conn, answers: bool) {
    c.connected && c.client && c.transport && answers
  }

  /** The loop of `connect` after `a` failed attempts. */
  function ConnectLoop(c: Conn, retry: int, env: nat -> Attempt, a: nat): Connected
    decreases retry - a
  {
    if a >= retry then Connected(c, ConnectionFailed, 0, 0)
    else
      match env(a)
      case Connects(t) => Connected(Conn(true, t, true, 0), Up, 1, 0)
      case Breaks => Connected(c.(client := true), Uncaught, 1, 0)
      case Refused =>
        var rest := ConnectLoop(Cleared(c), retry, env, a + 1);
        rest.(attempts := rest.attempts + 1, slept := rest.slept + if a + 1 < retry then Pow2(a + 1) else 0)
  }

  function Connect(c: Conn, retry: int, answers: bool, env: nat -> Attempt): Connected {
    if Alive(c, answers) then Connected(c, Up, 0, 0) else ConnectLoop(c, retry, env, 0)
  }

  /** A connection that is not connected is left as it is. */
  function Disconnect(c: Conn): Conn {
    if c.connected then Cleared(c) else c
  }

  function Reconnect(c: Conn, env: nat -> Attempt): Connected {
    ConnectLoop(Disconnect(c), CONNECT_RETRY, env, 0)
  }

  // ----- One command -----

  datatype Outcome = Completes(exit: int) | TimesOut | SshBreaks | OtherBreaks

  /** The environment of one `execute_command` and of the reconnect that may follow it. */
  datatype ExecEnv = ExecEnv(answers: bool, connects: nat -> Attempt, outcome: Outcome, reconnects: nat -> Attempt)

  datatype Ended = Completed(exit: int) | CommandFailed(code: int) | SessionLost | NoConnection | OtherError

  datatype Executed = Executed(c: Conn, ended: Ended, ran: bool, attempts: nat)

  /** The failure raised for a non-zero exit code is raised inside the try block, caught by its last
      handler, and raised again with code -1. */
  function RunOn(c: Conn, check: bool, o: Outcome): (Conn, Ended) {
    match o
    case Completes(x) =>
      var c' := c.(commands := c.commands + 1);
      if check && x != 0 then (c', CommandFailed(-1)) else (c', Completed(x))
    case TimesOut => (c, CommandFailed(-1))
    case SshBreaks => (c.(connected := false), SessionLost)
    case OtherBreaks => (c, CommandFailed(-1))
  }

  function Execute(c: Conn, check: bool, e: ExecEnv): Executed {
    var r := if Alive(c, e.answers) then Connected(c, Up, 0, 0) else Reconnect(c, e.connects);
    match r.status
    case ConnectionFailed => Executed(r.c, NoConnection, false, r.attempts)
    case Uncaught => Executed(r.c, OtherError, false, r.attempts)
    case Up =>
      var (c', ended) := RunOn(r.c, check, e.outcome);
      Executed(c', ended, true, r.attempts)
  }

  // ----- run_command -----

  datatype Verdict = Returned(exit: int) | Raised(why: Ended) | Fallback

  /** `outcomes` lists what the commands that really ran did; `slept` is the executor's own sleeping. */
  datatype Trial = Trial(c: Conn, verdict: Verdict, executions: nat, outcomes: seq<Outcome>, connects: nat, slept: nat)

  function Wait(a: nat): nat {
    if Pow2(a) < 30 then Pow2(a) else 30
  }

  function Ran(x: Executed, e: ExecEnv): seq<Outcome> {
    if x.ran then [e.outcome] else []
  }

  /** The first `n` connects, `slept` seconds and the execution `x` put in front of `t`. */
  function Before(x: Executed, e: ExecEnv, n: nat, slept: nat, t: Trial): Trial {
    t.(executions := t.executions + 1, outcomes := Ran(x, e) + t.outcomes,
       connects := t.connects + x.attempts + n, slept := t.slept + slept)
  }

  function Stop(x: Executed, e: ExecEnv, n: nat, c: Conn, v: Verdict): Trial {
    Trial(c, v, 1, Ran(x, e), x.attempts + n, 0)
  }

  function Gone(status: Linked): Ended {
    if status.ConnectionFailed? then NoConnection else OtherError
  }

  /** `run_command` after `a` failed attempts; attempt `k` has environment `env(k)`. */
  function Run(c: Conn, retry: int, env: nat -> ExecEnv, a: nat): Trial
    decreases retry - a
  {
    if a > retry then Trial(c, Fallback, 0, [], 0, 0)
    else
      var e := env(a);
      var x := Execute(c, true, e);
      match x.ended
      case Completed(exit) => Stop(x, e, 0, x.c, Returned(exit))
      case CommandFailed(_) =>
        if a + 1 <= retry then Before(x, e, 0, Wait(a + 1), Run(x.c, retry, env, a + 1))
        else Stop(x, e, 0, x.c, Raised(x.ended))
      case SessionLost =>
        if a < retry then
          var r := Reconnect(x.c, e.reconnects);
          if r.status.Up? then Before(x, e, r.attempts, 0, Run(r.c, retry, env, a + 1))
          else Stop(x, e, r.attempts, r.c, Raised(Gone(r.status)))
        else Stop(x, e, 0, x.c, Raised(SessionLost))
      case _ => Stop(x, e, 0, x.c, Raised(x.ended))
  }

  /** `run_command_ignore_fail`: only lost sessions are retried, and a failed reconnect does not end it. */
  function RunIgnore(c: Conn, retry: int, env: nat -> ExecEnv, a: nat): Trial
    decreases retry - a
  {
    if a > retry then Trial(c, Fallback, 0, [], 0, 0)
    else
      var e := env(a);
      var x := Execute(c, false, e);
      match x.ended
      case Completed(exit) => Stop(x, e, 0, x.c, Returned(exit))
      case SessionLost =>
        if a + 1 <= retry then
          var r := Reconnect(x.c, e.reconnects);
          Before(x, e, r.attempts, 0, RunIgnore(r.c, retry, env, a + 1))
        else Stop(x, e, 0, x.c, Raised(SessionLost))
      case _ => Stop(x, e, 0, x.c, Raised(x.ended))
  }

  // ----- The objects -----

  class Connection {
    var client: bool
    var transport: bool
    var connected: bool
    var commandCount: nat

    ghost function Abs(): Conn
      reads this
    {
      Conn(client, transport, connected, commandCount)
    }

    constructor ()
      ensures Abs() == Conn(false, false, false, 0)
    {
      client, transport, connected, commandCount := false, false, false, 0;
    }

    method CleanupConnection()
      modifies this
      ensures Abs() == Cleared(old(Abs()))
    {
      client, transport, connected := false, false, false;
    }

    method DisconnectNow()
      modifies this
      ensures Abs() == Disconnect(old(Abs()))
    {
      if connected {
        CleanupConnection();
      }
    }

    predicate IsAlive(answers: bool)
      reads this
    {
      connected && client && transport && answers
    }

    method ConnectTo(retry: int, answers: bool, env: nat -> Attempt) returns (status: Linked, attempts: nat, slept: nat)
      modifies this
      ensures Connected(Abs(), status, attempts, slept) == Connect(old(Abs()), retry, answers, env)
    {
      attempts, slept := 0, 0;
      if IsAlive(answers) {
        return Up, 0, 0;
      }
      ghost var c := Abs();
      while attempts < retry
        invariant Connect(c, retry, answers, env) ==
                  var rest := ConnectLoop(Abs(), retry, env, attempts);
                  rest.(attempts := rest.attempts + attempts, slept := rest.slept + slept)
        decreases retry - attempts
      {
        var outcome := env(attempts);
        client := true;
        if outcome.Connects? {
          transport, connected, commandCount := outcome.hasTransport, true, 0;
          return Up, attempts + 1, slept;
        }
        if outcome.Breaks? {
          return Uncaught, attempts + 1, slept;
        }
        attempts := attempts + 1;
        if attempts < retry {
          slept := slept + Pow2(attempts);
        }
        CleanupConnection();
      }
      status := ConnectionFailed;
    }

    method ReconnectNow(env: nat -> Attempt) returns (status: Linked, attempts: nat)
      modifies this
      ensures var r := Reconnect(old(Abs()), env);
              Abs() == r.c && status == r.status && attempts == r.attempts
    {
      DisconnectNow();
      var slept;
      status, attempts, slept := ConnectTo(CONNECT_RETRY, true, env);
    }

    method ExecuteCommand(check: bool, e: ExecEnv) returns (ended: Ended, ghost ran: bool, attempts: nat)
      modifies this
      ensures Executed(Abs(), ended, ran, attempts) == Execute(old(Abs()), check, e)
    {
      attempts, ran := 0, false;
      if !IsAlive(e.answers) {
        var status;
        status, attempts := ReconnectNow(e.connects);
        if !status.Up? {
          ended := Gone(status);
          return;
        }
      }
      ran := true;
      match e.outcome {
        case Completes(x) =>
          commandCount := commandCount + 1;
          ended := if check && x != 0 then CommandFailed(-1) else Completed(x);
        case TimesOut => ended := CommandFailed(-1);
        case SshBreaks =>
          connected := false;
          ended := SessionLost;
        case OtherBreaks => ended := CommandFailed(-1);
      }
    }
  }

  class Executor {
    const connection: Connection
    var history: seq<int>

    constructor (connection: Connection)
      ensures this.connection == connection && history == []
    {
      this.connection := connection;
      history := [];
    }

    /** `run_command`, with what it did: executions, connect attempts of both layers, own sleeping. */
    method RunCommand(retry: int, env: nat -> ExecEnv)
      returns (v: Verdict, executions: nat, connects: nat, slept: nat)
      modifies this`history, connection
      ensures var t := Run(old(connection.Abs()), retry, env, 0);
              && v == t.verdict && connection.Abs() == t.c
              && executions == t.executions && connects == t.connects && slept == t.slept
      ensures history == old(history) + if v.Returned? then [v.exit] else []
    {
      hide Execute, Reconnect, Wait, Ran;
      var attempts := 0;
      executions, connects, slept := 0, 0, 0;
      while attempts <= retry
        invariant history == old(history)
        invariant Continues(Run(old(connection.Abs()), retry, env, 0), executions, connects, slept,
                            Run(connection.Abs(), retry, env, attempts))
        decreases retry - attempts
      {
        var e := env(attempts);
        var ended, _, n := connection.ExecuteCommand(true, e);
        executions, connects := executions + 1, connects + n;
        if ended.Completed? {
          history := history + [ended.exit];
          return Returned(ended.exit), executions, connects, slept;
        }
        if ended.CommandFailed? && attempts + 1 <= retry {
          attempts := attempts + 1;
          slept := slept + Wait(attempts);
          continue;
        }
        if ended.SessionLost? && attempts < retry {
          var status, n' := connection.ReconnectNow(e.reconnects);
          connects := connects + n';
          if status.Up? {
            attempts := attempts + 1;
            continue;
          }
          return Raised(Gone(status)), executions, connects, slept;
        }
        return Raised(ended), executions, connects, slept;
      }
      v := Fallback;
    }

    /** `run_command_ignore_fail`, with the same counts; it never sleeps. */
    method RunCommandIgnoreFail(retry: int, env: nat -> ExecEnv) returns (v: Verdict, executions: nat, connects: nat)
      modifies this`history, connection
      ensures var t := RunIgnore(old(connection.Abs()), retry, env, 0);
              && v == t.verdict && connection.Abs() == t.c
              && executions == t.executions && connects == t.connects && t.slept == 0
      ensures history == old(history) + if v.Returned? then [v.exit] else []
    {
      hide Execute, Reconnect, Ran;
      var attempts := 0;
      executions, connects := 0, 0;
      while attempts <= retry
        invariant history == old(history)
        invariant Continues(RunIgnore(old(connection.Abs()), retry, env, 0), executions, connects, 0,
                            RunIgnore(connection.Abs(), retry, env, attempts))
        decreases retry - attempts
      {
        var e := env(attempts);
        var ended, _, n := connection.ExecuteCommand(false, e);
        executions, connects := executions + 1, connects + n;
        if ended.SessionLost? && attempts + 1 <= retry {
          var _, n' := connection.ReconnectNow(e.reconnects);
          connects := connects + n';
          attempts := attempts + 1;
          continue;
        }
        if ended.Completed? {
          history := history + [ended.exit];
          return Returned(ended.exit), executions, connects;
        }
        return Raised(ended), executions, connects;
      }
      v := Fallback;
    }
  }

  /** The trial `whole` consists of the work counted so far, followed by `rest`. */
  ghost predicate Continues(whole: Trial, executions: nat, connects: nat, slept: nat, rest: Trial) {
    && whole.verdict == rest.verdict && whole.c == rest.c
    && whole.executions == executions + rest.executions
    && whole.connects == connects + rest.connects
    && whole.slept == slept + rest.slept
  }

  // ----- Connecting -----

  /** The first `j` attempts refused. */
  ghost predicate RefusedUntil(env: nat -> Attempt, j: nat) {
    forall k :: 0 <= k < j ==> env(k).Refused?
  }

  lemma {:induction false} ConnectLoopFails(c: Conn, retry: int, env: nat -> Attempt, a: nat)
    requires 0 < retry && a < retry && forall k :: a <= k < retry ==> env(k).Refused?
    ensures var r := ConnectLoop(c, retry, env, a);
            && r.status.ConnectionFailed? && r.c == Cleared(c) && r.attempts == retry - a
            && r.slept == Pow2(retry) - Pow2(a + 1)
    decreases retry - a
  {
    if a + 1 < retry {
      ConnectLoopFails(Cleared(c), retry, env, a + 1);
      assert Pow2(a + 2) == 2 * Pow2(a + 1);
    }
  }

  /** A fully failed connect makes `retry` attempts, sleeps 2^retry - 2 seconds, and ends with client,
      transport and connected all cleared; with no attempts allowed it fails and changes nothing. */
  lemma FailedConnect(c: Conn, retry: int, answers: bool, env: nat -> Attempt)
    requires !Alive(c, answers) && (retry > 0 ==> RefusedUntil(env, retry))
    ensures var r := Connect(c, retry, answers, env);
            && r.status.ConnectionFailed?
            && (retry >= 1 ==> r.c == Cleared(c) && r.attempts == retry && r.slept == Pow2(retry) - 2)
            && (retry <= 0 ==> r == Connected(c, ConnectionFailed, 0, 0))
  {
    if retry > 0 {
      ConnectLoopFails(c, retry, env, 0);
    }
  }

  lemma {:induction false} ConnectLoopSucceeds(c: Conn, retry: int, env: nat -> Attempt, a: nat, j: nat)
    requires a <= j < retry && env(j).Connects? && forall k :: a <= k < j ==> env(k).Refused?
    ensures var r := ConnectLoop(c, retry, env, a);
            && r.status.Up? && r.c == Conn(true, env(j).hasTransport, true, 0) && r.attempts == j - a + 1
            && r.slept == Pow2(j + 1) - Pow2(a + 1)
    decreases retry - a
  {
    if a < j {
      ConnectLoopSucceeds(Cleared(c), retry, env, a + 1, j);
      assert Pow2(a + 2) == 2 * Pow2(a + 1);
    }
  }

  /** A connect that succeeds at attempt `j` (from zero) has slept 2^(j+1) - 2 seconds. */
  lemma SuccessfulConnect(c: Conn, retry: int, answers: bool, env: nat -> Attempt, j: nat)
    requires !Alive(c, answers) && j < retry && RefusedUntil(env, j) && env(j).Connects?
    ensures var r := Connect(c, retry, answers, env);
            r.status.Up? && r.attempts == j + 1 && r.slept == Pow2(j + 1) - 2 && r.c.connected
  {
    ConnectLoopSucceeds(c, retry, env, 0, j);
  }

  lemma {:induction false} ConnectLoopBound(c: Conn, retry: int, env: nat -> Attempt, a: nat)
    requires a <= retry
    ensures ConnectLoop(c, retry, env, a).attempts <= retry - a
    ensures var r := ConnectLoop(c, retry, env, a);
            r.status.Up? <==> a < retry && r.c.connected && r.attempts > 0 && env(a + r.attempts - 1).Connects?
    decreases retry - a
  {
    if a < retry && env(a).Refused? {
      ConnectLoopBound(Cleared(c), retry, env, a + 1);
    }
  }

  // ----- run_command -----

  lemma ExecuteBound(c: Conn, check: bool, e: ExecEnv)
    ensures var x := Execute(c, check, e);
            && x.attempts <= 3
            && (x.ended.CommandFailed? ==> x.ended.code == -1)
            && (x.ended.Completed? ==> x.ran && e.outcome == Completes(x.ended.exit) && (check ==> x.ended.exit == 0))
            && (x.ran && e.outcome.Completes? && (check ==> e.outcome.exit == 0) ==>
                  x.ended == Completed(e.outcome.exit))
  {
    ConnectLoopBound(Disconnect(c), CONNECT_RETRY, e.connects, 0);
  }

  /** At most retry + 1 executions and 6 retry + 3 connect attempts through both layers; the final fallback
      is never reached; a command failure always carries code -1, never the command's own. */
  lemma {:induction false} RunBounds(c: Conn, retry: int, env: nat -> ExecEnv, a: nat)
    requires a <= retry
    ensures var t := Run(c, retry, env, a);
            && 1 <= t.executions <= retry - a + 1
            && t.connects <= 6 * (retry - a) + 3
            && !t.verdict.Fallback?
            && (t.verdict.Raised? && t.verdict.why.CommandFailed? ==> t.verdict.why.code == -1)
    decreases retry - a
  {
    hide Execute, Reconnect, Ran, Wait;
    var e := env(a);
    var x := Execute(c, true, e);
    ExecuteBound(c, true, e);
    if x.ended.CommandFailed? && a < retry {
      RunBounds(x.c, retry, env, a + 1);
    } else if x.ended.SessionLost? && a < retry {
      ReconnectBound(x.c, e.reconnects);
      var r := Reconnect(x.c, e.reconnects);
      if r.status.Up? {
        RunBounds(r.c, retry, env, a + 1);
      }
    }
  }

  lemma ReconnectBound(c: Conn, env: nat -> Attempt)
    ensures Reconnect(c, env).attempts <= 3
  {
    ConnectLoopBound(Disconnect(c), CONNECT_RETRY, env, 0);
  }

  /** Some command exited with 0 exactly if the trial returned; then it is the last one, and returned. */
  ghost predicate ReturnsSuccess(t: Trial) {
    && (t.verdict.Returned? <==> Completes(0) in t.outcomes)
    && (t.verdict.Returned? ==> t.verdict == Returned(0) && t.outcomes[|t.outcomes| - 1] == Completes(0))
    && (forall i :: 0 <= i < |t.outcomes| - 1 ==> t.outcomes[i] != Completes(0))
    && |t.outcomes| <= t.executions
  }

  lemma FailureBefore(x: Executed, e: ExecEnv, n: nat, slept: nat, t: Trial)
    requires ReturnsSuccess(t) && (x.ran ==> e.outcome != Completes(0))
    ensures ReturnsSuccess(Before(x, e, n, slept, t))
  {
    if x.ran {
      assert ([e.outcome] + t.outcomes)[1..] == t.outcomes;
    } else {
      assert [] + t.outcomes == t.outcomes;
    }
  }

  lemma LastExecution(x: Executed, e: ExecEnv, n: nat, c: Conn, v: Verdict)
    requires !v.Fallback? && if x.ran && e.outcome == Completes(0) then v == Returned(0) else v.Raised?
    ensures ReturnsSuccess(Stop(x, e, n, c, v))
  {
  }

  /** `run_command` returns exactly if some command that ran completed with exit code 0; that command was
      the last one, and it is the one returned. */
  lemma {:induction false} ReturnsExactlyOnSuccess(c: Conn, retry: int, env: nat -> ExecEnv, a: nat)
    requires a <= retry
    ensures ReturnsSuccess(Run(c, retry, env, a))
    decreases retry - a
  {
    hide Execute, Reconnect, Wait, Before, Stop, ReturnsSuccess;
    var e := env(a);
    var x := Execute(c, true, e);
    ExecuteBound(c, true, e);
    if x.ended.CommandFailed? && a < retry {
      ReturnsExactlyOnSuccess(x.c, retry, env, a + 1);
      FailureBefore(x, e, 0, Wait(a + 1), Run(x.c, retry, env, a + 1));
    } else if x.ended.SessionLost? && a < retry {
      var r := Reconnect(x.c, e.reconnects);
      if r.status.Up? {
        ReturnsExactlyOnSuccess(r.c, retry, env, a + 1);
        FailureBefore(x, e, r.attempts, 0, Run(r.c, retry, env, a + 1));
      } else {
        LastExecution(x, e, r.attempts, r.c, Raised(Gone(r.status)));
      }
    } else {
      LastExecution(x, e, 0, x.c, if x.ended.Completed? then Returned(x.ended.exit) else Raised(x.ended));
    }
  }

  // ----- When a connection is made, a command runs, and it is tried again -----

  /** The first attempt that is not refused is number `j`, counting from `a`. */
  ghost predicate Answered(env: nat -> Attempt, a: nat, j: nat) {
    a <= j && !env(j).Refused? && forall i :: a <= i < j ==> env(i).Refused?
  }

  /** One of the first `retry` attempts connects, all before it being refused. */
  ghost predicate Reachable(env: nat -> Attempt, retry: int) {
    exists j: nat :: j < retry && Answered(env, 0, j) && env(j).Connects?
  }

  /** How many of at most `retry` attempts, from number `a` on, are made: up to the first not refused. */
  function Tries(env: nat -> Attempt, retry: int, a: nat): nat
    decreases retry - a
  {
    if a >= retry then 0 else if env(a).Refused? then 1 + Tries(env, retry, a + 1) else 1
  }

  lemma {:induction false} AttemptsMade(c: Conn, retry: int, env: nat -> Attempt, a: nat)
    ensures ConnectLoop(c, retry, env, a).attempts == Tries(env, retry, a)
    decreases retry - a
  {
    if a < retry && env(a).Refused? {
      AttemptsMade(Cleared(c), retry, env, a + 1);
    }
  }

  lemma {:induction false} ConnectLoopExactly(c: Conn, retry: int, env: nat -> Attempt, a: nat, j: nat)
    requires a <= j < retry && Answered(env, a, j)
    ensures var r := ConnectLoop(c, retry, env, a);
            && r.attempts == j - a + 1
            && if env(j).Connects? then r.status.Up? && r.c == Conn(true, env(j).hasTransport, true, 0)
               else r.status.Uncaught?
    decreases j - a
  {
    if a < j {
      assert env(a).Refused?;
      ConnectLoopExactly(Cleared(c), retry, env, a + 1, j);
    }
  }

  lemma {:induction false} FirstAnswer(env: nat -> Attempt, retry: int, a: nat) returns (j: nat)
    requires a <= retry
    ensures a <= j <= retry && (forall i :: a <= i < j ==> env(i).Refused?)
    ensures j < retry ==> Answered(env, a, j)
    decreases retry - a
  {
    if a == retry || !env(a).Refused? {
      j := a;
    } else {
      j := FirstAnswer(env, retry, a + 1);
    }
  }

  /** A reconnect succeeds exactly if one of its three attempts connects before any breaks; it gives up
      exactly if all three are refused. */
  lemma ReconnectExactly(c: Conn, env: nat -> Attempt)
    ensures var r := Reconnect(c, env);
            && (r.status.Up? <==> Reachable(env, 3))
            && (r.status.ConnectionFailed? <==> RefusedUntil(env, 3))
            && (r.status.Up? ==> r.c.client && r.c.connected && r.c.commands == 0)
            && (r.status.ConnectionFailed? ==> r.c == Cleared(c))
            && r.attempts == Tries(env, 3, 0)
  {
    AttemptsMade(Disconnect(c), CONNECT_RETRY, env, 0);
    var j := FirstAnswer(env, CONNECT_RETRY, 0);
    if j < CONNECT_RETRY {
      ConnectLoopExactly(Disconnect(c), CONNECT_RETRY, env, 0, j);
      assert forall i: nat :: i < 3 && Answered(env, 0, i) ==> i == j;
    } else {
      ConnectLoopFails(Disconnect(c), CONNECT_RETRY, env, 0);
    }
  }

  /** The command is run: the connection is alive, or can be made again. */
  ghost predicate Runs(c: Conn, e: ExecEnv) {
    (c.connected && c.client && c.transport && e.answers) || Reachable(e.connects, 3)
  }

  /** How an execution that ran its command is reported. */
  function Reported(check: bool, o: Outcome): Ended {
    match o
    case Completes(exit) => if check && exit != 0 then CommandFailed(-1) else Completed(exit)
    case SshBreaks => SessionLost
    case _ => CommandFailed(-1)
  }

  /** What is reported when there is no connection: all attempts were refused, or one broke. */
  ghost function Unconnected(env: nat -> Attempt): Ended {
    if RefusedUntil(env, 3) then NoConnection else OtherError
  }

  /** A dead connection is reconnected before its command, a live one is not touched. The command runs exactly
      if there is then a connection, and its outcome alone decides how the execution ends. */
  lemma ExecuteExactly(c: Conn, check: bool, e: ExecEnv)
    ensures var x := Execute(c, check, e);
            && (x.ran <==> Runs(c, e))
            && x.attempts == ConnectTries(c, e)
            && (!x.ran ==> x.ended == Unconnected(e.connects))
            && (x.ran ==> x.ended == Reported(check, e.outcome))
            && (x.ran ==> x.c.client && (x.c.connected <==> !e.outcome.SshBreaks?))
            && (x.ran ==> x.c.commands ==
                            (if x.attempts == 0 then c.commands else 0) + (if e.outcome.Completes? then 1 else 0))
  {
    hide Reconnect;
    ReconnectExactly(c, e.connects);
    AtLeastOneTry(e.connects);
  }

  lemma AtLeastOneTry(env: nat -> Attempt)
    ensures Tries(env, 3, 0) >= 1
  {
  }

  /** The connect attempts for a command: none on a live connection. */
  function ConnectTries(c: Conn, e: ExecEnv): nat {
    if c.connected && c.client && c.transport && e.answers then 0 else Tries(e.connects, 3, 0)
  }

  /** `run_command` tries again after an execution: the command ran and failed, or it lost its session and the
      connection can be made again. */
  ghost predicate TriesAgain(c: Conn, e: ExecEnv) {
    && Runs(c, e) && e.outcome != Completes(0)
    && (e.outcome.SshBreaks? ==> Reachable(e.reconnects, 3))
  }

  /** How `run_command` ends when it does not try again. */
  ghost function EndsIn(c: Conn, e: ExecEnv, last: bool): Verdict {
    if !Runs(c, e) then Raised(Unconnected(e.connects))
    else if e.outcome == Completes(0) then Returned(0)
    else if !e.outcome.SshBreaks? then Raised(CommandFailed(-1))
    else if last then Raised(SessionLost)
    else Raised(Unconnected(e.reconnects))
  }

  /** One execution of `run_command` after `a` failed ones: it is followed by another exactly if one is left and
      it is to be tried again, after min(2^(a+1), 30) seconds if the command failed and at once if the
      session was lost. Otherwise it ends as its outcome and the connects say. */
  lemma RunTriesAgain(c: Conn, retry: int, env: nat -> ExecEnv, a: nat) returns (next: Conn)
    requires a <= retry
    ensures var t := Run(c, retry, env, a);
            if a < retry && TriesAgain(c, env(a)) then
              var rest := Run(next, retry, env, a + 1);
              && next.client && next.connected
              && t.verdict == rest.verdict && t.c == rest.c && t.executions == rest.executions + 1
              && t.outcomes == [env(a).outcome] + rest.outcomes
              && t.connects == rest.connects + ConnectTries(c, env(a)) +
                   (if env(a).outcome.SshBreaks? then Tries(env(a).reconnects, 3, 0) else 0)
              && t.slept == rest.slept +
                   if env(a).outcome.SshBreaks? then 0 else if Pow2(a + 1) < 30 then Pow2(a + 1) else 30
            else t.verdict == EndsIn(c, env(a), a == retry) && t.executions == 1 && t.slept == 0
  {
    var e := env(a);
    var x := Execute(c, true, e);
    ExecuteExactly(c, true, e);
    ReconnectExactly(x.c, e.reconnects);
    next := if e.outcome.SshBreaks? then Reconnect(x.c, e.reconnects).c else x.c;
    hide Execute, Reconnect, Reachable, RefusedUntil, Runs, Tries;
  }

  ghost function IgnoreEndsIn(c: Conn, e: ExecEnv): Verdict {
    if !Runs(c, e) then Raised(Unconnected(e.connects))
    else if e.outcome.Completes? then Returned(e.outcome.exit)
    else if e.outcome.SshBreaks? then Raised(SessionLost)
    else Raised(CommandFailed(-1))
  }

  /** `run_command_ignore_fail` tries again exactly if one is left and the session of a command that ran was
      lost, whatever becomes of the reconnect. */
  lemma IgnoreTriesAgain(c: Conn, retry: int, env: nat -> ExecEnv, a: nat) returns (next: Conn)
    requires a <= retry
    ensures var t := RunIgnore(c, retry, env, a);
            if a < retry && Runs(c, env(a)) && env(a).outcome.SshBreaks? then
              var rest := RunIgnore(next, retry, env, a + 1);
              && t.verdict == rest.verdict && t.c == rest.c && t.executions == rest.executions + 1
              && (next.connected <==> Reachable(env(a).reconnects, 3))
            else
              && t.executions == 1
              && t.verdict == IgnoreEndsIn(c, env(a))
  {
    var e := env(a);
    var x := Execute(c, false, e);
    ExecuteExactly(c, false, e);
    ReconnectExactly(x.c, e.reconnects);
    LostReconnect(x.c, e.reconnects);
    next := Reconnect(x.c, e.reconnects).c;
    hide Execute, Reconnect, Reachable, RefusedUntil, Runs, Tries;
  }

  /** A connection that was lost is connected afterwards only by a reconnect that succeeds. */
  lemma LostReconnect(c: Conn, env: nat -> Attempt)
    ensures !c.connected ==> (Reconnect(c, env).c.connected <==> Reconnect(c, env).status.Up?)
  {
    if !c.connected {
      LoopConnects(c, CONNECT_RETRY, env, 0);
    }
  }

  lemma {:induction false} LoopConnects(c: Conn, retry: int, env: nat -> Attempt, a: nat)
    requires !c.connected
    ensures ConnectLoop(c, retry, env, a).c.connected <==> ConnectLoop(c, retry, env, a).status.Up?
    decreases retry - a
  {
    if a < retry && env(a).Refused? {
      LoopConnects(Cleared(c), retry, env, a + 1);
    }
  }

  // ----- Backoff of run_command -----

  /** The waits before attempts `a + 1` to `retry`. */
  function Backoff(a: nat, retry: nat): nat
    requires a <= retry
    decreases retry - a
  {
    if a == retry then 0 else Wait(a + 1) + Backoff(a + 1, retry)
  }

  /** None of the first `n` commands lost the session. */
  predicate NoneLost(outcomes: seq<Outcome>, n: nat) {
    forall i :: 0 <= i < n && i < |outcomes| ==> !outcomes[i].SshBreaks?
  }

  lemma OneMoreOutcome(o: Outcome, rest: seq<Outcome>, n: nat)
    ensures NoneLost([o] + rest, n + 1) <==> !o.SshBreaks? && NoneLost(rest, n)
  {
    var all := [o] + rest;
    assert all[0] == o && forall i :: 0 <= i < |rest| ==> rest[i] == all[i + 1];
  }

  /** How an execution ended tells what its command did. */
  lemma RanAs(c: Conn, e: ExecEnv)
    ensures var x := Execute(c, true, e);
            && (x.ended.CommandFailed? ==> x.ran && !e.outcome.SshBreaks? && e.outcome != Completes(0))
            && (x.ended.SessionLost? ==> x.ran && e.outcome.SshBreaks?)
  {
    hide Reconnect;
  }

  /** No run sleeps longer than the full backoff, and it sleeps that long exactly if it uses up all its
      attempts and loses no session before the last one. A command failure is reported only after the last
      attempt, and then every attempt ran its command. */
  lemma {:induction false} SleepsInFull(c: Conn, retry: nat, env: nat -> ExecEnv, a: nat)
    requires a <= retry
    ensures var t := Run(c, retry, env, a);
            && t.slept <= Backoff(a, retry)
            && (t.slept == Backoff(a, retry) <==> t.executions == retry - a + 1 && NoneLost(t.outcomes, retry - a))
            && (t.verdict.Raised? && t.verdict.why.CommandFailed? ==>
                  t.executions == retry - a + 1 && |t.outcomes| == t.executions)
    decreases retry - a
  {
    hide Execute, Reconnect, NoneLost;
    var e := env(a);
    var x := Execute(c, true, e);
    RanAs(c, e);
    if a == retry {
      NothingBefore(Ran(x, e));
    } else if x.ended.CommandFailed? {
      SleepsInFull(x.c, retry, env, a + 1);
      OneMoreOutcome(e.outcome, Run(x.c, retry, env, a + 1).outcomes, retry - a - 1);
    } else if x.ended.SessionLost? {
      var r := Reconnect(x.c, e.reconnects);
      if r.status.Up? {
        SleepsInFull(r.c, retry, env, a + 1);
        OneMoreOutcome(e.outcome, Run(r.c, retry, env, a + 1).outcomes, retry - a - 1);
      }
    }
  }

  lemma NothingBefore(outcomes: seq<Outcome>)
    ensures NoneLost(outcomes, 0)
  {
  }

  lemma {:induction false} BackoffAdds(a: nat, b: nat, retry: nat)
    requires a <= b <= retry
    ensures Backoff(a, retry) == Backoff(a, b) + Backoff(b, retry)
    decreases b - a
  {
    if a < b {
      BackoffAdds(a + 1, b, retry);
    }
  }

  lemma {:induction false} LongBackoff(retry: nat)
    requires retry >= 4
    ensures Backoff(4, retry) == 30 * (retry - 4)
  {
    if retry > 4 {
      LongBackoff(retry - 1);
      BackoffAdds(4, retry - 1, retry);
      Pow2Large(retry);
      assert Backoff(retry - 1, retry) == Wait(retry) + Backoff(retry, retry);
    }
  }

  lemma {:induction false} Pow2Large(n: nat)
    requires n >= 5
    ensures Pow2(n) >= 30
  {
    if n == 5 {
      assert Pow2(5) == 2 * Pow2(4) && Pow2(4) == 2 * Pow2(3) && Pow2(3) == 2 * Pow2(2) && Pow2(2) == 2 * Pow2(1);
    } else {
      Pow2Large(n - 1);
    }
  }

  lemma {:induction false} ShortBackoff(retry: nat)
    requires retry <= 4
    ensures Backoff(0, retry) == Pow2(retry + 1) - 2
  {
    if retry > 0 {
      ShortBackoff(retry - 1);
      BackoffAdds(0, retry - 1, retry);
      assert Pow2(1) == 2 && Pow2(2) == 4 && Pow2(3) == 8 && Pow2(4) == 16;
      assert Backoff(retry - 1, retry) == Wait(retry) + Backoff(retry, retry);
    }
  }

  /** When every attempt ends in a command failure, on a connection in whatever state, with or without
      reconnecting before the commands, `run_command` sleeps 2^(retry+1) - 2 seconds for up to four
      retries, and 30 (retry - 3) from four on. No other run sleeps longer. */
  lemma BackoffClosedForm(c: Conn, retry: nat, env: nat -> ExecEnv)
    ensures var t := Run(c, retry, env, 0);
            var full := if retry <= 4 then Pow2(retry + 1) - 2 else 30 * (retry - 3);
            && (retry == 4 ==> full == 30 * (retry - 3))
            && t.slept <= full
            && (t.verdict.Raised? && t.verdict.why.CommandFailed? && SshBreaks !in t.outcomes ==>
                  t.slept == full && t.executions == retry + 1)
  {
    SleepsInFull(c, retry, env, 0);
    if retry <= 4 {
      ShortBackoff(retry);
    }
    if retry >= 4 {
      BackoffAdds(0, 4, retry);
      ShortBackoff(4);
      LongBackoff(retry);
      assert Pow2(5) == 2 * Pow2(4) && Pow2(4) == 2 * Pow2(3) && Pow2(3) == 2 * Pow2(2) && Pow2(2) == 2 * Pow2(1);
    }
  }

  // ----- run_command_ignore_fail -----

  /** The same bounds hold, and it returns exactly if some command that ran completed, with any exit code. */
  lemma {:induction false} IgnoreBounds(c: Conn, retry: int, env: nat -> ExecEnv, a: nat)
    requires a <= retry
    ensures var t := RunIgnore(c, retry, env, a);
            && 1 <= t.executions <= retry - a + 1
            && t.connects <= 6 * (retry - a) + 3 && t.slept == 0
            && !t.verdict.Fallback?
            && (t.verdict.Returned? <==> exists o :: o in t.outcomes && o.Completes?)
    decreases retry - a
  {
    hide Execute, Reconnect;
    var e := env(a);
    var x := Execute(c, false, e);
    ExecuteBound(c, false, e);
    if x.ended.SessionLost? && a < retry {
      ReconnectBound(x.c, e.reconnects);
      IgnoreBounds(Reconnect(x.c, e.reconnects).c, retry, env, a + 1);
    }
  }
}
