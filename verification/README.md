# A Dafny model of op-test's state machines

op-test drives POWER machines. Most of it talks to consoles, BMCs and servers; this project models the
parts that decide what to do next, and proves what they keep over whole runs. Whatever the outside world
does (a console match, a power command, an ssh attempt, a server reply, the clock) is an argument of the
model: a stream or a record of outcomes. A theorem "for every environment" therefore holds against an
adversary that picks every outcome.

Each part has the same shape: functions say what happens for a given environment, methods (with the
source's fields and loops) are proved to do exactly that, and lemmas state what the functions guarantee.

| file | part |
|---|---|
| `op_expect.dfy` | `OPexpect.spawn.expect`: fatal console patterns and index shifting |
| `wait_for_it.dfy` | `wait_for_it` and `check_it`: polling, stale buffers, reconnects, callbacks, last try |
| `wait_ends.dfy` | what the console makes of a wait: hits, breakages, silence, and what the strings mean |
| `host_spec.dfy` | the host state machine as functions: handlers, detection, the loop of `goto_state` |
| `host_termination.dfy` | why `goto_state` finishes, the exact bound, and the LPAR variant |
| `host_safety.dfy` | budgets, detection and stop over any sequence of `goto_state` and `set_state` calls |
| `host_outcomes.dfy` | when handlers go on, and how and when `goto_state` ends and stops the system |
| `host_detection.dfy` | what detection finds, told from its observations |
| `host_paths.dfy` | which states follow each other, and the way back to OS |
| `host_system.dfy` | `OpTestSystem` and `OpTestLPARSystem` as a class |
| `pci_slots.dfy` | the PCI slot allocator of the QEMU console |
| `connection_pool.dfy` | the SSH connection pool under any interleaving of clients and monitor |
| `ssh_retry.dfy` | the connection object and the command executor with their retry loops |
| `aes_reservation.dfy` | AES reservations: lock, record, retry, clean up |
| `wrappers.dfy` | the option type all parts share |
| `kernel_cmdline.dfy` | the kernel command line check and rewriter |

Where the code differs from what it says it does, the model follows the code:

- The guard of `goto_state` does not cover UNKNOWN_BAD, so an LPAR system asked for that state can go round
  OFF, BOOTING, OS and POWERING_OFF for ever without spending a retry (`EndsExactlyWhenFinishes`).
- A later detection probe with target PETITBOOT_SHELL that finds some prompt reports PETITBOOT_SHELL even if
  the kernel check says OS or nothing (`ShellClaimedUnseen`).
- The reboot of the detection phase is meant to happen once; a probe that raises leaves the flag untouched.
  `run_REBOOT` is entered twice exactly if the first probe breaks inside it and the second one enters it
  (`LifetimeReboots`, with a run in `BrokenProbeRebootsTwice`).
- `wait_for_it` recognises a stale buffer by comparing it with sentinel texts. A console whose first buffer
  reads "emptyfirst" is reconnected one expect early; what later buffers read does not matter for a
  threshold of two or more (`PacingExactly`). With the default threshold of one both sentinels do
  (`PacingByTwoExactly`).
- `execute_command` raises its non-zero-exit failure inside its own try block, so callers always see exit
  code -1 (`RunBounds`).
- After a skiboot failure `expect` chases more output with TIMEOUT in its list; when that times out, putting
  the log together is a TypeError, and neither skiboot failure is raised (`Expected`).
- `KernelCrashUnknown` is never raised by `expect`, and the "unable to verify" branch of the AES cleanup is
  never taken.
- A release that the server answers without carrying it out is forgotten (`UnconfirmedReleaseLeaks`). It can
  happen within set-up, after a bad server record. Set-up ends with a held reservation off the record exactly
  then or if the answer to an enqueue is lost (`SetUpKeepsRecord`, with a run in `SetUpForgets`); lost answers
  are also the one way to hold more than one (`SetUpKeepsRecord` counts them).
- `release_connection` works by key: with two requests for one key, one client's release lends the other
  client's connection to a third (`RequestWhileHeldSharesConnection`). The pool stays in order exactly if
  no client gives back a connection that lost its key to another one in use (`OrderlyExactlyWithoutStray`).
- `close_connection` works by key too, and a request closes an unusable entry even while it is held; exactly
  these, and shutdown, close a connection that somebody else holds (`HeldLeavesExactly`).
- A get that reuses a connection never cleans up, even above the pool's limit (`AboveLimitExactly`, with a
  run in `ReuseLeavesStale`).
- The rewriter does not notice that a line already has a bare argument (without "="): a second fold appends
  it again (`SecondFoldChangesNothing`).
- `check_kernel_cmdline` reads the running command line while the rewriter edits the grub line; the two agree
  exactly if the grub line already has the arguments that the running line has (`FoldAgainstOtherLine`).

## Model

| member | source | states |
|---|---|---|
| OpExpect.Expected | common/OPexpect.py:65-176 | the caller sees entry i exactly when its own entry i matched; every fatal pattern raises and, except for the first, marks the system through the callback; the skiboot failures are raised exactly if the follow-up read found its text, a timed-out one ends in a TypeError; KernelCrashUnknown is never raised |
| OpExpect.Expect | common/OPexpect.py:64-176 | the expect with its follow-up loop has exactly the specified outcome, and the log of a kernel failure holds the follow-up reads up to and including the first that ends the report |
| OpExpect.CompleteReportEnds | common/OPexpect.py:111-125 | the follow-up loop ends by itself exactly if some read is one of the five report ends |
| OpExpect.FaultTells | common/OPexpect.py:92-174 | read backwards: each exception is raised exactly for its patterns, a kernel failure only after a complete report, and kdump, fadump and panic by how the report ended |
| WaitForIt.LoopBody | common/OpTestSystem.py:658-697 | one loop iteration: expect, stale-buffer bookkeeping, reconnect, check_it |
| WaitForIt.LastExpect | common/OpTestSystem.py:708-719 | the last try after the loop: hit, callback exception or giving up |
| WaitForIt.WaitLoop | common/OpTestSystem.py:633-721 | the whole polling loop gives the specified result for every console behaviour |
| WaitForIt.ExpectBound | common/OpTestSystem.py:658-721 | for loop_max of 2 or more the wait returns or raises after at most loop_max table expects, last try included |
| WaitForIt.ReconnectSlack | common/OpTestSystem.py:655-721 | for a threshold of 2 or more, whatever the console prints and however the wait ends, reconnects times threshold exceed neither the expects made nor the loop iterations by more than 1 |
| WaitForIt.ReconnectBound | common/OpTestSystem.py:655-721 | they exceed neither at all if the first buffer does not read "emptyfirst", whatever later ones read |
| WaitForIt.PacingExactly | common/OpTestSystem.py:654-684 | exactly when every console with a given first buffer keeps that pace: the buffer is not "emptyfirst", or reconnecting is off, or loop_max is below the threshold |
| WaitForIt.ReconnectEverySecond | common/OpTestSystem.py:655-721 | for a threshold of 1 twice the reconnects exceed neither expects nor iterations if the console prints neither sentinel |
| WaitForIt.PacingByTwoExactly | common/OpTestSystem.py:654-684 | for a threshold of 1, the exact condition on the texts a console may print, on reconnecting and on loop_max under which every wait keeps that pace |
| WaitForIt.SentinelBreaksPacing | common/OpTestSystem.py:655-681 | with a threshold of 1 a console printing a sentinel gets three reconnects in five expects |
| WaitForIt.EarlierPollsUneventful | common/OpTestSystem.py:658-694 | nothing is passed over: every expect before the one that ends the wait was a TIMEOUT or EOF |
| WaitForIt.LastPollDecides | common/OpTestSystem.py:723-755 | a returned index names the table entry that really matched (after both index shifts) and its action is None |
| WaitForIt.FirstAlarmEndsWait | common/OpTestSystem.py:664-719 | the first fatal pattern or table callback ends the wait with its exception, at whatever expect it comes |
| WaitForIt.TablesSorted | common/OpTestSystem.py:120-141 | the two tables are listed in the key order that sorting gives |
| WaitEnds.FirstHitEndsWait | common/OpTestSystem.py:658-716 | if all expects before number k are quiet and number k matches a plain string, at any k up to and including the last try, the wait is found on that string after k + 1 expects |
| WaitEnds.FirstBreakageEndsWait | common/OpTestSystem.py:658-719 | the same for a console that cannot be opened, is lost, or cannot be closed after an EOF: the wait ends with that exception |
| WaitEnds.SilenceGivesUp | common/OpTestSystem.py:658-721 | a console that stays quiet makes the wait give up after loop_max expects with the last try, one less without |
| WaitEnds.FoundIsGood | common/OpTestSystem.py:723-755 | a wait is only found on "/ #", "Petitboot" or "x=exit" for petitboot and on "login: " for the OS, and that string really matched |
| WaitEnds.StringsAct | common/OpTestSystem.py:120-141 | what every other string of the two tables does: ask for another try, or stop the system, with or without its diagnostics |
| WaitEnds.SilenceReconnects | common/OpTestSystem.py:658-684 | a console silent on one text is reconnected exactly (loop_max - 1) / threshold times before the wait gives up |
| WaitEnds.BrokenKickEndsWait | common/OpTestSystem.py:679-683 | trouble with the traffic after a reconnect ends the wait |
| HostTermination.HandleMoves | common/OpTestSystem.py:783-1016 | which state each handler may return, that only a wait that gave up returns UNKNOWN_BAD, and that it pays with exactly one watermark step below the kill cord |
| HostTermination.RankFalls | common/OpTestSystem.py:783-1016 | every move that does not end the run lowers the target-dependent rank, or is a retry that raises it by less than the retry's price |
| HostTermination.PassDecreases | common/OpTestSystem.py:380-402 | each handler call that does not end goto_state lowers the measure built from rank and budgets |
| HostTermination.GotoFinishes | common/OpTestSystem.py:359-402 | for every start, target, detection and environment goto_state returns or raises after at most 6(b+1)+4i handler calls, hence at most 6(b+i+1) |
| HostTermination.BoundIsAttained | common/OpTestSystem.py:359-402 | that bound is exact: from the petitboot shell towards OS some environment makes that many handler calls, for all budgets |
| HostTermination.LparCycles | common/OpTestSystem.py:1611-1635 | on an LPAR with a target off its cycle, the all-succeeding environment goes round OFF, BOOTING, OS, POWERING_OFF for ever and spends no budget |
| HostTermination.EndsExactlyWhenFinishes | common/OpTestSystem.py:369-372 | goto_state ends under every environment exactly if the platform is not an LPAR, or the guard skips the target, or the target is none of IPLing, PETITBOOT, PETITBOOT_SHELL and UNKNOWN_BAD |
| HostSafety.LifetimeBudget | common/OpTestSystem.py:171-175 | over any sequence of goto_state and set_state calls both watermarks only grow, never past the kill cord, and retries made plus budget left are constant |
| HostSafety.BudgetDuringGoto | common/OpTestSystem.py:359-402 | the same after any number of passes of one more goto_state, on any platform and for any target, whether or not it ever ends |
| HostSafety.LifetimeDetection | common/OpTestSystem.py:410-422 | at most two detection probes ever, whether they raise or not, and run_REBOOT is entered at most once unless a probe raised |
| HostSafety.ProbeReboots | common/OpTestSystem.py:498-589 | the exact condition on permission, target and observations under which a probe enters run_REBOOT; it does so and leaves the permission behind exactly if run_REBOOT raised |
| HostSafety.LifetimeReboots | common/OpTestSystem.py:410-422 | over any life: run_REBOOT is entered at most twice, and twice exactly if there were two probes, the first broke inside it and the second enters it |
| HostSafety.BrokenProbeRebootsTwice | common/OpTestSystem.py:410-422 | a life of two calls that enters run_REBOOT twice |
| HostSafety.StopIsAbsorbing | common/OpTestSystem.py:383-384 | once stop is set every later goto_state raises without calling a handler, whatever set_state does in between |
| HostSafety.StopExactlyOnFatalWait | common/OpTestSystem.py:845-871 | a waiting handler sets stop exactly if the wait ended otherwise than by a match or a retryable exception; it then raises with state UNKNOWN_BAD |
| HostSafety.StopInBooting | common/OpTestSystem.py:961-987 | the same for the boot wait, where an HTTP failure is not retryable |
| HostSafety.ThrownEffects | common/OpTestSystem.py:201-230 | what callbacks did to the system when their exception leaves the wait: both flags for a hostboot shutdown, none for a retryable exception |
| HostSafety.AlarmStopsForGood | common/OpTestSystem.py:359-402 | from the console to the end: if the first alarm of the wait is fatal, goto_state raises after that one handler call with stop set and state UNKNOWN_BAD, and no handler ever runs again |
| HostOutcomes.HandlerGoesOn | common/OpTestSystem.py:783-1016 | for every handler: the exact condition on its environment under which it hands on a state instead of raising, and which state |
| HostOutcomes.RaiseLeaves | common/OpTestSystem.py:783-1016 | a handler that raises without waiting leaves UNKNOWN_BAD if what broke had met a fatal pattern, its own state otherwise, and does not touch stop |
| HostOutcomes.WaitBegins | common/OpTestSystem.py:1541-1545 | trouble with the runtime check or the opening connect ends a wait before its first expect, with its exception |
| HostOutcomes.GoodStringGoesOn | common/OpTestSystem.py:837-991 | from the console to the handler: a good string takes IPLing to PETITBOOT and BOOTING to OS, at whatever expect it comes |
| HostOutcomes.SilenceSpendsRetry | common/OpTestSystem.py:837-991 | a silent console spends exactly one retry and goes to UNKNOWN_BAD, or to UNKNOWN when none is left |
| HostOutcomes.GotoEndsExactly | common/OpTestSystem.py:380-408 | goto_state ends with the first handler call that raises, reaches the target or falls to UNKNOWN; it returns exactly if that call reaches the target and the NVRAM check is fine, and stops the system exactly if its wait ended fatally or without a retry left |
| HostOutcomes.FallbackStops | common/OpTestSystem.py:398-402 | a goto_state during which the system comes to UNKNOWN from another state raises there with stop set, and no handler runs ever after |
| HostOutcomes.GotoEndsSafely | common/OpTestSystem.py:380-402 | started outside UNKNOWN and not asked for it, goto_state ends in UNKNOWN only with stop set; with stop set it never returns |
| HostOutcomes.BudgetEndStops | common/OpTestSystem.py:390-402 | a retryable end of the wait with the watermark at the kill cord: one handler call, state UNKNOWN, raise with stop set, and no handler ever after |
| HostOutcomes.SilenceStopsForGood | common/OpTestSystem.py:390-402 | the same from the console: silence through the last retry stops the system for good |
| HostOutcomes.SkippedExactly | common/OpTestSystem.py:359-379 | which targets are skipped, and that only UNKNOWN leads to detection, whose answer becomes the state |
| HostDetection.ProbeExactly | common/OpTestSystem.py:498-589 | over ssh, console, kernel check, action, target and permission: exactly when a probe finds the target and exactly when it raises |
| HostDetection.DetectExactly | common/OpTestSystem.py:410-422 | run_DETECT finds the target exactly if the first probe does, or that one misses and the second, allowed by the counter and without permission to reboot, does |
| HostDetection.RaisingProbeLeaves | common/OpTestSystem.py:498-589 | a raising probe leaves UNKNOWN_BAD if what broke had met a fatal pattern, the state as it was otherwise, and never sets stop |
| HostDetection.RebootAlarmStays | common/OpTestSystem.py:757-781 | what the first alarm of the reboot's wait did to state and stop stays, though its exception is swallowed |
| HostSafety.DetectYieldsTargetOrUnknown | common/OpTestSystem.py:410-589 | detection yields the target (then OS, PETITBOOT or PETITBOOT_SHELL) or UNKNOWN on every branch |
| HostSafety.ShellClaimedUnseen | common/OpTestSystem.py:565-573 | exactly when a probe claims the petitboot shell without having seen it |
| HostSafety.DetectionDecides | common/OpTestSystem.py:373-402 | from UNKNOWN: if detection finds the target, exactly one handler call follows, without a power-off; otherwise the first handler powers off |
| HostPaths.PassEdge | common/OpTestSystem.py:783-1016 | each handler call follows an edge; BOOTING is entered only from PETITBOOT with target OS, and OS only from BOOTING |
| HostPaths.HistoryIsPath | common/OpTestSystem.py:359-402 | every life of the base machine without set_state and detection follows the edges |
| HostPaths.ProgressCoversNeed | common/OpTestSystem.py:783-1016 | after leaving OS, being in a state implies having passed the stages before it in order |
| HostPaths.ReturnToOs | common/OpTestSystem.py:783-1016 | in every such life, between leaving OS and any later OS lie POWERING_OFF, OFF, IPLing, PETITBOOT and BOOTING, in this order |
| HostSystem.System.WaitForIt | common/OpTestSystem.py:633-755 | the platform's wait, with what its callbacks and fatal patterns do to state and stop |
| HostSystem.System.RunUnknown | common/OpTestSystem.py:783-786 | run_UNKNOWN: power off, or raise |
| HostSystem.System.RunOff | common/OpTestSystem.py:788-835 | run_OFF for every outcome, with its single power-on retry |
| HostSystem.System.LparRunOff | common/OpTestSystem.py:1617-1635 | run_OFF of the LPAR system, straight to BOOTING |
| HostSystem.System.RunIpling | common/OpTestSystem.py:837-876 | run_IPLing for every outcome of its wait |
| HostSystem.System.RunPetitboot | common/OpTestSystem.py:878-897 | run_PETITBOOT for every target and outcome |
| HostSystem.System.RunPetitbootShell | common/OpTestSystem.py:899-911 | run_PETITBOOT_SHELL for every target and outcome |
| HostSystem.System.RunBooting | common/OpTestSystem.py:913-991 | run_BOOTING for every outcome of ssh detection and wait |
| HostSystem.System.RunOs | common/OpTestSystem.py:993-999 | run_OS: stay, or power off |
| HostSystem.System.RunPoweringOff | common/OpTestSystem.py:1001-1016 | run_POWERING_OFF for every standby code |
| HostSystem.System.RunReboot | common/OpTestSystem.py:757-781 | run_REBOOT: its wait's exceptions are swallowed, their effects on state and stop are not |
| HostSystem.System.ProbeThePrompt | common/OpTestSystem.py:541-573 | detection at a shell prompt for every kernel check, target and reboot flag |
| HostSystem.System.DetectTarget | common/OpTestSystem.py:498-589 | detect_target for every ssh and console observation |
| HostSystem.System.RunDetect | common/OpTestSystem.py:410-422 | run_DETECT with its counters for every sequence of probes |
| HostSystem.System.GotoState | common/OpTestSystem.py:359-408 | goto_state terminates, ends in the machine, status and number of handler calls of the specified run, and keeps to the bound; it returns only in the target state, watermarks stay monotone and capped, and after a stop it raises without a handler call |
| HostSystem.System.GotoPasses | common/OpTestSystem.py:359-402 | the first n passes of goto_state for every platform and target, also those that need not finish |
| HostSystem.System.SetState | common/OpTestSystem.py:356-357 | set_state changes the state and nothing else |
| PciSlots.OpenBridge | common/OpTestQemu.py:213-227 | the search finds the first unbridged bridge, always nine places before the end of the grown table, and hangs the next bus on it |
| PciSlots.PlaceOne | common/OpTestQemu.py:203-247 | one disk goes to its closed-form slot and the table keeps its shape: the bridged entries are exactly the first len-9 |
| PciSlots.PlaceDisks | common/OpTestQemu.py:187-247 | for any number of disks the loop places disk k in its closed-form slot and opens exactly the closed-form nested bridges; "ran out of slots" is unreachable and "lost track" needs 30 prefilled slots and more than 120 disks |
| PciSlots.NestedCountIsGrowth | common/OpTestQemu.py:213-227 | the number of nested bridges is max(0, ceil((n+p)/30) - 9) |
| PciSlots.Connect | common/OpTestQemu.py:163-247 | the (bus, address) pairs on the command line are exactly the wiring |
| PciSlots.DisksDisjoint | common/OpTestQemu.py:236-247 | two disks never share a slot, addresses stay in 2..31, and bus 7 keeps its prefilled slots |
| PciSlots.NoGaps | common/OpTestQemu.py:187-247 | every slot before the last disk's, with an address from 2 to 31, carries a disk or is prefilled |
| PciSlots.NoSharedSlot | common/OpTestQemu.py:163-247 | no two devices share a (bus, address) pair, counting base bridges, NIC, CD-ROM, nested bridges and disks |
| PciSlots.BridgeForest | common/OpTestQemu.py:213-227 | every nested bridge hangs in slot 1 of a lower, existing bus, at most one per bus |
| PciSlots.NestedBridgesAreUsed | common/OpTestQemu.py:205-234 | every disk's bus exists, and the last nested bridge carries the last disk |
| ConnectionPool.Manager.GetConnection | common/OpTestConnectionManager.py:150-221 | get_connection: reuse, close and recreate, cleanup at the limit, create or raise |
| ConnectionPool.Manager.AddConnection | common/OpTestConnectionManager.py:205-214 | the created entry is acquired at once and takes its key, displacing what was there |
| ConnectionPool.Manager.ReleaseConnection | common/OpTestConnectionManager.py:223-237 | release works by key and ignores unknown keys |
| ConnectionPool.Manager.CloseKey | common/OpTestConnectionManager.py:239-250 | closing removes the entry and counts it, even if the disconnect fails |
| ConnectionPool.Manager.CleanupStale | common/OpTestConnectionManager.py:264-288 | collect, then close: exactly the idle stale entries go, and their number is returned |
| ConnectionPool.Manager.CleanupAll | common/OpTestConnectionManager.py:300-309 | every entry is closed and counted |
| ConnectionPool.CleanupExact | common/OpTestConnectionManager.py:264-288 | cleanup keeps exactly the entries in use or fresh, unchanged, and is idempotent at a fixed clock |
| ConnectionPool.GetGivesExactly | common/OpTestConnectionManager.py:168-221 | a get gives a connection exactly if it connects or the key's is healthy, younger than the maximum age and idle; it is that one then, and a new one otherwise, so none dead or too old is handed out |
| ConnectionPool.GetClosesExactly | common/OpTestConnectionManager.py:172-214 | which entries a get that does not reuse closes and counts: the key's own if dead or too old, and all stale ones if the pool is then at its limit |
| ConnectionPool.ReleaseRestartsIdle | common/OpTestConnectionManager.py:74-78 | a release starts the idle time anew, and decides with health and age when the connection becomes stale |
| ConnectionPool.AboveLimitExactly | common/OpTestConnectionManager.py:168-214 | when a successful get above the limit implies every entry in use or fresh at that clock: exactly if it creates, or the pool was within its limit, or nothing but the reused entry was stale |
| ConnectionPool.ReuseLeavesStale | common/OpTestConnectionManager.py:172-188 | a run of two clients whose last step reuses above the limit and leaves a stale entry |
| ConnectionPool.DisplacesExactly | common/OpTestConnectionManager.py:168-214 | displaced counts exactly the successful creations over a usable entry that is in use |
| ConnectionPool.AllRunsConserve | common/OpTestConnectionManager.py:64-309 | in every interleaving created = closed + pool size + displaced, and created + reused is the sum of all use counts ever |
| ConnectionPool.OrderlyExactlyWithoutStray | common/OpTestConnectionManager.py:64-309 | in every interleaving: in_use holds exactly for held connections and no connection has two holders, at all times, if and only if no client gives back a connection whose key has gone to another one in use |
| ConnectionPool.NextOrderly | common/OpTestConnectionManager.py:64-309 | each step keeps the ids apart, and keeps that order exactly if it is not such a stray release |
| ConnectionPool.DisciplinedRunsAreOrderly | common/OpTestConnectionManager.py:64-309 | if no key is requested while held: no step is stray, the pool is orderly, nothing is displaced, and until a shutdown every held connection stays pooled and in use under its key, whatever monitor and requests clean up |
| ConnectionPool.MonitorSparesHeld | common/OpTestConnectionManager.py:264-353 | in an orderly world neither the monitor nor a request for another key closes or changes a held connection |
| ConnectionPool.HeldLeavesExactly | common/OpTestConnectionManager.py:168-309 | the exact steps that close or displace a held connection: a request for its key that finds it unusable or is answered, a discard by any client whose key it is, a shutdown |
| ConnectionPool.HeldStayPooledExactly | common/OpTestConnectionManager.py:64-309 | in every interleaving: every held connection is pooled under its key, in use and with one holder, at all times, if and only if no request for a held key is answered or finds it unusable and no shutdown comes while something is held |
| ConnectionPool.RequestWhileHeldSharesConnection | common/OpTestConnectionManager.py:168-237 | without the discipline four steps give two clients the same connection |
| SshRetry.Connection.ConnectTo | common/OpTestSSHConnection.py:137-209 | connect for every sequence of attempt outcomes: state, attempts and sleeping |
| SshRetry.Connection.DisconnectNow | common/OpTestSSHConnection.py:211-237 | disconnect clears a connected object and leaves any other alone |
| SshRetry.Connection.ReconnectNow | common/OpTestSSHConnection.py:264-276 | reconnect: disconnect, then at most three attempts |
| SshRetry.Connection.ExecuteCommand | common/OpTestSSHConnection.py:278-363 | execute_command for every outcome, reconnecting first if the connection is dead |
| SshRetry.Executor.RunCommand | common/OpTestCommandExecutor.py:79-151 | run_command ends as the specified trial, with its executions, connect attempts and sleeping, and history grows by exactly the returned result |
| SshRetry.Executor.RunCommandIgnoreFail | common/OpTestCommandExecutor.py:153-204 | run_command_ignore_fail ends as the specified trial, with its executions and connect attempts, never sleeps itself, and history grows by exactly the returned result |
| SshRetry.FailedConnect | common/OpTestSSHConnection.py:155-209 | a fully failed connect with retry of 1 or more makes retry attempts, sleeps 2^retry - 2 and ends with client, transport and connected cleared |
| SshRetry.SuccessfulConnect | common/OpTestSSHConnection.py:155-191 | a connect that succeeds at attempt j (from zero) has slept 2^(j+1) - 2 |
| SshRetry.ExecuteBound | common/OpTestSSHConnection.py:294-363 | one execution makes at most three connect attempts, succeeds exactly if the command ran and exited acceptably, and every command failure carries code -1 |
| SshRetry.ReconnectExactly | common/OpTestSSHConnection.py:264-276 | a reconnect succeeds exactly if one of three attempts connects before any breaks, fails exactly if all are refused, and how many attempts it makes |
| SshRetry.ExecuteExactly | common/OpTestSSHConnection.py:278-363 | a dead connection is reconnected first; the command runs exactly if there is then a connection, and its outcome decides how the execution ends |
| SshRetry.RunBounds | common/OpTestCommandExecutor.py:96-151 | at most retry+1 executions and 6*retry+3 connect attempts through both layers; the final fallback raises are unreachable |
| SshRetry.ReturnsExactlyOnSuccess | common/OpTestCommandExecutor.py:99-118 | run_command returns exactly if some command that ran exited with 0, which is then the last one and the one returned |
| SshRetry.RunTriesAgain | common/OpTestCommandExecutor.py:96-151 | exactly when run_command makes another execution: one is left, the command ran, and it failed or its lost session could be reconnected; what it sleeps and connects in between, and how it ends otherwise |
| SshRetry.IgnoreTriesAgain | common/OpTestCommandExecutor.py:170-204 | the same for run_command_ignore_fail, which tries again exactly after a lost session, whatever becomes of the reconnect |
| SshRetry.SleepsInFull | common/OpTestCommandExecutor.py:96-143 | every run sleeps at most the full backoff, and exactly that much if and only if it uses all attempts and loses no session before the last |
| SshRetry.BackoffClosedForm | common/OpTestCommandExecutor.py:120-133 | if every attempt ends in a command failure, on any connection, dead or alive, the executor sleeps 2^(retry+1) - 2 for up to four retries and 30(retry-3) from four on; no run sleeps longer |
| SshRetry.IgnoreBounds | common/OpTestCommandExecutor.py:170-204 | the same bounds for run_command_ignore_fail, which returns exactly if some command that ran completed |
| AesReservation.Locker.ReleaseReservation | common/OpTestUtil.py:626-668 | a release without a server error returns the id it was given |
| AesReservation.Locker.CleanUp | common/OpTestUtil.py:403-423 | the AES part of cleanup, whose "unable to verify" branch is unreachable |
| AesReservation.Locker.LockOne | common/OpTestUtil.py:834-873 | aes_lock_env for every state of the environment and every server reply, also one that is lost after the reservation was made |
| AesReservation.Locker.FetchCredentials | common/OpTestUtil.py:883-890 | recording, credentials, the cleanup on a bad server record, and exceptions for a missing group or credentials that cannot be mapped |
| AesReservation.Locker.LockAny | common/OpTestUtil.py:875-919 | aes_lock over all listed environments, through the shared dictionary |
| AesReservation.Locker.Check | common/OpTestUtil.py:332-348 | the locking branch of check_lockers |
| AesReservation.Locker.SetUpLockers | OpTestConfiguration.py:703-742 | the once-a-minute loop: locked, out of time, or another exception |
| AesReservation.LockTakesFirstWilling | common/OpTestUtil.py:875-919 | the environment on record is the first that gave a reservation, or the user's own if it is the only one |
| AesReservation.LockExactly | common/OpTestUtil.py:875-919 | exactly when aes_lock returns with a reservation on record and which one: that of the first environment not passed by, or the user's own if it is the only one, if info, group, server record and mapping are good; and exactly when it ends in "unable to lock" |
| AesReservation.AttemptExactly | common/OpTestUtil.py:332-348 | the same for check_lockers, over the listing |
| AesReservation.SetUpLocksExactly | OpTestConfiguration.py:714-742 | set-up locks exactly if some attempt does after others that were all unable to lock and in time, a minute apart; it is the last one made and its reservation is on record |
| AesReservation.LockKeepsRecord | common/OpTestUtil.py:875-919 | whatever call fails, at most one new reservation is held, and it is on record exactly unless the first environment not passed by loses the answer to its enqueue, or is granted, has a bad server record and its release is answered but not carried out |
| AesReservation.SetUpKeepsRecord | OpTestConfiguration.py:714-742 | through the whole retry loop: at most one reservation is held besides one for every lost answer; whatever is held is on record exactly if no attempt made left one off in these ways; success leaves a reservation on record |
| AesReservation.SetUpForgets | common/OpTestUtil.py:818-825 | a set-up that ends with a reservation held and off the record, never released by any later cleanup |
| AesReservation.SetUpAttempts | OpTestConfiguration.py:703-742 | a locker-wait of w minutes makes at most w + 2 attempts |
| AesReservation.CleanupKeepsRecord | common/OpTestUtil.py:403-423 | a raising cleanup changes nothing; one that does not raise clears the record when keep-lock is off |
| AesReservation.CleanupReleasesExactly | common/OpTestUtil.py:403-423 | with keep-lock off, a cleanup that does not raise leaves none held exactly if none was held or the server carried the release out |
| AesReservation.LaterCleanupsDoNothing | common/OpTestUtil.py:403-416 | once the record is empty every further cleanup leaves reservations alone |
| AesReservation.WholeRunReleases | common/OpTestUtil.py:403-423 | set-up under any failures, failing cleanups, one released cleanup, any more: with keep-lock off nothing stays held exactly if no set-up attempt left a reservation off the record |
| AesReservation.UnconfirmedReleaseLeaks | common/OpTestUtil.py:653-668 | an answered but unexecuted release stays held for good |
| KernelCmdline.SplitJoin | common/OpTestInstallUtil.py:408-422 | splitting a joined token list gives the list back |
| KernelCmdline.StripSpaced | common/OpTestInstallUtil.py:393-406 | the stripped report is the plain join of its tokens |
| KernelCmdline.CheckKernelCmdline | common/OpTestInstallUtil.py:381-406 | the reports are exactly the missing arguments and the present unwanted ones, and are empty if the line cannot be read |
| KernelCmdline.UpdateOrReplaceArg | common/OpTestInstallUtil.py:408-422 | the first setting of the key becomes the argument, later ones go, all else stays; without a setting it is appended |
| KernelCmdline.FoldArgs | common/OpTestInstallUtil.py:460-462 | the loop over the reported arguments folds the rewriter over the line |
| KernelCmdline.UpdateMembers | common/OpTestInstallUtil.py:408-422 | which tokens a rewritten line holds |
| KernelCmdline.UpdatedKeyOnce | common/OpTestInstallUtil.py:408-422 | after the fold every updated key is set exactly once, even if a report of key=value arguments repeats keys; the key of a bare argument is not set at all |
| KernelCmdline.OtherTokensKeepOrder | common/OpTestInstallUtil.py:408-422 | tokens of all other keys survive the fold unchanged and in order |
| KernelCmdline.NothingMissingAfterFold | common/OpTestInstallUtil.py:396-462 | for arguments with pairwise different keys, after the fold the check reports nothing missing on that line |
| KernelCmdline.FoldAgainstOtherLine | common/OpTestInstallUtil.py:431-462 | with the running and the grub line told apart: nothing is missing exactly if the grub line had the arguments the running line had |
| KernelCmdline.NothingMissingExactly | common/OpTestInstallUtil.py:396-462 | the exact condition for key=value arguments that may repeat keys |
| KernelCmdline.RepeatedKeyLosesAValue | common/OpTestInstallUtil.py:408-422 | two values for one key: the first is lost |
| KernelCmdline.SecondFoldChangesNothing | common/OpTestInstallUtil.py:408-462 | for different keys a second fold appends the bare arguments again and does nothing else; so it changes neither tokens nor text exactly if all arguments are key=value |
| KernelCmdline.RewriteGrubLine | common/OpTestInstallUtil.py:431-462 | the grub path end to end, up to the removal of arguments |

## Left out

- HostSystem.System.GotoState: it can only be called for targets that finish; the others run for ever under some environment (EndsExactlyWhenFinishes), so their passes are made by GotoPasses, up to any number.
- OpExpect.Expect: a console that repeats unfinished kernel messages for ever is not modelled, because the list of follow-up reads is finite.
- HostSafety.LifetimeBudget: on an LPAR with a target that need not finish, a `goto_state` in a lifetime stands for its first passes only; BudgetDuringGoto covers all passes of one that never ends.
- AesReservation.SetUpKeepsRecord: the messages of failures after a new reservation are fixed texts and are taken not to contain "unable to lock", whatever environment id they quote.
- WaitForIt.WaitLoop: the five-second timing, the HMC's SMS menu key presses and the unused `ignore` flag are not modelled.
- ConnectionPool.Manager.GetConnection: entries are values in the dictionary instead of objects with a lock of their own; no other code keeps a reference to them, so only aliasing is lost. All clock reads of one call are one instant.
- Regular expression matching, pexpect, paramiko, requests and sockets are outcomes of the environment.
- The PS1, SUDO and LOGIN flags, `previous_state`, `block_setup_term` and the IPMI driver flag do not influence state changes and are not part of this model.
- Whether the NVRAM options have been checked before is part of the environment: the check may raise or not.
- HostLocker, the query, lock and unlock commands of the AES options (they exit the program), and log gathering in `cleanup`.
- Removing kernel arguments by text replacement, and the grubby path.
- The wrappers for HMC, IPMI, OpenBMC, eBMC, ASM and FSP beyond the outcome of their calls.
- Asynchronous and parallel command execution, shell and SFTP channels, and pool statistics.
- Bisection and the test cases.
