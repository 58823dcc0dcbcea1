# epidose device watchdog, modelled in Dafny

This project models the health-check daemon of the epidose contact-tracing
device (`epidose/device/watchdog_d.py`). The daemon asks supervisord over
XML-RPC whether supervisord itself is `RUNNING`. If it is, the daemon then asks
the same of each watched process, `beacon_rx`, `beacon_tx`, `update_filter`
and `upload_seeds`, in that order, each under the group name
`epidose:<name>`, stopping at the first that is not `RUNNING`. When a
component reports a state other than `RUNNING`, it logs one error naming the
first such component. On a healthy verdict it
pulses the green LED (on, 0.2 s, off). Every poll that does not crash ends
with a 2 s pause. A fault raised by any query is never caught, so it ends the
daemon.

The supervisor proxy is an `Oracle`, a total function from a query
(`GetState`, `GetProcessInfo(name)`) to a reply (`Status(statename)` or
`Fault(message)`). Everything the daemon does that an observer could see is
recorded as a trace of events:

- queries issued (`Call`);
- error-log records (`LogError`);
- LED writes (`LedSet`);
- sleeps in milliseconds (`Sleep`).

`Only(t, channels)` filters a trace down to one kind of effect, so each
property can be stated about the part of the trace it concerns.

Files:

- `supervisor.dfy` (module `Supervisor`): queries, replies, the oracle, and
  the `epidose:` naming of process queries.
- `events.dfy` (module `Events`): trace events, their channels, and the
  filter `Only` with its algebra.
- `health.dfy` (module `Health`): the health evaluator.
  - `supervisor_check` and `watchdog_check` are the functions
    `SupervisorCheck` and `WatchdogCheck`.
  - `process_check` is an imperative method, `ProcessCheck`, with a `while`
    loop and early returns. It is proved equal to the recursive
    specification `ProcessScan`. `ProcessScan` is in turn proved equal to a
    closed-form reference, `ProcessCheckReference`, built from the index of
    the first failing process.
- `poll_loop.dfy` (module `PollLoop`): the body of `main`'s `while True` loop.
  - `Iteration` is one pass; `Polls` is a run of passes, one oracle per
    pass.
  - The class `Watchdog` is the running daemon. Its trace and LED are
    updated in place by `Check`, `Flash`, `Iterate` and `Poll`.
  - Each method is proved to append exactly the events of the specification
    functions.
  - Each method keeps the invariant that the LED is off between iterations
    and has only seen whole on/off pulses.
- `scenarios.dfy` (module `Scenarios`): three concrete runs over the daemon's
  own process list.

The daemon queries processes one at a time and stops at the first that is not
running, so later processes are never queried (`Health.ProcessCheckQueries`).

## Model

| member | source | states |
|---|---|---|
| `Supervisor.ProcessQuery` | epidose/device/watchdog_d.py:76 | the query `getProcessInfo("epidose:" + name)`; no contract of its own, its property is stated by `ProcessQueryInjective` |
| `Health.NotRunning` | epidose/device/watchdog_d.py:77 | the message `"<name> not running"`; no contract of its own, it is the logged text in `ProcessCheckLogsFirstFailure`, `WatchdogLogs` and the scenarios |
| `Health.SupervisorCheck` | epidose/device/watchdog_d.py:62-70 | `supervisor_check`; no contract of its own, its properties are stated by `SupervisorCheckCorrect` |
| `Health.ProcessScan` | epidose/device/watchdog_d.py:73-79 | `process_check` as a recursive specification; no contract of its own, its properties are stated by `ProcessScanMatchesReference`, `ProcessCheckVerdict`, `ProcessCheckQueries`, `ProcessCheckLogsFirstFailure` and `ProcessCheckFault`, and `ProcessCheck` is proved equal to it |
| `Health.WatchdogCheck` | epidose/device/watchdog_d.py:82-84 | `watchdog_check`; no contract of its own, its properties are stated by `WatchdogVerdict`, `WatchdogShortCircuit`, `WatchdogLogs`, `WatchdogEvaluative` and `WatchdogFault` |
| `PollLoop.Signal` | epidose/device/watchdog_d.py:115-119 | the events after the verdict; no contract of its own, its properties are stated by `SignalChannels`, and `Watchdog.Flash` is proved to produce it |
| `PollLoop.Iteration` | epidose/device/watchdog_d.py:114-119 | one pass of the loop body; no contract of its own, its properties are stated by `IterationPhases`, `IterationSignals` and `IterationCrash`, and `Watchdog.Iterate` is proved to produce it |
| `PollLoop.Polls` | epidose/device/watchdog_d.py:114-119 | a run of passes of the `while True` loop; no contract of its own, its properties are stated by `PollsIndicator`, `PollsStopAtCrash` and `PollsCrashCause`, and `Watchdog.Poll` is proved to produce it |
| `Supervisor.ProcessQueryInjective` | epidose/device/watchdog_d.py:76 | distinct process names give distinct `getProcessInfo("epidose:" + name)` queries, and conversely |
| `Health.SupervisorCheckCorrect` | epidose/device/watchdog_d.py:62-70 | `supervisor_check` is true iff `getState` reports `RUNNING`; a fault from `getState` escapes with its message; exactly one query, `getState`, is issued; exactly one error ("supervisord not running") is logged when false, none otherwise |
| `Health.ProcessCheck` | epidose/device/watchdog_d.py:73-79 | the loop with its early returns produces the same outcome and the same events, in order, as the scan specification |
| `Health.FirstFailure` | epidose/device/watchdog_d.py:75-78 | the index of the first process not reporting `RUNNING`: every process before it is running, and the process at it (if any) is not |
| `Health.ProcessScanMatchesReference` | epidose/device/watchdog_d.py:73-79 | the scan equals the reference: all processes queried and true if all run; otherwise queries up to and including the first failure, then either its fault escapes or it alone is logged and the result is false |
| `Health.ProcessCheckVerdict` | epidose/device/watchdog_d.py:73-79 | `process_check` returns true iff every listed process reports `RUNNING` |
| `Health.Asked` | epidose/device/watchdog_d.py:75-78 | the number of processes queried: every process before the last one counted is running, and the count stops at the first that is not, or covers the whole list when all are |
| `Health.ProcessCheckQueries` | epidose/device/watchdog_d.py:75-78 | the queries issued are exactly `epidose:<name>` for the listed names in declared order, up to and including the first failure, and none after it |
| `Health.ProcessCheckLogsFirstFailure` | epidose/device/watchdog_d.py:76-78 | a false result logs exactly one error, `"<name> not running"` for the first failing process in declared order, whatever later ones report; a true result or a fault logs nothing |
| `Health.ProcessCheckFault` | epidose/device/watchdog_d.py:73-79 | the check only queries and logs; on a verdict every query got a state; when a fault escapes, the query that raised it is the last event and nothing was logged |
| `Health.WatchdogVerdict` | epidose/device/watchdog_d.py:82-84 | `watchdog_check` is true iff supervisord and every listed process report `RUNNING` |
| `Health.WatchdogShortCircuit` | epidose/device/watchdog_d.py:82-84 | if supervisord is not running, `getState` is the only query, and no process is asked about; otherwise `getState` is followed by exactly the process queries of `process_check` |
| `Health.WatchdogLogs` | epidose/device/watchdog_d.py:62-84 | one error is logged for a false verdict and none for a true verdict or a fault; a non-running supervisord logs exactly "supervisord not running"; with supervisord running, a false verdict logs exactly `"<name> not running"` for the first failing process |
| `Health.WatchdogEvaluative` | epidose/device/watchdog_d.py:62-84 | `watchdog_check` only queries and logs; it never touches the LED or sleeps |
| `Health.WatchdogFault` | epidose/device/watchdog_d.py:62-84 | no fault is caught: when one escapes `watchdog_check`, the query that raised it is the last event and nothing was logged; on a verdict every query got a state |
| `PollLoop.SignalChannels` | epidose/device/watchdog_d.py:115-119 | the signalling part of an iteration writes only to the LED and the clock; its LED writes are on then off when healthy, and none otherwise |
| `PollLoop.IterationPhases` | epidose/device/watchdog_d.py:114-119 | an iteration starts with all of the check's events, which touch neither LED nor clock, and issues no query and logs nothing after them |
| `PollLoop.IterationSignals` | epidose/device/watchdog_d.py:114-119 | a healthy verdict yields LED on, 200 ms sleep, LED off, 2000 ms sleep; an unhealthy one yields only the 2000 ms sleep; a fault yields no LED or sleep event |
| `PollLoop.IterationCrash` | epidose/device/watchdog_d.py:114-115 | an iteration crashes exactly when a fault escapes the check; the faulting query is then its last event, and nothing is logged, lit or slept |
| `PollLoop.PollsIndicator` | epidose/device/watchdog_d.py:114-119 | over any run, the LED sees exactly one on/off pulse per healthy verdict before the first crash, and nothing else |
| `PollLoop.PollsStopAtCrash` | epidose/device/watchdog_d.py:114-115 | once an iteration crashes, no later poll ever happens: extending the run changes nothing |
| `PollLoop.CrashAt` | epidose/device/watchdog_d.py:114-115 | the poll at the index crashes when the index is within the run; together with `BeforeCrash`, which proves every earlier poll goes round, it is the index of the first crashing poll, or the run length when none crashes |
| `PollLoop.BeforeCrash` | epidose/device/watchdog_d.py:114-115 | every poll before the first crashing one goes round normally |
| `PollLoop.PollsCrashCause` | epidose/device/watchdog_d.py:114-115 | a run crashes iff one of its iterations does, and it ends with the fault of the first one that does |
| `PollLoop.Watchdog.constructor` | epidose/device/watchdog_d.py:113 | after `setup_leds()` the LED is off, nothing has happened yet, and the watched processes are `PROCESSES` |
| `PollLoop.Watchdog.GreenLedSet` | epidose/device/watchdog_d.py:116 | `green_led_set(on)` sets the LED to `on` and records the write |
| `PollLoop.Watchdog.Wait` | epidose/device/watchdog_d.py:117 | a sleep is recorded and changes nothing else |
| `PollLoop.Watchdog.Check` | epidose/device/watchdog_d.py:115 | running `watchdog_check` appends exactly its events and returns its outcome; the LED invariant is kept |
| `PollLoop.Watchdog.Flash` | epidose/device/watchdog_d.py:115-119 | after the verdict, appends the pulse (if healthy) and the pause, counts one more pulse when healthy, and leaves the LED off |
| `PollLoop.Watchdog.Iterate` | epidose/device/watchdog_d.py:114-119 | one loop pass appends exactly the events of `Iteration`, ends as it does, and leaves the LED off with one more pulse per healthy verdict |
| `PollLoop.Watchdog.Poll` | epidose/device/watchdog_d.py:114-119 | a run of passes appends exactly the events of `Polls`, stops at the first crash, and counts one pulse per healthy verdict |
| `Scenarios.FirstOfSeveralFailures` | epidose/device/watchdog_d.py:73-79 | with `beacon_tx` FATAL and the `upload_seeds` query faulting, the verdict is false, only `beacon_tx` is logged, and `update_filter` and `upload_seeds` are never queried |
| `Scenarios.StoppedSupervisorIteration` | epidose/device/watchdog_d.py:62-70 | with supervisord STOPPED, an iteration queries only `getState`, logs "supervisord not running", and pauses 2000 ms |
| `Scenarios.AllRunningIteration` | epidose/device/watchdog_d.py:34-39 | with everything running, an iteration queries supervisord and the four processes in declared order, then pulses the LED and pauses |

## Left out

- Argument parsing, `Daemon` construction and logger setup (lines 87-107): process bootstrap with no logic in it.
- `UnixStreamHTTPConnection` and `UnixStreamTransport` (lines 47-59), and the XML-RPC wire format: the proxy is an oracle. A reply that has no `statename` key, a transport error and an XML-RPC fault are all one `Fault`.
- `setup_leds` and `green_led_set` come from `epidose.device.device_io`, which is not part of this model. They are modelled as the LED field and `LedSet` events. `setup_leds` is assumed to leave the LED off.
- Real time: `FLASH_BLINK = 0.2` and `FLASH_PAUSE = 2` seconds are `Sleep(200)` and `Sleep(2000)` events in milliseconds.
- The infinite `while True`: the model runs any finite number of passes, each with its own oracle, because supervisord's answers may change between polls. Non-termination itself is not modelled.
- The logger: only `logger.error` is called, and it is a `LogError(message)` event; its severity, formatting and destination are not modelled.
- The watched-process list is a parameter of the evaluator. The daemon object binds it to `PROCESSES` in its constructor, and the scenarios use `PROCESSES` directly.
- Within one poll the oracle gives the same reply to the same query, so a list naming a process twice could not get two different answers. `PROCESSES` names each process once, so no behaviour of the daemon is lost.
- A query that never returns: the oracle always answers, so a supervisord that accepts the connection and never replies, which stalls the daemon with the LED dark since the socket has no timeout, is not modelled.
