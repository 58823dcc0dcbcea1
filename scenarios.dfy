module Scenarios {
  import opened Supervisor
  import opened Events
  import opened Health
  import opened PollLoop

  /** supervisord and beacon_rx are up, beacon_tx is FATAL, and the query
      for upload_seeds would fail. */
  function LaterFaults(q: Query): Reply {
    if q == ProcessQuery("beacon_tx") then Status("FATAL")
    else if q == ProcessQuery("upload_seeds") then Fault("timeout")
    else Status(RUNNING)
  }

  /** The check stops at beacon_tx, logs it alone, and never reaches
      upload_seeds, whose query would have raised. */
  lemma FirstOfSeveralFailures()
    ensures var w := WatchdogCheck(LaterFaults, PROCESSES);
      w.outcome == Verdict(false)
      && w.events == [Call(GetState), Call(GetProcessInfo("epidose:beacon_rx")),
                      Call(GetProcessInfo("epidose:beacon_tx")), LogError("beacon_tx not running")]
  {
    var ask := LaterFaults;
    ProcessQueryInjective("beacon_rx", "beacon_tx");
    ProcessQueryInjective("beacon_rx", "upload_seeds");
    assert ask(GetState) == Status(RUNNING);
    assert ask(ProcessQuery("beacon_rx")) == Status(RUNNING);
    var tail := PROCESSES[1..];
    assert tail[0] == "beacon_tx";
    assert NotRunning("beacon_tx") == "beacon_tx not running";
    assert ProcessQuery("beacon_tx") == GetProcessInfo("epidose:beacon_tx");
    assert ProcessQuery("beacon_rx") == GetProcessInfo("epidose:beacon_rx");
    ScanStep(ask, tail);
    ScanStep(ask, PROCESSES);
  }

  /** supervisord reports itself STOPPED; every process would answer. */
  function SupervisorStopped(q: Query): Reply {
    if q == GetState then Status("STOPPED") else Status(RUNNING)
  }

  /** No process is queried, one error is logged, the LED stays dark, and
      the loop pauses. */
  lemma StoppedSupervisorIteration()
    ensures Iteration(SupervisorStopped, PROCESSES)
      == Cycle(Continue, [Call(GetState), LogError("supervisord not running"), Sleep(2000)])
  {
  }

  /** Every component answers RUNNING. */
  function AllRunning(q: Query): Reply {
    Status(RUNNING)
  }

  /** All four processes are queried in declared order, nothing is logged,
      and the LED is pulsed once. */
  lemma AllRunningIteration()
    ensures Iteration(AllRunning, PROCESSES)
      == Cycle(Continue, [Call(GetState),
                          Call(GetProcessInfo("epidose:beacon_rx")), Call(GetProcessInfo("epidose:beacon_tx")),
                          Call(GetProcessInfo("epidose:update_filter")), Call(GetProcessInfo("epidose:upload_seeds")),
                          LedSet(true), Sleep(200), LedSet(false), Sleep(2000)])
  {
    var names := PROCESSES;
    ProcessScanMatchesReference(AllRunning, names);
    assert GROUP + names[0] == "epidose:beacon_rx";
    assert GROUP + names[1] == "epidose:beacon_tx";
    assert GROUP + names[2] == "epidose:update_filter";
    assert GROUP + names[3] == "epidose:upload_seeds";
    assert Calls(names) == [Call(GetProcessInfo("epidose:beacon_rx")), Call(GetProcessInfo("epidose:beacon_tx")),
                            Call(GetProcessInfo("epidose:update_filter")), Call(GetProcessInfo("epidose:upload_seeds"))];
  }
}
