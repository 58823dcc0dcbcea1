/** The health evaluator: `supervisor_check`, `process_check` and
    `watchdog_check`. Each check yields an Outcome (a verdict, or the fault
    that escaped it) together with the events it emitted. */
module Health {
  import opened Supervisor
  import opened Events

  /** The processes whose liveness is verified, in the order they are checked. */
  const PROCESSES: seq<string> := ["beacon_rx", "beacon_tx", "update_filter", "upload_seeds"]

  /** The error logged when supervisord itself is not running. */
  const SUPERVISOR_DOWN: string := "supervisord not running"

  /** The error logged for a process that is not running. */
  function NotRunning(name: string): string {
    name + " not running"
  }

  /** A check either returns a boolean verdict or lets a fault escape:
      neither check has a `try`, so an exception from the proxy propagates. */
  datatype Outcome = Verdict(healthy: bool) | Raised(fault: string)

  /** The outcome of a check and the events it emitted, in order. */
  datatype Step = Step(outcome: Outcome, events: seq<Event>) {
    /** This step, preceded by the events `prefix`. */
    function After(prefix: seq<Event>): Step {
      Step(outcome, prefix + events)
    }
  }

  /** Events that only a check can emit: queries and error-log records. */
  predicate Evaluative(t: seq<Event>) {
    forall e :: e in t ==> e.Channel() in {Rpc, ErrorLog}
  }

  // ---------------------------------------------------------------------
  // supervisor_check

  /** `supervisor_check`: one `getState` query, then the verdict. */
  function SupervisorCheck(ask: Oracle): Step {
    match ask(GetState)
    case Fault(m) => Step(Raised(m), [Call(GetState)])
    case Status(state) =>
      if state == RUNNING then Step(Verdict(true), [Call(GetState)])
      else Step(Verdict(false), [Call(GetState), LogError(SUPERVISOR_DOWN)])
  }

  /** `supervisor_check` is true iff the `statename` of `getState` is
      "RUNNING"; it asks nothing else; it logs exactly one error when false
      and none when true; a fault from the query escapes unlogged. */
  lemma SupervisorCheckCorrect(ask: Oracle)
    ensures var s := SupervisorCheck(ask);
      (s.outcome == Verdict(true) <==> IsRunning(ask(GetState)))
      && (s.outcome.Raised? <==> ask(GetState).Fault?)
      && (s.outcome.Raised? ==> s.outcome.fault == ask(GetState).message)
      && Only(s.events, {Rpc}) == [Call(GetState)]
      && Only(s.events, {ErrorLog}) == (if s.outcome == Verdict(false) then [LogError(SUPERVISOR_DOWN)] else [])
      && Evaluative(s.events)
  {
    var s := SupervisorCheck(ask);
    var tail := s.events[1..];
    assert s.events == [Call(GetState)] + tail;
    OnlyAppend([Call(GetState)], tail, {Rpc});
    OnlyAppend([Call(GetState)], tail, {ErrorLog});
    if s.outcome == Verdict(false) {
      assert tail == [LogError(SUPERVISOR_DOWN)];
    } else {
      assert tail == [];
    }
    OnlyNone(tail, {Rpc});
  }

  // ---------------------------------------------------------------------
  // process_check

  /** What `process_check` does when it iterates over `names`: query each in
      turn, stop at the first that is not running (logging its name) or at
      the first fault; true when every one is running. */
  function ProcessScan(ask: Oracle, names: seq<string>): Step
    decreases |names|
  {
    if names == [] then Step(Verdict(true), [])
    else
      var query := ProcessQuery(names[0]);
      match ask(query)
      case Fault(m) => Step(Raised(m), [Call(query)])
      case Status(state) =>
        if state != RUNNING then Step(Verdict(false), [Call(query), LogError(NotRunning(names[0]))])
        else ProcessScan(ask, names[1..]).After([Call(query)])
  }

  /** `process_check`: the `for` loop over the watched processes (PROCESSES
      in the daemon) with its early returns. */
  method ProcessCheck(ask: Oracle, processes: seq<string>) returns (outcome: Outcome, events: seq<Event>)
    ensures Step(outcome, events) == ProcessScan(ask, processes)
  {
    events := [];
    var i := 0;
    while i < |processes|
      invariant 0 <= i <= |processes|
      invariant ProcessScan(ask, processes) == ProcessScan(ask, processes[i..]).After(events)
    {
      ghost var rest := processes[i..];
      var name := processes[i];
      var query := ProcessQuery(name);
      events := events + [Call(query)];
      var reply := ask(query);
      ScanStep(ask, rest);
      if reply.Fault? {
        outcome := Raised(reply.message);
        return;
      }
      if reply.statename != RUNNING {
        events := events + [LogError(NotRunning(name))];
        outcome := Verdict(false);
        return;
      }
      assert rest[1..] == processes[i + 1..];
      assert ProcessScan(ask, rest) == ProcessScan(ask, processes[i + 1..]).After([Call(query)]);
      i := i + 1;
    }
    outcome := Verdict(true);
  }

  /** One step of the scan, unfolded for a non-empty list of names. */
  lemma ScanStep(ask: Oracle, names: seq<string>)
    requires names != []
    ensures var query := ProcessQuery(names[0]);
      ProcessScan(ask, names) ==
        match ask(query)
        case Fault(m) => Step(Raised(m), [Call(query)])
        case Status(state) =>
          if state != RUNNING then Step(Verdict(false), [Call(query), LogError(NotRunning(names[0]))])
          else ProcessScan(ask, names[1..]).After([Call(query)])
  {
  }

  /** The position of the first process in `names` that is not running
      (a fault counts as not running), or `|names|` when all are. */
  function FirstFailure(ask: Oracle, names: seq<string>): (k: nat)
    ensures k <= |names|
    ensures forall j :: 0 <= j < k ==> IsRunning(ask(ProcessQuery(names[j])))
    ensures k < |names| ==> !IsRunning(ask(ProcessQuery(names[k])))
  {
    if names == [] || !IsRunning(ask(ProcessQuery(names[0]))) then 0
    else 1 + FirstFailure(ask, names[1..])
  }

  /** The queries for `names`, in order. */
  function Calls(names: seq<string>): seq<Event> {
    seq(|names|, j requires 0 <= j < |names| => Call(ProcessQuery(names[j])))
  }

  /** A reference description of `process_check`, independent of the loop:
      everything up to and including the first failing process is queried,
      nothing after it; that process alone is logged if it reported a state,
      and its fault escapes if it raised one. */
  function ProcessCheckReference(ask: Oracle, names: seq<string>): Step {
    var k := FirstFailure(ask, names);
    if k == |names| then Step(Verdict(true), Calls(names))
    else
      match ask(ProcessQuery(names[k]))
      case Fault(m) => Step(Raised(m), Calls(names[..k + 1]))
      case Status(_) => Step(Verdict(false), Calls(names[..k + 1]) + [LogError(NotRunning(names[k]))])
  }

  lemma CallsCons(names: seq<string>)
    requires names != []
    ensures Calls(names) == [Call(ProcessQuery(names[0]))] + Calls(names[1..])
  {
  }

  /** The scan agrees with the reference description on every input. */
  lemma {:induction false} ProcessScanMatchesReference(ask: Oracle, names: seq<string>)
    ensures ProcessScan(ask, names) == ProcessCheckReference(ask, names)
  {
    if names != [] {
      var query := ProcessQuery(names[0]);
      if IsRunning(ask(query)) {
        var rest := names[1..];
        ProcessScanMatchesReference(ask, rest);
        var k := FirstFailure(ask, names);
        assert k == 1 + FirstFailure(ask, rest);
        CallsCons(names);
        if k < |names| {
          assert names[..k + 1][1..] == rest[..k];
          CallsCons(names[..k + 1]);
          assert names[k] == rest[k - 1];
        }
      } else {
        assert names[..1] == [names[0]];
        CallsCons(names[..1]);
      }
    }
  }

  lemma CallsChannels(names: seq<string>)
    ensures Only(Calls(names), {Rpc}) == Calls(names)
    ensures Only(Calls(names), {ErrorLog}) == []
    ensures Evaluative(Calls(names))
  {
    OnlyAll(Calls(names), {Rpc});
    OnlyNone(Calls(names), {ErrorLog});
  }

  /** `process_check` returns true iff every listed process reports RUNNING. */
  lemma ProcessCheckVerdict(ask: Oracle, names: seq<string>)
    ensures ProcessScan(ask, names).outcome == Verdict(true)
      <==> forall j :: 0 <= j < |names| ==> IsRunning(ask(ProcessQuery(names[j])))
  {
    ProcessScanMatchesReference(ask, names);
  }

  /** The number of processes `process_check` queries: all of them when all
      are running, otherwise those up to and including the first failure. */
  function Asked(ask: Oracle, names: seq<string>): (n: nat)
    ensures n <= |names|
    ensures n == |names| || (0 < n && !IsRunning(ask(ProcessQuery(names[n - 1]))))
    ensures forall j :: 0 <= j < n - 1 ==> IsRunning(ask(ProcessQuery(names[j])))
  {
    var k := FirstFailure(ask, names);
    if k == |names| then k else k + 1
  }

  /** Processes are queried in declared order, each as "epidose:" + name, and
      no query follows the first reply that is not RUNNING. */
  lemma ProcessCheckQueries(ask: Oracle, names: seq<string>)
    ensures Only(ProcessScan(ask, names).events, {Rpc}) == Calls(names[..Asked(ask, names)])
  {
    ProcessScanMatchesReference(ask, names);
    var k := FirstFailure(ask, names);
    if k == |names| {
      assert names[..k] == names;
      CallsChannels(names);
    } else {
      var asked := Calls(names[..k + 1]);
      CallsChannels(names[..k + 1]);
      OnlyAppend(asked, [LogError(NotRunning(names[k]))], {Rpc});
    }
  }

  /** A false verdict logs exactly one error, naming the first process in
      declared order that reported a state other than RUNNING, whatever the
      later ones report; a true verdict or a fault logs nothing. */
  lemma ProcessCheckLogsFirstFailure(ask: Oracle, names: seq<string>)
    ensures var s := ProcessScan(ask, names);
      var k := FirstFailure(ask, names);
      if s.outcome == Verdict(false) then
        k < |names| && ask(ProcessQuery(names[k])).Status?
        && Only(s.events, {ErrorLog}) == [LogError(NotRunning(names[k]))]
      else
        Only(s.events, {ErrorLog}) == []
  {
    ProcessScanMatchesReference(ask, names);
    var k := FirstFailure(ask, names);
    if k == |names| {
      CallsChannels(names);
    } else {
      var asked := Calls(names[..k + 1]);
      CallsChannels(names[..k + 1]);
      OnlyAppend(asked, [LogError(NotRunning(names[k]))], {ErrorLog});
    }
  }

  /** A fault escapes `process_check` exactly when some query it issued
      raised one; it is then the last event, and nothing was logged. */
  lemma {:induction false} ProcessCheckFault(ask: Oracle, names: seq<string>)
    ensures var s := ProcessScan(ask, names);
      Evaluative(s.events)
      && (s.outcome.Verdict? ==> forall e :: e in s.events && e.Call? ==> ask(e.query).Status?)
      && (s.outcome.Raised? ==>
            s.events != [] && s.events[|s.events| - 1].Call?
            && ask(s.events[|s.events| - 1].query) == Fault(s.outcome.fault)
            && Only(s.events, {ErrorLog}) == [])
    decreases |names|
  {
    if names != [] {
      var query := ProcessQuery(names[0]);
      if IsRunning(ask(query)) {
        var rest := ProcessScan(ask, names[1..]);
        ProcessCheckFault(ask, names[1..]);
        var s := ProcessScan(ask, names);
        assert s.events == [Call(query)] + rest.events;
        if s.outcome.Raised? {
          assert s.events[|s.events| - 1] == rest.events[|rest.events| - 1];
          OnlyAppend([Call(query)], rest.events, {ErrorLog});
        }
      }
    }
  }

  // ---------------------------------------------------------------------
  // watchdog_check

  /** `watchdog_check`: `supervisor_check(proxy) and process_check(proxy)`,
      for the watched processes `processes` (PROCESSES in the daemon). */
  function WatchdogCheck(ask: Oracle, processes: seq<string>): Step {
    var supervisor := SupervisorCheck(ask);
    if supervisor.outcome == Verdict(true) then ProcessScan(ask, processes).After(supervisor.events)
    else supervisor
  }

  /** The verdict is true iff supervisord and every listed process are RUNNING. */
  lemma WatchdogVerdict(ask: Oracle, processes: seq<string>)
    ensures WatchdogCheck(ask, processes).outcome == Verdict(true)
      <==> IsRunning(ask(GetState))
           && forall j :: 0 <= j < |processes| ==> IsRunning(ask(ProcessQuery(processes[j])))
  {
    ProcessCheckVerdict(ask, processes);
  }

  /** When supervisord is not running (or its query faults), the only query
      is `getState`: no process is asked about. */
  lemma WatchdogShortCircuit(ask: Oracle, processes: seq<string>)
    ensures !IsRunning(ask(GetState)) ==> Only(WatchdogCheck(ask, processes).events, {Rpc}) == [Call(GetState)]
    ensures IsRunning(ask(GetState)) ==>
      Only(WatchdogCheck(ask, processes).events, {Rpc}) == [Call(GetState)] + Calls(processes[..Asked(ask, processes)])
  {
    var supervisor := SupervisorCheck(ask);
    SupervisorCheckCorrect(ask);
    if IsRunning(ask(GetState)) {
      var scan := ProcessScan(ask, processes);
      ProcessCheckQueries(ask, processes);
      OnlyAppend(supervisor.events, scan.events, {Rpc});
    }
  }

  /** Every error record names the failing component: at most one is logged,
      and only for a false verdict; it names supervisord when supervisord is
      down, and otherwise the first process that is not running. */
  lemma WatchdogLogs(ask: Oracle, processes: seq<string>)
    ensures var w := WatchdogCheck(ask, processes);
      |Only(w.events, {ErrorLog})| == if w.outcome == Verdict(false) then 1 else 0
    ensures !IsRunning(ask(GetState)) && ask(GetState).Status? ==>
      Only(WatchdogCheck(ask, processes).events, {ErrorLog}) == [LogError(SUPERVISOR_DOWN)]
    ensures var w := WatchdogCheck(ask, processes);
      var k := FirstFailure(ask, processes);
      IsRunning(ask(GetState)) && w.outcome == Verdict(false) ==>
        k < |processes| && Only(w.events, {ErrorLog}) == [LogError(NotRunning(processes[k]))]
  {
    var supervisor := SupervisorCheck(ask);
    SupervisorCheckCorrect(ask);
    if IsRunning(ask(GetState)) {
      var scan := ProcessScan(ask, processes);
      ProcessCheckLogsFirstFailure(ask, processes);
      OnlyAppend(supervisor.events, scan.events, {ErrorLog});
    }
  }

  /** `watchdog_check` only queries and logs. */
  lemma WatchdogEvaluative(ask: Oracle, processes: seq<string>)
    ensures Evaluative(WatchdogCheck(ask, processes).events)
  {
    SupervisorCheckCorrect(ask);
    if IsRunning(ask(GetState)) {
      ProcessCheckFault(ask, processes);
    }
  }

  /** A fault from any query is not caught: it escapes `watchdog_check`
      exactly when some issued query raised it, that query is the last event,
      and nothing was logged. */
  lemma WatchdogFault(ask: Oracle, processes: seq<string>)
    ensures var w := WatchdogCheck(ask, processes);
      Evaluative(w.events)
      && (w.outcome.Verdict? ==> forall e :: e in w.events && e.Call? ==> ask(e.query).Status?)
      && (w.outcome.Raised? ==>
            w.events != [] && w.events[|w.events| - 1].Call?
            && ask(w.events[|w.events| - 1].query) == Fault(w.outcome.fault)
            && Only(w.events, {ErrorLog}) == [])
  {
    var supervisor := SupervisorCheck(ask);
    if IsRunning(ask(GetState)) {
      var scan := ProcessScan(ask, processes);
      ProcessCheckFault(ask, processes);
      var w := WatchdogCheck(ask, processes);
      assert w.events == [Call(GetState)] + scan.events;
      OnlyAppend([Call(GetState)], scan.events, {ErrorLog});
    }
  }
}
