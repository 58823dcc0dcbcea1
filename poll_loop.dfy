/** The body of the daemon's `while True` loop: evaluate health, pulse the
    green LED on a healthy verdict, then pause. The loop itself is modelled
    over a finite sequence of polls, one oracle per poll, since supervisord's
    answers may change between polls. */
module PollLoop {
  import opened Supervisor
  import opened Events
  import opened Health

  /** `FLASH_BLINK = 0.2` seconds, in milliseconds. */
  const FLASH_BLINK_MS: nat := 200

  /** `FLASH_PAUSE = 2` seconds, in milliseconds. */
  const FLASH_PAUSE_MS: nat := 2000

  /** How an iteration ends: the loop goes round again, or a fault escaped
      and the daemon terminates. */
  datatype End = Continue | Crash(fault: string)

  /** How an iteration (or a run of them) ends, and the events it produced. */
  datatype Cycle = Cycle(end: End, events: seq<Event>)

  /** What the loop body does once the verdict is known: on a healthy
      verdict, light the LED, hold it for the blink, switch it off; in
      every case, pause. */
  function Signal(healthy: bool): seq<Event> {
    if healthy then [LedSet(true), Sleep(FLASH_BLINK_MS), LedSet(false), Sleep(FLASH_PAUSE_MS)]
    else [Sleep(FLASH_PAUSE_MS)]
  }

  /** The signalling phase writes only to the LED and the clock. */
  lemma SignalChannels(healthy: bool)
    ensures Only(Signal(healthy), {Rpc, ErrorLog}) == []
    ensures Only(Signal(healthy), {Indicator, Clock}) == Signal(healthy)
    ensures Only(Signal(healthy), {Indicator}) == if healthy then [LedSet(true), LedSet(false)] else []
  {
    var s := Signal(healthy);
    OnlyNone(s, {Rpc, ErrorLog});
    OnlyAll(s, {Indicator, Clock});
    var pause := [Sleep(FLASH_PAUSE_MS)];
    assert pause[1..] == [];
    assert Only(pause, {Indicator}) == [];
    if healthy {
      assert s[1..][1..][1..] == pause;
      assert Only(s[1..][1..], {Indicator}) == [LedSet(false)];
      assert Only(s[1..], {Indicator}) == [LedSet(false)];
    }
  }

  /** One pass through the loop body. */
  function Iteration(ask: Oracle, processes: seq<string>): Cycle {
    var check := WatchdogCheck(ask, processes);
    match check.outcome
    case Raised(m) => Cycle(Crash(m), check.events)
    case Verdict(healthy) => Cycle(Continue, check.events + Signal(healthy))
  }

  /** Regrouping a trace; stated as a lemma so that the loop in
      `Watchdog.Poll` takes it as a fact rather than proving it in place. */
  lemma AppendAssociative(a: seq<Event>, b: seq<Event>, c: seq<Event>)
    ensures (a + b) + c == a + (b + c)
  {
  }

  /** The LED writes of `n` healthy iterations: on then off, `n` times. */
  function Pulses(n: nat): seq<Event> {
    if n == 0 then [] else Pulses(n - 1) + [LedSet(true), LedSet(false)]
  }

  lemma {:induction false} PulsesAdd(m: nat, n: nat)
    ensures Pulses(m) + Pulses(n) == Pulses(m + n)
  {
    if n > 0 {
      PulsesAdd(m, n - 1);
      assert Pulses(m) + Pulses(n) == Pulses(m) + Pulses(n - 1) + [LedSet(true), LedSet(false)];
    }
  }

  lemma EvaluativeIsDark(t: seq<Event>)
    requires Evaluative(t)
    ensures Only(t, {Indicator}) == [] && Only(t, {Indicator, Clock}) == []
  {
    OnlyNone(t, {Indicator});
    OnlyNone(t, {Indicator, Clock});
  }

  /** An iteration first evaluates, touching neither the LED nor the clock,
      and then signals, issuing no query and logging nothing: no LED write
      happens before the verdict exists. */
  lemma IterationPhases(ask: Oracle, processes: seq<string>)
    ensures var c := Iteration(ask, processes);
      var w := WatchdogCheck(ask, processes);
      |w.events| <= |c.events| && c.events[..|w.events|] == w.events
      && Only(w.events, {Indicator, Clock}) == []
      && Only(c.events[|w.events|..], {Rpc, ErrorLog}) == []
  {
    var c := Iteration(ask, processes);
    var w := WatchdogCheck(ask, processes);
    WatchdogFault(ask, processes);
    EvaluativeIsDark(w.events);
    if w.outcome.Verdict? {
      var signal := Signal(w.outcome.healthy);
      assert c.events == w.events + signal;
      assert c.events[|w.events|..] == signal;
      SignalChannels(w.outcome.healthy);
    } else {
      assert c.events[|w.events|..] == [];
    }
  }

  /** A healthy verdict yields the indicator and timer events on, blink,
      off, pause; an unhealthy one yields only the pause; a fault yields none. */
  lemma IterationSignals(ask: Oracle, processes: seq<string>)
    ensures var c := Iteration(ask, processes);
      Only(c.events, {Indicator, Clock}) ==
        match WatchdogCheck(ask, processes).outcome
        case Raised(_) => []
        case Verdict(true) => [LedSet(true), Sleep(FLASH_BLINK_MS), LedSet(false), Sleep(FLASH_PAUSE_MS)]
        case Verdict(false) => [Sleep(FLASH_PAUSE_MS)]
    ensures Only(Iteration(ask, processes).events, {Indicator}) ==
      if WatchdogCheck(ask, processes).outcome == Verdict(true) then Pulses(1) else []
  {
    var c := Iteration(ask, processes);
    var w := WatchdogCheck(ask, processes);
    WatchdogFault(ask, processes);
    EvaluativeIsDark(w.events);
    if w.outcome.Verdict? {
      var signal := Signal(w.outcome.healthy);
      assert c.events == w.events + signal;
      OnlyAppend(w.events, signal, {Indicator, Clock});
      OnlyAppend(w.events, signal, {Indicator});
      SignalChannels(w.outcome.healthy);
    }
  }

  /** An iteration crashes exactly when a fault escapes the check; the
      faulting query is then its last event, and nothing is logged, lit or
      slept after it. */
  lemma IterationCrash(ask: Oracle, processes: seq<string>)
    ensures var c := Iteration(ask, processes);
      (c.end.Crash? <==> WatchdogCheck(ask, processes).outcome.Raised?)
      && (c.end.Crash? ==>
            c.events != [] && c.events[|c.events| - 1].Call?
            && ask(c.events[|c.events| - 1].query) == Fault(c.end.fault)
            && Only(c.events, {ErrorLog, Indicator, Clock}) == [])
  {
    var w := WatchdogCheck(ask, processes);
    WatchdogFault(ask, processes);
    if w.outcome.Raised? {
      OnlyMembers(w.events, {ErrorLog});
      OnlyNone(w.events, {ErrorLog, Indicator, Clock});
    }
  }

  /** `|asks|` passes of the loop, stopping at the first crash. */
  function Polls(asks: seq<Oracle>, processes: seq<string>): Cycle
    decreases |asks|
  {
    if asks == [] then Cycle(Continue, [])
    else
      var first := Iteration(asks[0], processes);
      if first.end.Crash? then first
      else
        var rest := Polls(asks[1..], processes);
        Cycle(rest.end, first.events + rest.events)
  }

  /** The first poll of a run, then the rest unless it crashed. */
  lemma PollsUnroll(asks: seq<Oracle>, processes: seq<string>)
    requires asks != []
    ensures var first := Iteration(asks[0], processes);
      var rest := Polls(asks[1..], processes);
      Polls(asks, processes) == if first.end.Crash? then first else Cycle(rest.end, first.events + rest.events)
    ensures HealthyCycles(asks, processes) ==
      match WatchdogCheck(asks[0], processes).outcome
      case Raised(_) => 0
      case Verdict(healthy) => (if healthy then 1 else 0) + HealthyCycles(asks[1..], processes)
  {
  }

  /** The number of healthy verdicts reached before any crash. */
  function HealthyCycles(asks: seq<Oracle>, processes: seq<string>): nat
    decreases |asks|
  {
    if asks == [] then 0
    else
      match WatchdogCheck(asks[0], processes).outcome
      case Raised(_) => 0
      case Verdict(healthy) => (if healthy then 1 else 0) + HealthyCycles(asks[1..], processes)
  }

  /** Over any run the LED sees only whole pulses, one per healthy verdict:
      it is never switched on twice in a row and is off between iterations. */
  lemma {:induction false} PollsIndicator(asks: seq<Oracle>, processes: seq<string>)
    ensures Only(Polls(asks, processes).events, {Indicator}) == Pulses(HealthyCycles(asks, processes))
    decreases |asks|
  {
    if asks != [] {
      var first := Iteration(asks[0], processes);
      IterationSignals(asks[0], processes);
      IterationCrash(asks[0], processes);
      if !first.end.Crash? {
        PollsIndicator(asks[1..], processes);
        OnlyAppend(first.events, Polls(asks[1..], processes).events, {Indicator});
        var h := if WatchdogCheck(asks[0], processes).outcome == Verdict(true) then 1 else 0;
        PulsesAdd(h, HealthyCycles(asks[1..], processes));
      }
    }
  }

  /** A crash ends the run: the polls that would have followed are never made. */
  lemma {:induction false} PollsStopAtCrash(asks: seq<Oracle>, more: seq<Oracle>, processes: seq<string>)
    requires Polls(asks, processes).end.Crash?
    ensures Polls(asks + more, processes) == Polls(asks, processes)
    decreases |asks|
  {
    assert asks != [];
    assert (asks + more)[0] == asks[0];
    if !Iteration(asks[0], processes).end.Crash? {
      assert (asks + more)[1..] == asks[1..] + more;
      PollsStopAtCrash(asks[1..], more, processes);
    }
  }

  /** The position of the first poll whose iteration crashes, or `|asks|`. */
  function CrashAt(asks: seq<Oracle>, processes: seq<string>): (c: nat)
    ensures c <= |asks|
    ensures c < |asks| ==> Iteration(asks[c], processes).end.Crash?
    decreases |asks|
  {
    if asks == [] || Iteration(asks[0], processes).end.Crash? then 0
    else 1 + CrashAt(asks[1..], processes)
  }

  /** Every poll before the first crash goes round normally. */
  lemma {:induction false} BeforeCrash(asks: seq<Oracle>, processes: seq<string>, j: nat)
    requires j < CrashAt(asks, processes)
    ensures Iteration(asks[j], processes).end == Continue
    decreases |asks|
  {
    if j > 0 {
      BeforeCrash(asks[1..], processes, j - 1);
      assert asks[1..][j - 1] == asks[j];
    }
  }

  /** A run crashes exactly when one of its iterations does, and it ends
      the way the first such iteration ends. */
  lemma {:induction false} PollsCrashCause(asks: seq<Oracle>, processes: seq<string>)
    ensures var c := CrashAt(asks, processes);
      (Polls(asks, processes).end.Crash? <==> c < |asks|)
      && (c < |asks| ==> Polls(asks, processes).end == Iteration(asks[c], processes).end)
    decreases |asks|
  {
    if asks != [] && !Iteration(asks[0], processes).end.Crash? {
      var rest := asks[1..];
      PollsCrashCause(rest, processes);
      var c := CrashAt(asks, processes);
      if c < |asks| {
        assert asks[c] == rest[c - 1];
      }
    }
  }

  /** The daemon after `setup_leds()`: the trace of everything it has done,
      and the LED, which it writes and never reads. */
  class Watchdog {
    /** The processes to verify. */
    const processes: seq<string>
    var trace: seq<Event>
    var led: bool
    ghost var pulses: nat

    /** Between iterations the LED is off, and it has seen whole pulses only. */
    ghost predicate Valid()
      reads this
    {
      !led && Only(trace, {Indicator}) == Pulses(pulses)
    }

    /** The state `setup_leds()` leaves: nothing done yet, LED off. */
    constructor ()
      ensures Valid() && processes == PROCESSES && trace == [] && pulses == 0
    {
      processes := PROCESSES;
      trace := [];
      led := false;
      pulses := 0;
    }

    /** `green_led_set(on)`. */
    method GreenLedSet(on: bool)
      modifies this
      ensures led == on && trace == old(trace) + [LedSet(on)] && pulses == old(pulses)
    {
      led := on;
      trace := trace + [LedSet(on)];
    }

    /** `sleep(millis / 1000)`. */
    method Wait(millis: nat)
      modifies this
      ensures trace == old(trace) + [Sleep(millis)] && led == old(led) && pulses == old(pulses)
    {
      trace := trace + [Sleep(millis)];
    }

    /** `watchdog_check(proxy)`, its queries and error records appended to
        the trace; the LED is not touched. */
    method Check(ask: Oracle) returns (outcome: Outcome)
      requires Valid()
      modifies this
      ensures Valid() && pulses == old(pulses)
      ensures trace == old(trace) + WatchdogCheck(ask, processes).events
      ensures outcome == WatchdogCheck(ask, processes).outcome
    {
      ghost var start := trace;
      ghost var check := WatchdogCheck(ask, processes);
      WatchdogEvaluative(ask, processes);
      EvaluativeIsDark(check.events);
      OnlyAppend(start, check.events, {Indicator});
      var supervisor := SupervisorCheck(ask);
      trace := trace + supervisor.events;
      outcome := supervisor.outcome;
      if outcome == Verdict(true) {
        var events;
        outcome, events := ProcessCheck(ask, processes);
        trace := trace + events;
        assert (start + supervisor.events) + events == start + (supervisor.events + events);
      }
    }

    /** The rest of the loop body once the verdict is known: a pulse of the
        LED when healthy, then the pause. */
    method Flash(healthy: bool)
      requires Valid()
      modifies this
      ensures Valid() && pulses == old(pulses) + (if healthy then 1 else 0)
      ensures trace == old(trace) + Signal(healthy)
    {
      ghost var start := trace;
      if healthy {
        GreenLedSet(true);
        Wait(FLASH_BLINK_MS);
        assert trace == start + [LedSet(true), Sleep(FLASH_BLINK_MS)];
        GreenLedSet(false);
        assert trace == start + [LedSet(true), Sleep(FLASH_BLINK_MS), LedSet(false)];
        pulses := pulses + 1;
      }
      Wait(FLASH_PAUSE_MS);
      assert trace == start + Signal(healthy);
      OnlyAppend(start, Signal(healthy), {Indicator});
      SignalChannels(healthy);
    }

    /** One pass through the loop body; a `Crash` result is the exception
        that escapes `main`. */
    method Iterate(ask: Oracle) returns (end: End)
      requires Valid()
      modifies this
      ensures Valid()
      ensures trace == old(trace) + Iteration(ask, processes).events && end == Iteration(ask, processes).end
      ensures pulses == old(pulses) + if WatchdogCheck(ask, processes).outcome == Verdict(true) then 1 else 0
    {
      var outcome := Check(ask);
      if outcome.Raised? {
        return Crash(outcome.fault);
      }
      Flash(outcome.healthy);
      assert (old(trace) + WatchdogCheck(ask, processes).events) + Signal(outcome.healthy)
        == old(trace) + (WatchdogCheck(ask, processes).events + Signal(outcome.healthy));
      end := Continue;
    }

    /** `|asks|` passes of the `while True` loop, ending early on a crash. */
    method Poll(asks: seq<Oracle>) returns (end: End)
      requires Valid()
      modifies this
      ensures Valid()
      ensures trace == old(trace) + Polls(asks, processes).events && end == Polls(asks, processes).end
      ensures pulses == old(pulses) + HealthyCycles(asks, processes)
    {
      var i := 0;
      ghost var done: seq<Event> := [];
      ghost var healthy: nat := 0;
      while i < |asks|
        invariant 0 <= i <= |asks| && Valid()
        invariant trace == old(trace) + done && pulses == old(pulses) + healthy
        invariant Polls(asks, processes) == Cycle(Polls(asks[i..], processes).end, done + Polls(asks[i..], processes).events)
        invariant HealthyCycles(asks, processes) == healthy + HealthyCycles(asks[i..], processes)
      {
        ghost var rest, cycle := asks[i..], Iteration(asks[i], processes);
        assert rest[0] == asks[i] && rest[1..] == asks[i + 1..];
        PollsUnroll(rest, processes);
        end := Iterate(asks[i]);
        AppendAssociative(old(trace), done, cycle.events);
        if end.Crash? {
          return;
        }
        AppendAssociative(done, cycle.events, Polls(asks[i + 1..], processes).events);
        done := done + cycle.events;
        healthy := healthy + if WatchdogCheck(asks[i], processes).outcome == Verdict(true) then 1 else 0;
        i := i + 1;
      }
      assert asks[i..] == [];
      end := Continue;
    }
  }
}
