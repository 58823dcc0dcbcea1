/** The observable effects of the watchdog, recorded as a trace: queries put
    to the supervisor, error-log records, writes to the green LED and sleeps. */
module Events {
  import opened Supervisor

  /** Where an event is observed. */
  datatype Channel = Rpc | ErrorLog | Indicator | Clock

  datatype Event =
    | Call(query: Query)        // a query issued to supervisord
    | LogError(message: string) // `logger.error(message)`
    | LedSet(on: bool)          // `green_led_set(on)`
    | Sleep(millis: nat)        // `sleep(millis / 1000)`
  {
    function Channel(): Channel {
      match this
      case Call(_) => Rpc
      case LogError(_) => ErrorLog
      case LedSet(_) => Indicator
      case Sleep(_) => Clock
    }
  }

  /** The events of `t` observed on one of `channels`, in trace order. */
  function Only(t: seq<Event>, channels: set<Channel>): seq<Event> {
    if t == [] then []
    else (if t[0].Channel() in channels then [t[0]] else []) + Only(t[1..], channels)
  }

  /** Filtering distributes over concatenation of traces. */
  lemma {:induction false} OnlyAppend(a: seq<Event>, b: seq<Event>, channels: set<Channel>)
    ensures Only(a + b, channels) == Only(a, channels) + Only(b, channels)
  {
    if a == [] {
      assert a + b == b;
    } else {
      var head := if a[0].Channel() in channels then [a[0]] else [];
      assert (a + b)[0] == a[0];
      assert (a + b)[1..] == a[1..] + b;
      OnlyAppend(a[1..], b, channels);
      calc {
        Only(a + b, channels);
        head + Only(a[1..] + b, channels);
        head + (Only(a[1..], channels) + Only(b, channels));
        (head + Only(a[1..], channels)) + Only(b, channels);
        Only(a, channels) + Only(b, channels);
      }
    }
  }

  /** A trace none of whose events is on `channels` has nothing on them. */
  lemma {:induction false} OnlyNone(t: seq<Event>, channels: set<Channel>)
    requires forall e :: e in t ==> e.Channel() !in channels
    ensures Only(t, channels) == []
  {
    if t != [] {
      assert t[0] in t;
      OnlyNone(t[1..], channels);
    }
  }

  /** A trace all of whose events are on `channels` is kept whole. */
  lemma {:induction false} OnlyAll(t: seq<Event>, channels: set<Channel>)
    requires forall e :: e in t ==> e.Channel() in channels
    ensures Only(t, channels) == t
  {
    if t != [] {
      assert t[0] in t;
      OnlyAll(t[1..], channels);
      assert t == [t[0]] + t[1..];
    }
  }

  /** The filter keeps exactly the events of `t` that are on `channels`. */
  lemma {:induction false} OnlyMembers(t: seq<Event>, channels: set<Channel>)
    ensures forall e :: e in Only(t, channels) <==> e in t && e.Channel() in channels
  {
    if t != [] {
      OnlyMembers(t[1..], channels);
      assert t == [t[0]] + t[1..];
    }
  }
}
