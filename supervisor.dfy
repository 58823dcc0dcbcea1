/** The two queries the watchdog puts to supervisord over its XML-RPC proxy,
    and the replies it can get back. The proxy itself, its Unix-socket
    transport and its wire format are abstracted into an Oracle: a total
    function from a query to the reply the supervisor would give. */
module Supervisor {

  /** `supervisor.getState()` and `supervisor.getProcessInfo(name)`. */
  datatype Query = GetState | GetProcessInfo(name: string)

  /** A reply carries the `statename` field of the returned record, or the
      exception the call raised (transport failure, XML-RPC fault, a record
      without a `statename` key). */
  datatype Reply = Status(statename: string) | Fault(message: string)

  /** What the supervisor answers to each query during one poll. */
  type Oracle = Query -> Reply

  /** The only state name that counts as healthy. */
  const RUNNING: string := "RUNNING"

  /** Every watched process lives in supervisord's `epidose` group. */
  const GROUP: string := "epidose:"

  predicate IsRunning(reply: Reply) {
    reply.Status? && reply.statename == RUNNING
  }

  /** The query issued for a short process name: `getProcessInfo("epidose:" + name)`. */
  function ProcessQuery(name: string): Query {
    GetProcessInfo(GROUP + name)
  }

  /** Distinct process names are asked about under distinct queries, so a
      trace of queries identifies the processes that were checked. */
  lemma ProcessQueryInjective(a: string, b: string)
    ensures ProcessQuery(a) == ProcessQuery(b) <==> a == b
  {
    if ProcessQuery(a) == ProcessQuery(b) {
      assert a == (GROUP + a)[|GROUP|..];
      assert b == (GROUP + b)[|GROUP|..];
    }
  }
}
