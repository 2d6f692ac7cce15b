/** The process-wide lazy database connection of `connectToDatabase`: a cached
    connection `conn` and a cached connection attempt `promise`. Calls are
    modelled one after another; interleaving of awaits across callers is not. */
module Mongo {
  import opened Wrappers

  datatype Connection = Connection(id: nat)

  /** A connection attempt started by `mongoose.connect`, with the way it settles. */
  datatype Attempt = Resolves(conn: Connection) | Rejects

  datatype CacheState = CacheState(conn: Option<Connection>, promise: Option<Attempt>)

  /** `global.mongoose = global.mongoose || { conn: null, promise: null }`. */
  const Initial: CacheState := CacheState(None, None)

  /** The error `connectToDatabase` throws when the awaited attempt rejects. */
  const FailureMessage: string := "Failed to connect to MongoDB"

  datatype ConnectResult = Connected(conn: Connection) | Failed(message: string)

  /** A cached connection is always the value the cached attempt resolved to. */
  predicate Coherent(s: CacheState)
  {
    s.conn.Some? ==> s.promise == Some(Resolves(s.conn.value))
  }

  /** One call: the state afterwards, what the caller gets, and whether a new
      connection attempt was started. */
  datatype StepResult = StepResult(next: CacheState, result: ConnectResult, started: bool)

  /** One call of `connectToDatabase`, where `offered` is the attempt that
      `mongoose.connect` would start if the call needs one. */
  function Step(s: CacheState, offered: Attempt): (o: StepResult)
    requires Coherent(s)
    ensures Coherent(o.next)
    // a cached connection short-circuits and nothing changes
    ensures s.conn.Some? ==> o == StepResult(s, Connected(s.conn.value), false)
    // exactly one attempt is started, and only when neither field is set
    ensures o.started <==> s.conn.None? && s.promise.None?
    // a pending attempt is joined, not replaced
    ensures s.conn.None? && s.promise.Some? ==> o.next.promise.None? || o.next.promise == s.promise
    // success caches the connection it returns
    ensures o.result.Connected? ==> o.next.conn == Some(o.result.conn)
    ensures s.conn.None? && o.result.Connected? ==>
              (if s.promise.Some? then s.promise.value else offered) == Resolves(o.result.conn)
    // failure clears the attempt so that the next call retries, and conn stays unset
    ensures o.result.Failed? <==> s.conn.None? && (if s.promise.Some? then s.promise.value else offered).Rejects?
    ensures o.result.Failed? ==> o.next == Initial && o.result.message == FailureMessage
  {
    if s.conn.Some? then StepResult(s, Connected(s.conn.value), false)
    else
      var awaited := if s.promise.Some? then s.promise.value else offered;
      match awaited
      case Resolves(c) => StepResult(CacheState(Some(c), Some(awaited)), Connected(c), s.promise.None?)
      case Rejects => StepResult(Initial, Failed(FailureMessage), s.promise.None?)
  }

  /** The outcome of a sequence of calls. */
  datatype RunResult = RunResult(final: CacheState, results: seq<ConnectResult>, started: nat)

  /** Consecutive calls from state `s`; `offered[i]` is the attempt the i-th call would start. */
  function Run(s: CacheState, offered: seq<Attempt>): (o: RunResult)
    requires Coherent(s)
    ensures Coherent(o.final) && |o.results| == |offered|
    decreases |offered|
  {
    if offered == [] then RunResult(s, [], 0)
    else
      var first := Step(s, offered[0]);
      var rest := Run(first.next, offered[1..]);
      RunResult(rest.final, [first.result] + rest.results, rest.started + if first.started then 1 else 0)
  }

  /** Once a connection is cached, every later call returns it, starts nothing
      and leaves the cache as it is. */
  lemma {:induction false} ConnectionIsNeverCleared(s: CacheState, offered: seq<Attempt>)
    requires Coherent(s) && s.conn.Some?
    ensures Run(s, offered).final == s && Run(s, offered).started == 0
    ensures forall i :: 0 <= i < |offered| ==> Run(s, offered).results[i] == Connected(s.conn.value)
  {
    if offered != [] {
      ConnectionIsNeverCleared(s, offered[1..]);
    }
  }

  /** The position of the first attempt that would resolve. */
  function FirstResolving(offered: seq<Attempt>): (k: Option<nat>)
    ensures k.Some? ==> k.value < |offered| && offered[k.value].Resolves?
    ensures k.Some? ==> forall i :: 0 <= i < k.value ==> offered[i].Rejects?
    ensures k.None? ==> forall i :: 0 <= i < |offered| ==> offered[i].Rejects?
  {
    if offered == [] then None
    else if offered[0].Resolves? then Some(0)
    else match FirstResolving(offered[1..])
      case None => None
      case Some(k) => Some(k + 1)
  }

  /** From the initial state, every failed attempt is retried with a new one, and
      the first attempt that resolves is the last one ever started: calls before it
      fail, it and every later call return its connection. */
  lemma {:induction false} RetriesUntilFirstSuccess(offered: seq<Attempt>)
    ensures var o := Run(Initial, offered);
      match FirstResolving(offered)
      case None =>
        o.final == Initial && o.started == |offered| &&
        forall i :: 0 <= i < |offered| ==> o.results[i] == Failed(FailureMessage)
      case Some(k) =>
        o.started == k + 1 && o.final.conn == Some(offered[k].conn) &&
        (forall i :: 0 <= i < k ==> o.results[i] == Failed(FailureMessage)) &&
        (forall i :: k <= i < |offered| ==> o.results[i] == Connected(offered[k].conn))
  {
    if offered != [] {
      var first := Step(Initial, offered[0]);
      if offered[0].Resolves? {
        ConnectionIsNeverCleared(first.next, offered[1..]);
      } else {
        RetriesUntilFirstSuccess(offered[1..]);
      }
    }
  }

  /** The global `{conn, promise}` record that `connectToDatabase` updates in place. */
  class ConnectionCache {
    var conn: Option<Connection>
    var promise: Option<Attempt>

    function State(): CacheState
      reads this
    {
      CacheState(conn, promise)
    }

    ghost predicate Valid()
      reads this
    {
      Coherent(State())
    }

    constructor ()
      ensures Valid() && State() == Initial
    {
      conn := None;
      promise := None;
    }

    /** `connectToDatabase()`, with `offered` the attempt `mongoose.connect` would start. */
    method Connect(offered: Attempt) returns (r: ConnectResult, started: bool)
      requires Valid()
      modifies this
      ensures Valid()
      ensures Step(old(State()), offered) == StepResult(State(), r, started)
      ensures old(conn).Some? ==> conn == old(conn)
    {
      if conn.Some? {
        return Connected(conn.value), false;
      }
      started := promise.None?;
      if promise.None? {
        promise := Some(offered);
      }
      match promise.value
      case Resolves(c) =>
        conn := Some(c);
        r := Connected(c);
      case Rejects =>
        promise := None;
        r := Failed(FailureMessage);
    }
  }
}
