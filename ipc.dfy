/** The typed channel between orchestrator and worker (src/ipc.rs). The
    framing and the codec are not modelled: a channel is an in-order stream of
    receive outcomes, each available from some clock reading, and a sending
    half that accepts a number of messages before the pipe breaks. */
module Ipc {
  import opened Common

  /** Which end of the named pipe a channel sits on. */
  datatype End = ServerEnd | ClientEnd

  /** A connected channel on `pipe` that receives `Source` values and sends
      `Sink` values. */
  datatype Channel<Source, Sink> = Channel(pipe: string, end: End)

  /** A created first-instance pipe server that has not yet accepted its
      client. */
  datatype PipeServer<Source, Sink> = PipeServer(pipe: string)

  /** One poll of the receiving half: a message, a transport or decode error,
      or the end of the stream. */
  datatype Recv<M> = Msg(msg: M) | Broken(error: IoError) | Closed

  /** A receive outcome and the clock reading (ms) from which it is available. */
  datatype Arrival<M> = Arrival(at: int, item: Recv<M>)

  /** The sending half: the peer accepts `capacity` messages (all of them when
      None), after which every send fails with `failure`. */
  datatype Link = Link(capacity: Option<nat>, failure: IoError) {
    predicate Delivers(k: nat) {
      capacity.None? || k < capacity.value
    }
  }

  /** `Protocol::server`: the server side receives the client's messages and
      sends its own. `created` is the outcome of creating the first-instance
      pipe. */
  function ProtocolServer<ServerMsg, ClientMsg>(pipeName: string, created: Result<(), IoError>)
    : (r: Result<PipeServer<ClientMsg, ServerMsg>, IoError>)
    ensures r.Ok? <==> created.Ok?
    ensures r.Ok? ==> r.value.pipe == pipeName
    ensures created.Err? ==> r.error == created.error
  {
    match created
    case Ok(_) => Ok(PipeServer(pipeName))
    case Err(e) => Err(e)
  }

  /** `Server::connect`: accepting the client turns the pipe server into the
      one server-end channel on the same pipe, with the same message types. */
  function Connect<Source, Sink>(server: PipeServer<Source, Sink>, accepted: Result<(), IoError>)
    : (r: Result<Channel<Source, Sink>, IoError>)
    ensures r.Ok? <==> accepted.Ok?
    ensures r.Ok? ==> r.value.pipe == server.pipe && r.value.end == ServerEnd
    ensures accepted.Err? ==> r.error == accepted.error
  {
    match accepted
    case Ok(_) => Ok(Channel(server.pipe, ServerEnd))
    case Err(e) => Err(e)
  }

  // ---------------------------------------------------------------------
  // Bounded retry-connect

  const ERROR_PIPE_BUSY: int := 231
  const POLL_PERIOD_MS: nat := 50

  /** What one attempt to open the pipe as a client reports. */
  datatype OpenOutcome = Opened | OpenFailed(code: int)

  predicate Busy(o: OpenOutcome) {
    o == OpenFailed(ERROR_PIPE_BUSY)
  }

  /** `client_connect` (reached through `Protocol::client`): sleep 50 ms, try
      to open, retry only while the pipe is busy, all within `timeout` ms.
      `open(k)` is what the k-th attempt reports. The client side receives
      the server's messages and sends its own. */
  method ClientConnect<ServerMsg, ClientMsg>(pipeName: string, timeout: nat, open: nat -> OpenOutcome)
    returns (r: Result<Channel<ServerMsg, ClientMsg>, IoError>, attempts: nat)
    ensures attempts * POLL_PERIOD_MS <= timeout
    ensures attempts <= timeout / POLL_PERIOD_MS
    ensures forall k :: 0 <= k < attempts - 1 ==> Busy(open(k))
    ensures r.Ok? <==> attempts > 0 && open(attempts - 1) == Opened
    ensures r.Ok? ==> r.value == Channel(pipeName, ClientEnd)
    ensures r.Err? && r.error != ELAPSED ==>
      attempts > 0 && r.error == Os(open(attempts - 1).code) && open(attempts - 1).OpenFailed? && !Busy(open(attempts - 1))
    ensures r == Err(ELAPSED) <==>
      (forall k :: 0 <= k < attempts ==> Busy(open(k))) && (attempts + 1) * POLL_PERIOD_MS > timeout
  {
    var now := 0;
    attempts := 0;
    while now + POLL_PERIOD_MS <= timeout
      invariant now == attempts * POLL_PERIOD_MS <= timeout
      invariant forall k :: 0 <= k < attempts ==> Busy(open(k))
      decreases timeout - now
    {
      now := now + POLL_PERIOD_MS;
      var outcome := open(attempts);
      attempts := attempts + 1;
      match outcome
      case Opened =>
        return Ok(Channel(pipeName, ClientEnd)), attempts;
      case OpenFailed(code) =>
        if code != ERROR_PIPE_BUSY {
          return Err(Os(code)), attempts;
        }
    }
    r := Err(ELAPSED);
  }
}
