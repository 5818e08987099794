/**
 * The objects of the TCP client as the program has them: a connection object
 * whose methods update its fields in place, an inbound queue the receive
 * worker appends to, and the worker thread whose `run` loop reconnects and
 * calls `_run`. Each method is proved to perform the transition of the same
 * name in module ClientSpec.
 */
module TcpClient {
  import opened Wrappers
  import opened Ascii
  import opened ClientSpec

  /** The inbound message queue the receive worker feeds and a consumer drains. */
  class InboundQueue {
    var items: seq<seq<byte>>

    constructor ()
      ensures items == []
    {
      items := [];
    }

    /** `put`: appends one chunk at the tail. */
    method Put(chunk: seq<byte>)
      modifies this
      ensures items == old(items) + [chunk]
    {
      items := items + [chunk];
    }
  }

  /** TcpClientSock: the shared connection object. */
  class TcpClientSock {
    const ip: string
    const port: int
    var connected: bool
    var disconnected: bool
    var sock: Option<Socket>
    var lastError: Option<string>

    /** The fields as one value of the specification's state. */
    function State(): (r: SockState)
      reads this
    {
      SockState(connected, disconnected, sock, lastError)
    }

    predicate Valid()
      reads this
    {
      ClientSpec.Valid(State())
    }

    constructor (ip: string, port: int)
      ensures this.ip == ip && this.port == port
      ensures State() == InitialSock && Valid()
    {
      this.ip := ip;
      this.port := port;
      connected := false;
      disconnected := false;
      sock := None;
      lastError := None;
    }

    /** `connect()`, with the socket's report of the attempt given as `outcome`. */
    method Connect(outcome: ConnectOutcome)
      modifies this
      ensures State() == ConnectSpec(old(State()), outcome)
    {
      if disconnected {
        return;
      }
      match outcome
      case ConnectOk(socket) =>
        sock := Some(socket);
        connected := true;
        lastError := None;
      case ConnectFailed(error) =>
        sock := None;
        connected := false;
        lastError := Some(error);
    }

    /** `disconnect()`: closes the socket, if any, and marks the client disconnected. */
    method Disconnect()
      modifies this
      ensures State() == DisconnectSpec(old(State()))
    {
      sock := None;
      connected := false;
      disconnected := true;
    }
  }

  /**
   * TcpClientThread with its two subclasses: `role` tells TcpClientTxThread
   * from TcpClientRxThread, and `RunOnce` dispatches on it as `_run` does.
   */
  class TcpClientThread {
    const role: Role
    const ip: string
    const port: int
    const tcpClient: TcpClientSock
    const queue: InboundQueue?
    var doExit: bool
    var autoconnect: bool

    /** The worker's fields with the shared connection and queue, as a specification value. */
    function W(): (r: WorkerState)
      reads this, tcpClient, queue
    {
      WorkerState(role, doExit, autoconnect, tcpClient.State(),
                  if queue == null then None else Some(queue.items))
    }

    /**
     * The constructor: uses the given connection object or makes its own for
     * `ip` and `port`, keeps the queue, and turns `autoconnect` on only for the
     * transmit worker.
     */
    constructor (role: Role, ip: string, port: int, shared: TcpClientSock?, queue: InboundQueue?)
      requires shared != null ==> shared.Valid()
      ensures this.role == role && this.ip == ip && this.port == port && this.queue == queue
      ensures !doExit && (autoconnect <==> role == Tx)
      ensures shared != null ==> tcpClient == shared
      ensures shared == null ==>
                fresh(tcpClient) && tcpClient.State() == InitialSock &&
                tcpClient.ip == ip && tcpClient.port == port
      ensures tcpClient.Valid()
    {
      this.role := role;
      this.ip := ip;
      this.port := port;
      this.queue := queue;
      if shared == null {
        tcpClient := new TcpClientSock(ip, port);
      } else {
        tcpClient := shared;
      }
      doExit := false;
      autoconnect := role == Tx;
    }

    /** Sets `_do_exit`, the stop signal another thread gives the worker. */
    method RequestExit()
      modifies this`doExit
      ensures doExit
    {
      doExit := true;
    }

    /** `_run`, with the outcome of the receive (which the transmit worker ignores). */
    method RunOnce(recv: RecvOutcome) returns (ok: bool)
      modifies tcpClient`connected, queue
      ensures (W(), ok) == RunOnceSpec(old(W()), recv)
    {
      if role == Tx {
        return true;
      }
      if !tcpClient.connected {
        return false;
      }
      match recv
      case RecvBrokenPipe =>
        tcpClient.connected := false;
        ok := false;
      case RecvTimeout =>
        ok := true;
      case RecvOsError(_) =>
        tcpClient.connected := false;
        ok := false;
      case Received(data) =>
        if |data| == 0 {
          tcpClient.connected := false;
          return false;
        }
        if queue != null {
          queue.Put(data);
        }
        ok := true;
    }

    /**
     * `send(data)` of the transmit worker, with the socket's report of the
     * write given as `outcome`; `transmitted` is what went to the socket.
     */
    method Send(payload: Payload, outcome: SendOutcome)
      returns (result: Completion<bool, SendError>, transmitted: Option<Transmission>)
      requires role == Tx && tcpClient.Valid()
      modifies tcpClient`connected
      ensures SendSpec(old(tcpClient.State()), payload, outcome) ==
              SendEffect(tcpClient.State(), result, transmitted)
    {
      var encoded := EncodePayload(payload);
      if encoded.Raised? {
        return Raised(encoded.error), None;
      }
      if !tcpClient.connected {
        return Returned(false), None;
      }
      transmitted := Some(Transmission(tcpClient.sock.value, encoded.value));
      match outcome
      case SendOk =>
        result := Returned(true);
      case SendBrokenPipe =>
        tcpClient.connected := false;
        result := Returned(false);
      case SendOsError(error) =>
        result := Raised(SocketError(error));
    }

    /** One pass of the reconnect loop's body: `connect()`, then the stop request of the tick. */
    method ConnectStep(t: Tick)
      modifies this`doExit, tcpClient
      ensures W() == AfterConnect(old(W()), t)
    {
      tcpClient.Connect(t.connect);
      if t.exitRequested {
        doExit := true;
      }
    }

    /** `_run` and its result, then the stop request of the tick. */
    method WorkStep(t: Tick) returns (ok: bool)
      modifies this`doExit, tcpClient`connected, queue
      ensures var (w1, ok1) := RunOnceSpec(old(W()), t.recv);
              W() == AfterTick(w1, t) && ok == ok1
    {
      ok := RunOnce(t.recv);
      if t.exitRequested {
        doExit := true;
      }
    }

    /**
     * `run()`: the outer loop until `_do_exit`, the inner reconnect loop, then
     * one `_run`. Each `connect()` or `_run` consumes one tick of `ticks`, and
     * the loops also end when the ticks run out. `log` lists the actions taken.
     */
    method Run(ticks: seq<Tick>) returns (log: seq<Action>)
      requires tcpClient.Valid()
      modifies this`doExit, tcpClient, queue
      ensures (W(), log) == RunSpec(old(W()), ticks, false)
    {
      ghost var goal := RunSpec(W(), ticks, false);
      log := [];
      var k := 0;
      while !doExit && k < |ticks|
        invariant k <= |ticks| && tcpClient.Valid()
        invariant RunReaches(W(), ticks, k, false, log, goal)
        decreases |ticks| - k
      {
        EnterReconnectLoop(W(), ticks, k, log, goal);
        while !doExit && !tcpClient.connected && autoconnect && k < |ticks|
          invariant k <= |ticks| && tcpClient.Valid()
          invariant RunReaches(W(), ticks, k, true, log, goal)
          decreases |ticks| - k
        {
          ConnectKeepsReach(W(), ticks, k, log, goal);
          ConnectStep(ticks[k]);
          log := log + [ConnectCall(ticks[k].connect)];
          k := k + 1;
        }
        if k < |ticks| {
          WorkKeepsReach(W(), ticks, k, true, log, goal);
          var ok := WorkStep(ticks[k]);
          log := log + [RunCall(ok)];
          k := k + 1;
        } else {
          RunReachesEnd(W(), ticks, k, true, log, goal);
        }
      }
      RunReachesEnd(W(), ticks, k, false, log, goal);
    }
  }
}
