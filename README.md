# TCP client connection state machine, in Dafny

This project models the runtime core of a small Tkinter TCP client
(`tcpclientk_tcp.py`). The core has these parts:

- **`TcpClientSock`** owns the socket and the flags `connected`, `disconnected`
  and `last_error`. It has two methods, `connect()` and `disconnect()`.
- **`TcpClientThread.run`** is the worker loop. Its outer loop runs until
  `_do_exit` is set. Its inner loop calls `connect()` while
  `!_do_exit && !connected && autoconnect`. After that it calls `_run()` once,
  and it backs off when `_run()` fails.
- **`TcpClientTxThread`** has `autoconnect` on, and its `_run` always succeeds.
  Its `send(data)` type-checks the payload, ASCII-encodes it and writes it to
  the socket.
- **`TcpClientRxThread._run`** does one receive. It sorts the outcome into
  timeout, zero bytes, data, or socket error. It updates `connected` and
  appends each data chunk to the inbound queue.

The socket's system calls are not modelled. In their place, the caller supplies
the outcome the operating system would report:

- `ConnectOutcome`: the attempt succeeded, or it failed with an error text.
- `SendOutcome`: ok, broken pipe, or another OS error.
- `RecvOutcome`: timeout, the bytes received, broken pipe, or another OS error.

With that, each operation is a deterministic transition.

The project has four modules:

- `ClientSpec` (`client_spec.dfy`) states each transition as a pure function
  over the state of the connection and of the worker. The properties are in
  those functions' contracts and in lemmas about them.
- `TcpClient` (`tcp_client.dfy`) has the program's objects as classes with
  mutable fields: `TcpClientSock`, `InboundQueue` and `TcpClientThread`. Each
  method updates its fields in place. Its `ensures` says the new state is the
  `ClientSpec` transition applied to the old state.
- `Ascii` (`ascii.dfy`) models `str.encode('ascii')`. `Wrappers`
  (`wrappers.dfy`) gives `Option` and `Completion` (a call that returns a value or raises).

`scenarios.dfy` is a client of the classes. One Tx worker and one Rx worker
share a connection there, and it walks through a refused connect, a wrong-type
send, a send while down, `send("hello")`, a receive timeout, a data chunk, a
zero-byte receive and `disconnect()`.

The Python subclasses become one class, `TcpClientThread`, with a `role`
(`Tx` or `Rx`). `RunOnce` dispatches on the role the way `_run` is overridden.
`run()` is driven by a finite sequence of `Tick`s. Each `connect()` call or
`_run()` call takes one tick. A tick carries that call's outcome and says
whether the stop request (`_do_exit = True`, set by another thread) arrives
during it. The loop stops where the source stops. It also stops when the ticks
run out.

### Behaviour worth knowing

- `autoconnect` is a field of each worker, not of the connection: the Tx
  worker sets it to true and the Rx worker leaves it false. Neither
  `connect()` nor `disconnect()` touches it. `disconnect()` sets a separate
  `disconnected` flag, and after that `connect()` returns at once.
- After `disconnect()`, the Tx worker's reconnect condition stays true, so
  the worker calls `connect()` over and over. Each call returns at once, and
  the worker never reaches `_run` again until it is stopped
  (`DisconnectedWorkerSpins`).
- While the server is unreachable, a worker with `autoconnect` on makes one
  `connect()` attempt after another and never runs `_run`
  (`RetriesWhileServerDown`); after the first success it runs `_run`
  (`RetriesUntilConnected`).
- `connected` implies a socket is present, but not the other way round. A
  zero-byte receive, a receive error or a broken-pipe send lowers `connected`
  but leaves the socket in place (`SocketOutlivesConnection`).
- `send()` catches only `BrokenPipeError`. Any other `OSError` from the
  socket's `send`, such as a connection reset, propagates to the caller, and
  `connected` is left unchanged (`SendError.SocketError`).
- `disconnect()` is not a no-op when the client is already disconnected: it
  assigns the same values again, so the result is the same.
- A stop request that arrives while the worker is in the reconnect loop is
  followed by one more `_run` before the worker stops (`ExitWithinOneAction`).

## Model

| member | source | states |
|---|---|---|
| `Ascii.Encode` | tcpclientk_tcp.py:103-104 | `str.encode('ascii')`: it succeeds exactly when every character is below 128. On success it gives one byte per character, equal to the character's code point. On failure it gives the index of the first non-ASCII character; everything before that index is ASCII. |
| `Ascii.DecodeEncode` | tcpclientk_tcp.py:104 | Encoding ASCII text gives ASCII bytes, and decoding those bytes gives the text back. |
| `Ascii.EncodeDecode` | tcpclientk_tcp.py:104 | Decoding ASCII bytes and encoding the text gives the same bytes back, so the encoding is a bijection on ASCII. |
| `ClientSpec.ConnectSpec` | tcpclientk_tcp.py:21-38 | After `disconnect()`, `connect()` changes nothing. Otherwise a success installs the socket, sets `connected` and clears `last_error`. A failure leaves no socket, lowers `connected` and records the error text. `disconnected` never changes, and the invariant `Valid` is kept. |
| `ClientSpec.DisconnectSpec` | tcpclientk_tcp.py:40-46 | `disconnect()` always ends with no socket, `connected == false` and `disconnected == true`, keeps `last_error`, and leaves a valid state. |
| `ClientSpec.ApplyCalls` | tcpclientk_tcp.py:21-46 | Over any sequence of `connect()`/`disconnect()` calls, the invariant is kept: `connected` implies a socket, and `disconnected` implies down with no socket. The client ends disconnected exactly when it started so or some call was `disconnect()`. |
| `ClientSpec.FrozenAfterDisconnect` | tcpclientk_tcp.py:23-46 | After `disconnect()`, any number of further `connect()` and `disconnect()` calls, in any order, leave the state unchanged. This covers idempotence of `disconnect()` and `connect()` being a no-op. |
| `ClientSpec.EncodePayload` | tcpclientk_tcp.py:100-106 | A payload that is neither `str` nor `bytes` raises the type error. `bytes` pass unchanged. A `str` is encoded exactly when it is ASCII, into its code points; otherwise it fails with a UnicodeEncodeError at the first non-ASCII character. |
| `ClientSpec.SendSpec` | tcpclientk_tcp.py:99-118 | A payload that fails the type check or the encoding raises, with the state unchanged and nothing sent, before `connected` is read. Bytes reach the socket exactly when the client is connected and the payload encodes, and they are the encoded payload, sent on the current socket. While down, it returns False and changes nothing. It returns True exactly when connected with a successful write. It raises exactly on an encoding failure or a non-broken-pipe OS error. Only `connected` can change, and it drops exactly on a broken pipe. |
| `ClientSpec.RxRunSpec` | tcpclientk_tcp.py:123-156 | While down, it returns False and changes nothing. It succeeds exactly when connected and the outcome is a timeout or non-empty data, and `connected` afterwards equals the result. Only `connected` changes. The queue (when there is one) gains exactly the received chunk at its tail when the chunk is non-empty, and nothing otherwise. The invariant is kept. |
| `ClientSpec.SocketOutlivesConnection` | tcpclientk_tcp.py:143-146 | After a successful connect and a zero-byte receive, the state is valid and down but still holds the socket. So "socket present if and only if connected" is not an invariant of the code. |
| `ClientSpec.NewWorker` | tcpclientk_tcp.py:56-59 | A new worker has no exit request and has the given connection and queue. Its `autoconnect` is on exactly for the Tx worker (the Tx constructor sets it at line 93). |
| `ClientSpec.RunOnceSpec` | tcpclientk_tcp.py:95-97 | Tx `_run` succeeds and changes nothing. A failed `_run`, the only case that triggers the back-off, comes only from the Rx worker and leaves the connection down. `_run` never raises `connected`, never touches the worker's own flags, and keeps the invariant. |
| `ClientSpec.RunSpec` | tcpclientk_tcp.py:71-83 | The loop takes at most one action per tick and never changes the worker's role or `autoconnect`. It keeps the connection invariant. With `_do_exit` set at the head of the loop it does nothing. If it stops before the ticks run out, `_do_exit` is set. |
| `ClientSpec.NoAutoconnectNoConnectCalls` | tcpclientk_tcp.py:74-78 | A worker whose `autoconnect` is off never calls `connect()`: every action of its loop is a `_run`. |
| `ClientSpec.RxWorkerNeverConnects` | tcpclientk_tcp.py:59-78 | The Rx worker, whose `autoconnect` stays false, never calls `connect()` from its loop, from any connection state and for any outcomes. |
| `ClientSpec.RetriesUntilConnected` | tcpclientk_tcp.py:74-80 | A worker whose connection is down but not disconnected, with `autoconnect` on and no stop request, calls `connect()` at every step through the failed attempts up to the first success. Its next step after that is a `_run`. |
| `ClientSpec.RetriesWhileServerDown` | tcpclientk_tcp.py:74-78 | A worker whose connection is down but not disconnected, with `autoconnect` on, facing only failed attempts and no stop request, takes exactly one `connect()` per tick, with that tick's outcome, and never a `_run`: the reconnect loop keeps retrying for as long as the server stays down. |
| `ClientSpec.TxWorkerNeverBacksOff` | tcpclientk_tcp.py:80-97 | Every `_run` of the Tx worker succeeds, so its loop never takes the back-off sleep after `_run`. Its loop leaves the inbound queue unchanged. |
| `ClientSpec.ExitWithinOneAction` | tcpclientk_tcp.py:74-81 | Once the stop request arrives during action `i`, the loop takes at most one more action, and that action is a `_run`, never another `connect()`. |
| `ClientSpec.DisconnectedWorkerSpins` | tcpclientk_tcp.py:74-78 | After `disconnect()`, a worker with `autoconnect` on changes neither the connection nor the queue, and every action but the last is a `connect()` call. With no stop request, every action is a `connect()` call, one per tick. |
| `ClientSpec.Delivered` | tcpclientk_tcp.py:143-154 | The reference for what a receive loop delivers: the non-empty chunks, in arrival order, up to the first outcome that closes the connection. Every chunk is non-empty, and none is longer than `DEFAULT_RECV_BUFLEN` when recv keeps to that bound. |
| `ClientSpec.RxQueueIsFifo` | tcpclientk_tcp.py:123-156 | After an Rx loop of `n` actions, the queue is its old contents followed by exactly the chunks delivered by the first `n` outcomes, if the connection was up, and unchanged if it was down. Nothing is lost, duplicated or reordered. |
| `TcpClient.InboundQueue.Put` | tcpclientk_tcp.py:153-154 | `put` appends the chunk at the tail of the queue. |
| `TcpClient.TcpClientSock.constructor` | tcpclientk_tcp.py:13-19 | A new connection object keeps `ip` and `port` and starts with no socket, not connected, not disconnected and no error. |
| `TcpClient.TcpClientSock.Connect` | tcpclientk_tcp.py:21-38 | The fields after `connect()` are `ConnectSpec` of the fields before. |
| `TcpClient.TcpClientSock.Disconnect` | tcpclientk_tcp.py:40-46 | The fields after `disconnect()` are `DisconnectSpec` of the fields before. |
| `TcpClient.TcpClientThread.constructor` | tcpclientk_tcp.py:50-69 | A worker uses the connection object it is given, or a fresh one for `ip`/`port`. It keeps the queue, starts without an exit request, and has `autoconnect` on only for the Tx worker (line 93). |
| `TcpClient.TcpClientThread.RequestExit` | tcpclientk_tcp.py:56 | Sets `_do_exit`, the stop signal another thread gives the worker. |
| `TcpClient.TcpClientThread.RunOnce` | tcpclientk_tcp.py:123-156 | In place, `_run` changes the shared connection and the queue exactly as `RunOnceSpec` says, and returns its result. For the Tx worker (lines 95-97) it returns True and changes nothing. |
| `TcpClient.TcpClientThread.Send` | tcpclientk_tcp.py:99-118 | In place, `send` changes `connected` and returns or raises exactly as `SendSpec` says, and reports the bytes it handed to the socket. |
| `TcpClient.TcpClientThread.ConnectStep` | tcpclientk_tcp.py:76-78 | One pass of the reconnect loop: `connect()` on the shared connection, then any stop request arriving during the back-off sleep. |
| `TcpClient.TcpClientThread.WorkStep` | tcpclientk_tcp.py:80-81 | One `_run` and its result, then any stop request arriving during it or its back-off. |
| `TcpClient.TcpClientThread.Run` | tcpclientk_tcp.py:71-83 | The nested `while` loops of `run()` leave the worker, connection and queue in the state `RunSpec` gives, and take exactly its actions, in order. |

## Left out

- Socket creation, `settimeout`, and the `connect`/`send`/`recv` system calls
  (tcpclientk_tcp.py:26-28, 114, 131-132) are OS I/O. Their results are
  parameters (`ConnectOutcome`, `SendOutcome`, `RecvOutcome`).
- The timeout constants and every `time.sleep` (lines 6-7, 78, 81, 96) are
  wall-clock time, which is not modelled. A back-off is visible only as a
  `RunCall(false)` action. `DEFAULT_RECV_BUFLEN` is kept, as `RecvBufLen`, as
  the bound on a received chunk.
- Threads and concurrency: the `threading.Thread` base, and the unsynchronised
  sharing of one `TcpClientSock` by the two workers and the UI thread. The
  model runs each worker's steps one after another against one shared object.
  A stop request can arrive only between two actions, and `send()` calls are
  not interleaved inside `run()`.
- `run()` is bounded by its ticks. A run that never ends is represented only
  by its finite prefixes.
- The constructor's `args`/`kwargs` plumbing (lines 50-55, 61-69) becomes
  explicit parameters: role, `ip`, `port`, an optional shared connection and
  an optional queue.
- The thread safety of `queue.Queue`, and its consumer side, are not modelled.
  The queue is a sequence that `_run` appends to.
- Logging calls, which are side effects only.
- `tcpclientk_helpers.py` (`write_to_textwidget`) is Tkinter display code with
  no logic of its own.
- The `data is None` branch of the receive (lines 143, 148-149) cannot happen:
  `recv` always returns a bytes object. A received chunk is always a byte
  sequence.
- Closing of sockets (lines 30-31, 42-43) is not recorded. The model keeps
  only whether a socket is held.
- `TcpClient.TcpClientSock.Connect` does not capture the replaced socket. When
  the client still holds a socket after it lost the connection, a later
  successful `connect()` replaces that socket without closing it. CPython
  closes the old socket when its last reference goes.
- `TcpClient.TcpClientThread.Send` ignores the byte count that the socket's
  `send` returns, as the source does. The model treats each write as all or
  nothing.
- The type error's message text ("You must pass a str or bytes to send() not
  a ...") is reduced to the name of the offending type. A `bytearray`, which
  is not a `bytes` instance, is an `OtherType` payload.
- Error texts (`str(e)`) are taken as given strings.
