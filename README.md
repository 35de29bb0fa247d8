# Ramona console client: the call to the daemon

Ramona is a supervisor daemon with a command-line console. This project models the
console's side of one call to the daemon, all of it in class `console_app` of
`ramona/console/app.py`:

- `connect` opens the control connection lazily and caches it in `ctlconsock`. A refused
  connection, or a missing socket path on a unix-socket endpoint, means "daemon not running"
  and gives None. Every other socket error is raised.
- `svrcall` makes one round trip. It obtains a connection under one of three policies:
  `auto_connect`, `auto_server_start` (launch the daemon, then poll up to 100 times), or
  neither (a connection must already exist). It rejects parameters of 65536 bytes or more.
  It sends one frame (the call header and then the parameters) and gathers the 4-byte
  response header over as many `recv` calls as it takes. It checks the magic, reads the
  payload with one `recv`, and returns the payload or raises an error, depending on the
  response type.
- `run` maps how the command ended to the process exit code.

The sockets, the launcher and the daemon are an environment, `Transport.ScriptedTransport`:

- the outcomes of the connection attempts are a `Transport.Script`: a list of outcomes, then
  one outcome for every later attempt. Attempt number `k` has the outcome `script.At(k)`;
- every launch is counted;
- the buffer of every `send` is logged;
- the daemon's bytes are a list of chunks. One `recv(n)` returns at most `n` bytes of the next
  chunk and leaves the rest for the next call. An empty chunk is a read that returns nothing.

`connect` and the parts of `svrcall` have two forms:

- a function over the client's state as a value (`Console.AppState`: the cached socket and the
  environment), about which the properties are proved;
- a method of class `Console.ConsoleApp` that changes the object and the environment. Its
  postcondition says that the result and the new state are what the function gives for the
  old state.

The pairs are `ConnectSpec` and `Connect`, `Poll` and `AwaitServer`, `AutoConnectSpec` and
`AutoConnect`, `AutoStartSpec` and `AutoServerStart`, `AcquireSpec` and `Acquire`,
`ExchangeSpec` and `Exchange`, and `SvrCallSpec` and `SvrCall`. The header loop and the
interpretation of the response have no method of their own: they are written inline in
`ConsoleApp.Exchange`, whose loop invariant ties the loop to `ReadHeader`. `run` is only the
function `Console.ExitCode`, because it changes no state.

The header layouts and magic numbers live in the protocol module, which is not part of this
model. They are an opaque `Console.Codec`: a packing function, an unpacking function and the
constants.

Three facts about the code that the model keeps:

- the payload is read with a single `recv(paramlen)`, which may return fewer bytes than the
  header announces;
- a zero-byte read in the header loop leads to another read, with no deadline and no
  "peer closed" error;
- the two policy flags are plain booleans. A call with both set breaks a precondition.

Modules: `Wrappers` (Option, Result), `Transport` (the environment), `Console` (app.py),
`Scenarios` (concrete runs).

## Model

| member | source | states |
|---|---|---|
| `Console.ConnectSpec` | ramona/console/app.py:62-71 | A cached socket is returned with no attempt. Otherwise exactly one attempt is made. The result is None exactly when the attempt was refused, or hit ENOENT on a unix endpoint. An error is raised exactly for the other failures and carries their errno. A new socket is stored and returned. After any failure the client still has no connection. |
| `Console.ConnectReturnsCachedSocket` | ramona/console/app.py:62-71 | After `connect` has returned a socket, the next call returns the same socket and state and attempts nothing: at most one connection is opened. |
| `Console.ConsoleApp.Connect` | ramona/console/app.py:62-71 | The result and the new `ctlconsock` and environment are those of `ConnectSpec` on the old state. |
| `Console.Poll` | ramona/console/app.py:93-97 | At most `k` further attempts; only the attempt counter changes in the environment. None comes only after all `k` attempts. Otherwise the last attempt decided the result: its socket, now stored, or its error. |
| `Console.PollStopsAtFirstAnswer` | ramona/console/app.py:93-97 | Every polling attempt before the last one found no daemon. The loop gives None exactly when all `k` attempts found no daemon. |
| `Console.NoServerRunIsEvery` | ramona/console/app.py:93-97 | "The `n` attempts from number `lo` find no daemon", taken attempt by attempt as the polling loop does, holds exactly when every attempt numbered `lo` to `lo + n - 1` finds no daemon. |
| `Console.ConsoleApp.AwaitServer` | ramona/console/app.py:93-97 | The polling loop leaves at the first answer other than None. Its result and new state are those of `Poll` with 100 attempts. |
| `Console.AutoConnectSpec` | ramona/console/app.py:80-84 | Only the attempt counter can change, by at most one. An existing connection is reused and nothing is attempted. `server_not_responding_error` is raised exactly when there is no connection and the attempt finds no daemon. Any other failure is a socket error, and success leaves a connection. |
| `Console.ConsoleApp.AutoConnect` | ramona/console/app.py:80-84 | The raised exception (if any) and the new state are those of `AutoConnectSpec` on the old state. |
| `Console.AutoStartSpec` | ramona/console/app.py:86-100 | Nothing is sent or read. An existing connection is returned with nothing changed. The daemon is launched once, exactly when the first attempt finds no daemon. There are at most 101 attempts, and `server_start_error` comes after exactly 101. Any other failure is a socket error, and success leaves a connection. |
| `Console.ConsoleApp.AutoServerStart` | ramona/console/app.py:86-100 | The raised exception (if any) and the new state are those of `AutoStartSpec` on the old state. |
| `Console.AcquireSpec` | ramona/console/app.py:79-103 | Requires that the two flags are not both set, and that a connection exists when neither is set. Nothing is sent or read. Success leaves a connection, and an existing one is kept. `auto_connect` with a connection changes nothing. `server_not_responding_error` is raised exactly when `auto_connect` finds no connection and no daemon. The daemon is launched once, exactly when auto-start's first attempt finds no daemon. There are at most 101, 1 or 0 attempts by policy, and `server_start_error` comes after exactly 101. |
| `Console.AutoStartGivesUpOnlyWhenNoAttemptAnswers` | ramona/console/app.py:86-100 | Under auto-start with no connection, `server_start_error` is raised exactly when the first attempt and all 100 after the launch found no daemon. |
| `Console.PollAnswerAfterRefusal` | ramona/console/app.py:88-97 | When the polling after a first attempt that found no daemon gets an answer, every attempt from that first one up to the deciding one found no daemon. |
| `Console.AutoStartStopsAtFirstAnswer` | ramona/console/app.py:86-100 | When auto-start does not give up, the last attempt it made decided the outcome: its socket is the connection, or its error is raised. Every earlier attempt found no daemon. |
| `Console.ConsoleApp.Acquire` | ramona/console/app.py:79-103 | The raised exception (if any) and the new state are those of `AcquireSpec` on the old state. |
| `Console.ReadHeader` | ramona/console/app.py:112-114 | Each read asks only for the bytes still missing. The header is exactly the first 4 bytes of the stream, and the stream left behind is the rest, however the bytes are chunked. |
| `Console.HeaderIndependentOfChunking` | ramona/console/app.py:112-114 | Two chunkings of the same byte stream give the same header and leave the same bytes. |
| `Console.Interpret` | ramona/console/app.py:124-133 | `resp_ret` returns the payload. `resp_exc`, when it differs from `resp_ret`, raises an error whose message is the payload. Any other type raises "unknown response" with that type. |
| `Console.ExchangeSpec` | ramona/console/app.py:105-133 | Parameters of 65536 bytes or more raise an error, with nothing sent or read. Otherwise exactly one send is logged: the call header followed by the parameters. A wrong magic raises after exactly 4 bytes are consumed, and no payload is returned. A right magic consumes between 4 and 4 + paramlen bytes, and the result is `Interpret` of the bytes after the header. The connection and the launch and attempt counts do not change. |
| `Console.ConsoleApp.Exchange` | ramona/console/app.py:105-133 | The result and the new environment are those of `ExchangeSpec` on the old state. |
| `Console.SvrCallSpec` | ramona/console/app.py:74-133 | A failure before sending leaves the send log and the stream alone. Every other outcome follows exactly one send of the frame, and only parameters under 65536 bytes reach it. A result is returned only on a connection. There is at most one launch and there are at most 101 attempts. |
| `Console.ConsoleApp.SvrCall` | ramona/console/app.py:74-133 | The result and the new state are those of `SvrCallSpec` on the old state. |
| `Console.ExitCode` | ramona/console/app.py:50-59 | A ramona runtime error exits with its own code, any other exception derived from `Exception` with 100, and a returned code with that code. A code of None, returned or carried by a ramona error, gives 0. The code is 0 only for None or 0, returned or carried by a ramona error. |
| `Console.ConsoleApp.constructor` | ramona/console/app.py:46-47 | A new client has no connection. |
| `Transport.Take` | ramona/console/app.py:114 | One `recv(n)` returns at most `n` bytes. They and the bytes left are exactly the bytes the script held. A request for at least one byte from a non-empty script always makes progress. |
| `Transport.ScriptedTransport.Recv` | ramona/console/app.py:122 | A `recv` consumes the stream as `Take` says and changes nothing else. |
| `Transport.ScriptedTransport.CreateSocketConnect` | ramona/console/app.py:65 | An attempt yields the script's next outcome and counts one more attempt. |
| `Transport.ScriptedTransport.LaunchServerDaemonized` | ramona/console/app.py:91 | A launch is counted and changes nothing else. |
| `Transport.ScriptedTransport.Send` | ramona/console/app.py:109 | A send appends its whole buffer to the log and changes nothing else. |
| `Scenarios.AutoStartConnectsOnFourthPoll` | ramona/console/app.py:86-100 | The first connect and three polls are refused, and the fourth poll connects. The call then has that socket after 5 attempts and exactly one launch. |
| `Scenarios.AutoStartNeverAnswered` | ramona/console/app.py:86-100 | A daemon that never answers gives `server_start_error` after exactly 101 attempts and one launch, with nothing sent. |
| `Scenarios.WholeResponseIsInterpreted` | ramona/console/app.py:112-133 | A header chunk followed by a payload chunk of the announced length is interpreted on exactly that payload, and the stream is left empty. |
| `Scenarios.RemoteExceptionCarriesItsMessage` | ramona/console/app.py:128-130 | A `resp_exc` response whose payload is "boom" raises an error whose message is "boom". |

## Left out

- `__init__` (argument parsing, reading the config file, logging setup). It is replaced by a constructor that takes the endpoint kind, the codec and the environment. Resolving the server URI (`socket_uri`) is not part of this model.
- Real sockets, `create_socket_connect`, `launch_server_daemonized`, `send` and `recv` are foreign calls. They are the scripted environment `Transport.ScriptedTransport`, which has one byte stream: the stream of the one connection this client ever opens.
- `send` and `recv` never raise in the model. The source would let such a `socket.error` escape unchanged.
- `launch_server_daemonized` never fails in the model, and `create_socket_connect` can raise only `socket.error`. Any other exception from them would escape `svrcall` unchanged in the source.
- `send` may accept only part of its buffer. The source ignores its return value, and the model logs the whole buffer as one send.
- The byte layouts of the call and response headers, and the magic numbers. The protocol module that defines them is not part of this model, so they are the opaque `Console.Codec`. A `struct.pack` that fails on an out-of-range call id is not modelled.
- `time.sleep`, `time.time`, and the "Looping detected" message with its 5-second pause. They are timing and console output; the zero-byte read itself is kept.
- Console.ConsoleApp.SvrCall: requires that the daemon's stream holds at least 4 bytes when the call reaches the header loop, that is when a connection was obtained and the parameters are under 65536 bytes. The source has no such demand: with fewer bytes it keeps reading forever, and the model leaves that non-terminating run out. Calls that fail before the read have no such demand.
- Console.SvrCallSpec, Console.ExchangeSpec, Console.ConsoleApp.Exchange: the same demand of at least 4 bytes, only for calls that reach the header loop, for the same reason.
- Logging calls.
- Which exception classes derive from `ramona_runtime_errorbase`, and their exit codes. The exceptions module is not part of this model, so `Console.ExitCode` takes the kind of ending and the runtime error's code (an int or None) as given. The argument parser's `execute` is not part of this model either.
- Console.ExitCode: `run` does not map exceptions that do not derive from `Exception` (`SystemExit`, `KeyboardInterrupt`, `GeneratorExit`). They pass both handlers and never reach `sys.exit`, so the process ends with the status Python gives them: a command's own `sys.exit(3)` exits with 3, and Ctrl-C with a traceback and status 1. `Console.Ending` has no case for them.
- `sys.exit` itself, and how the operating system truncates the exit status.
- Encoding the request and decoding it again on the daemon's side. The daemon is not part of this model.
