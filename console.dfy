/** The client side of the console-to-daemon call of ramona/console/app.py: the lazily
    opened control connection (`connect`), one request/response round trip (`svrcall`)
    and the exit code the console process ends with (`run`).

    `connect` and the parts of `svrcall` are given twice: as a function over the state as a
    value (AppState), about which the properties are proved, and as a method of class
    ConsoleApp whose postcondition ties the new state and the result to that function. The
    header loop (ReadHeader) and the response types (Interpret) are functions only; the method
    Exchange does their work inline. `run` is the function ExitCode only, as it changes no state. */
module Console {
  import opened Wrappers
  import opened Transport

  /** Largest parameter block plus one: the length must fit a 16-bit header field. */
  const MAX_PARAMS: nat := 256 * 256

  /** Connection attempts after launching the daemon (one every 0.1 s, for ten seconds). */
  const START_POLLS: nat := 100

  /** Length of the response header that precedes the payload. */
  const RESP_HEADER_LEN: nat := 4

  /** The exceptions that leave `connect` or `svrcall`. */
  datatype Exception =
    | ServerNotResponding            // exception.server_not_responding_error
    | ServerStartError               // exception.server_start_error
    | SocketError(errno: Errno)      // socket.error re-raised by connect
    | ParamsTooLong                  // RuntimeError: the parameters do not fit the header
    | BadMagic(magic: int)           // AssertionError: the response magic is wrong
    | RemoteError(message: Bytes)    // RuntimeError carrying the daemon's exception text
    | UnknownResponse(retype: int)   // RuntimeError: a response type the client does not know

  /** The failures `svrcall` raises before it has sent anything. */
  predicate BeforeSend(e: Exception)
  {
    e.ServerNotResponding? || e.ServerStartError? || e.SocketError? || e.ParamsTooLong?
  }

  /** The fields of a response header. */
  datatype RespHeader = RespHeader(magic: int, retype: int, paramlen: nat)

  /** The binary layouts and constants of the protocol module, which are not part of this
      model: `pack(magic, callid, paramlen)` builds a call header, `unpack` reads a
      response header of RESP_HEADER_LEN bytes, and the rest are the magic numbers and the
      two response types. */
  datatype Codec = Codec(
    pack: (int, int, nat) -> Bytes,
    unpack: Bytes -> RespHeader,
    callMagic: int,
    respMagic: int,
    respRet: int,
    respExc: int)

  /** The buffer `svrcall` hands to `send`: the call header followed by the parameters. */
  function Frame(codec: Codec, callid: int, params: Bytes): (r: Bytes)
  {
    codec.pack(codec.callMagic, callid, |params|) + params
  }

  /** The client's state: the cached control socket and the environment. */
  datatype AppState = AppState(sock: Option<SockId>, env: Env)

  /** A connect failure that means "the daemon is not running": the connection was refused,
      or the socket path of a unix-socket endpoint does not exist. */
  predicate NoServer(o: ConnectOutcome, unix: bool)
  {
    o.Failed? && (o.errno == ECONNREFUSED || (o.errno == ENOENT && unix))
  }

  /** Every attempt numbered lo up to, not including, hi finds no daemon. */
  predicate NoServerFrom(script: Script, unix: bool, lo: nat, hi: int)
  {
    forall j: nat :: lo <= j < hi ==> NoServer(script.At(j), unix)
  }

  /** The same, attempt by attempt: the n attempts from number lo all find no daemon. */
  predicate NoServerRun(script: Script, unix: bool, lo: nat, n: nat)
    decreases n
  {
    n == 0 || (NoServer(script.At(lo), unix) && NoServerRun(script, unix, lo + 1, n - 1))
  }

  /** "No daemon" on attempts a..a+k is "no daemon" on a and on the k after it. */
  lemma NoServerRangeSplit(script: Script, unix: bool, a: nat, k: nat)
    ensures NoServerFrom(script, unix, a, a + 1 + k) <==>
      NoServer(script.At(a), unix) && NoServerFrom(script, unix, a + 1, a + 1 + k)
  {
  }

  /** The attempt-by-attempt reading agrees with the range reading. */
  lemma {:induction false} NoServerRunIsEvery(script: Script, unix: bool, lo: nat, n: nat)
    ensures NoServerRun(script, unix, lo, n) <==> NoServerFrom(script, unix, lo, lo + n)
    decreases n
  {
    if n > 0 {
      NoServerRunIsEvery(script, unix, lo + 1, n - 1);
      NoServerRangeSplit(script, unix, lo, n - 1);
    }
  }

  // ---------------------------------------------------------------------------------------
  // connect

  /** `connect`: the cached socket if there is one; otherwise one attempt, whose socket is
      stored on success. "Daemon not running" gives None; any other error is raised. */
  function ConnectSpec(st: AppState, script: Script, unix: bool)
    : (r: (Result<Option<SockId>, Errno>, AppState))
    // an existing connection is returned as it is, and nothing is attempted
    ensures st.sock.Some? ==> r == (Ok(st.sock), st)
    // otherwise exactly one attempt is made, and nothing else in the environment changes
    ensures st.sock.None? ==> r.1.env == st.env.(attempts := st.env.attempts + 1)
    // None exactly when the daemon is not running
    ensures st.sock.None? ==> (r.0 == Ok(None) <==> NoServer(script.At(st.env.attempts), unix))
    // an error is raised exactly for the other failures, and it carries their errno
    ensures st.sock.None? ==>
      (r.0.Err? <==> script.At(st.env.attempts).Failed? && !NoServer(script.At(st.env.attempts), unix))
    ensures st.sock.None? && r.0.Err? ==> script.At(st.env.attempts) == Failed(r.0.error)
    // a new socket is the attempt's socket; it is stored and returned
    ensures st.sock.None? && r.0.Ok? && r.0.value.Some? ==>
      script.At(st.env.attempts) == Connected(r.0.value.value)
    ensures r.0.Ok? && r.0.value.Some? ==> r.1.sock == r.0.value
    // after a failure the client still has no connection
    ensures !(r.0.Ok? && r.0.value.Some?) ==> r.1.sock.None?
  {
    if st.sock.Some? then (Ok(st.sock), st)
    else
      var env := st.env.(attempts := st.env.attempts + 1);
      match script.At(st.env.attempts)
      case Connected(s) => (Ok(Some(s)), AppState(Some(s), env))
      case Failed(e) =>
        if e == ECONNREFUSED then (Ok(None), st.(env := env))
        else if e == ENOENT && unix then (Ok(None), st.(env := env))
        else (Err(e), st.(env := env))
  }

  /** `connect` opens at most one connection: once it has returned a socket, the next call
      returns the same socket and attempts nothing. */
  lemma ConnectReturnsCachedSocket(st: AppState, script: Script, unix: bool)
    requires ConnectSpec(st, script, unix).0.Ok? && ConnectSpec(st, script, unix).0.value.Some?
    ensures var r := ConnectSpec(st, script, unix);
      ConnectSpec(r.1, script, unix) == r && r.1.env.attempts <= st.env.attempts + 1
  {
  }

  // ---------------------------------------------------------------------------------------
  // svrcall, phase 1: obtaining a connection

  /** The polling loop after a launch: up to `k` further calls of `connect`, stopping at the
      first that does not answer None. */
  function Poll(st: AppState, script: Script, unix: bool, k: nat)
    : (r: (Result<Option<SockId>, Errno>, AppState))
    requires st.sock.None?
    ensures st.env.attempts <= r.1.env.attempts <= st.env.attempts + k
    ensures r.1.env == st.env.(attempts := r.1.env.attempts)
    // None only after all k attempts
    ensures r.0 == Ok(None) ==> r.1.env.attempts == st.env.attempts + k
    // otherwise the last attempt decided: it connected, or it raised
    ensures r.0 != Ok(None) ==>
      r.1.env.attempts > st.env.attempts && !NoServer(script.At(r.1.env.attempts - 1), unix)
    ensures r.0.Ok? && r.0.value.Some? ==>
      r.1.env.attempts > 0 && script.At(r.1.env.attempts - 1) == Connected(r.0.value.value) &&
      r.1.sock == r.0.value
    ensures r.0.Err? ==> r.1.env.attempts > 0 && script.At(r.1.env.attempts - 1) == Failed(r.0.error)
    ensures !(r.0.Ok? && r.0.value.Some?) ==> r.1.sock.None?
    decreases k
  {
    if k == 0 then (Ok(None), st)
    else
      var c := ConnectSpec(st, script, unix);
      if c.0 != Ok(None) then c else Poll(c.1, script, unix, k - 1)
  }

  /** Every attempt of the polling loop before its last one found no daemon, and the loop
      gives None exactly when all k attempts found no daemon. */
  lemma {:induction false} PollStopsAtFirstAnswer(st: AppState, script: Script, unix: bool, k: nat)
    requires st.sock.None?
    ensures var r := Poll(st, script, unix, k);
      r.1.env.attempts > st.env.attempts ==>
        NoServerRun(script, unix, st.env.attempts, r.1.env.attempts - st.env.attempts - 1)
    ensures Poll(st, script, unix, k).0 == Ok(None) <==> NoServerRun(script, unix, st.env.attempts, k)
    decreases k
  {
    if k > 0 {
      var c := ConnectSpec(st, script, unix);
      if c.0 == Ok(None) {
        PollStopsAtFirstAnswer(c.1, script, unix, k - 1);
      }
    }
  }

  /** The `auto_connect` branch of `svrcall`. The result is the exception raised, if any. */
  function AutoConnectSpec(st: AppState, script: Script, unix: bool)
    : (r: (Option<Exception>, AppState))
    ensures r.1.env == st.env.(attempts := r.1.env.attempts)
    ensures r.1.env.attempts <= st.env.attempts + 1
    ensures r.0.None? ==> r.1.sock.Some?
    // an existing connection is reused without calling connect
    ensures st.sock.Some? ==> r == (None, st)
    ensures r.0 == Some(ServerNotResponding) <==> st.sock.None? && NoServer(script.At(st.env.attempts), unix)
    ensures r.0.Some? ==> r.0.value.ServerNotResponding? || r.0.value.SocketError?
  {
    if st.sock.Some? then (None, st)
    else
      var c := ConnectSpec(st, script, unix);
      if c.0.Err? then (Some(SocketError(c.0.error)), c.1)
      else if c.0.value.None? then (Some(ServerNotResponding), c.1)
      else (None, c.1)
  }

  /** The state after `launch_server_daemonized`: one more launch, nothing else changed. */
  function Launched(st: AppState): (r: AppState)
  {
    st.(env := st.env.(launches := st.env.launches + 1))
  }

  /** The `auto_server_start` branch of `svrcall`. The result is the exception raised, if any. */
  function AutoStartSpec(st: AppState, script: Script, unix: bool)
    : (r: (Option<Exception>, AppState))
    ensures r.1.env.sent == st.env.sent && r.1.env.inbound == st.env.inbound
    ensures r.0.None? ==> r.1.sock.Some?
    ensures st.sock.Some? ==> r == (None, st)
    // the daemon is launched, once, exactly when the first attempt finds no daemon
    ensures r.1.env.launches == st.env.launches +
      (if st.sock.None? && NoServer(script.At(st.env.attempts), unix) then 1 else 0)
    ensures r.1.env.attempts <= st.env.attempts + 1 + START_POLLS
    // server_start_error after all 1 + START_POLLS attempts
    ensures r.0 == Some(ServerStartError) ==> st.sock.None? && r.1.env.attempts == st.env.attempts + 1 + START_POLLS
    ensures r.0.Some? ==> r.0.value.ServerStartError? || r.0.value.SocketError?
  {
    var c := ConnectSpec(st, script, unix);
    if c.0.Err? then (Some(SocketError(c.0.error)), c.1)
    else if c.0.value.Some? then (None, c.1)
    else
      var p := Poll(Launched(c.1), script, unix, START_POLLS);
      if p.0.Err? then (Some(SocketError(p.0.error)), p.1)
      else if p.0.value.None? then (Some(ServerStartError), p.1)
      else (None, p.1)
  }

  /** The first part of `svrcall`, up to the length check: obtain a connection under the
      caller's policy. The result
      is the exception raised, if any. */
  function AcquireSpec(st: AppState, script: Script, unix: bool,
                       autoConnect: bool, autoServerStart: bool)
    : (r: (Option<Exception>, AppState))
    requires !(autoConnect && autoServerStart)
    requires !autoConnect && !autoServerStart ==> st.sock.Some?
    // nothing is sent or read while connecting
    ensures r.1.env.sent == st.env.sent && r.1.env.inbound == st.env.inbound
    // on success there is a connection, and an existing one is never replaced
    ensures r.0.None? ==> r.1.sock.Some?
    ensures st.sock.Some? ==> r.1.sock == st.sock
    ensures r.0.Some? ==> r.0.value.ServerNotResponding? || r.0.value.ServerStartError? ||
                          r.0.value.SocketError?
    // auto_connect reuses an existing connection without calling connect
    ensures autoConnect && st.sock.Some? ==> r == (None, st)
    // auto_connect with no daemon: server_not_responding_error, after one attempt
    ensures r.0 == Some(ServerNotResponding) <==>
      autoConnect && st.sock.None? && NoServer(script.At(st.env.attempts), unix)
    // the daemon is launched, once, exactly when auto-start finds no daemon at first
    ensures r.1.env.launches == st.env.launches +
      (if autoServerStart && st.sock.None? && NoServer(script.At(st.env.attempts), unix) then 1 else 0)
    // bounded attempts: 1 + START_POLLS under auto-start, 1 under auto_connect, none otherwise
    ensures r.1.env.attempts <= st.env.attempts +
      (if autoServerStart then 1 + START_POLLS else if autoConnect then 1 else 0)
    // server_start_error only under auto-start, after all 1 + START_POLLS attempts
    ensures r.0 == Some(ServerStartError) ==>
      autoServerStart && st.sock.None? && r.1.env.attempts == st.env.attempts + 1 + START_POLLS
  {
    if autoConnect then AutoConnectSpec(st, script, unix)
    else if autoServerStart then AutoStartSpec(st, script, unix)
    else (None, st)
  }

  /** Under auto-start with no connection, server_start_error is raised exactly when the
      first attempt and all START_POLLS attempts after the launch found no daemon. */
  lemma AutoStartGivesUpOnlyWhenNoAttemptAnswers(st: AppState, script: Script, unix: bool)
    requires st.sock.None?
    ensures AutoStartSpec(st, script, unix).0 == Some(ServerStartError) <==>
      NoServerFrom(script, unix, st.env.attempts, st.env.attempts + 1 + START_POLLS)
  {
    var c := ConnectSpec(st, script, unix);
    if c.0 == Ok(None) {
      PollStopsAtFirstAnswer(Launched(c.1), script, unix, START_POLLS);
    }
    NoServerRunIsEvery(script, unix, st.env.attempts, 1 + START_POLLS);
  }

  /** Polling after a first attempt that found no daemon: when the loop gets an answer, every
      attempt from that first one up to the deciding one found no daemon. */
  lemma PollAnswerAfterRefusal(st: AppState, script: Script, unix: bool, k: nat)
    requires st.sock.None? && st.env.attempts > 0 && NoServer(script.At(st.env.attempts - 1), unix)
    ensures var p := Poll(st, script, unix, k);
      p.0 != Ok(None) ==> NoServerFrom(script, unix, st.env.attempts - 1, p.1.env.attempts - 1)
  {
    var p := Poll(st, script, unix, k);
    if p.0 != Ok(None) {
      var n := p.1.env.attempts - st.env.attempts - 1;
      PollStopsAtFirstAnswer(st, script, unix, k);
      NoServerRunIsEvery(script, unix, st.env.attempts, n);
      NoServerRangeSplit(script, unix, st.env.attempts - 1, n);
    }
  }

  /** The auto-start branch stops at the first answer: when it does not give up, the last
      attempt it made decided the outcome (its socket is the connection, or its error is
      raised), and every attempt before that one found no daemon. */
  lemma AutoStartStopsAtFirstAnswer(st: AppState, script: Script, unix: bool)
    requires st.sock.None?
    ensures var r := AutoStartSpec(st, script, unix);
      r.0 != Some(ServerStartError) ==>
        r.1.env.attempts > st.env.attempts &&
        NoServerFrom(script, unix, st.env.attempts, r.1.env.attempts - 1) &&
        (r.0.None? ==> script.At(r.1.env.attempts - 1) == Connected(r.1.sock.value)) &&
        (r.0.Some? ==> script.At(r.1.env.attempts - 1) == Failed(r.0.value.errno))
  {
    var c := ConnectSpec(st, script, unix);
    if c.0 == Ok(None) {
      PollAnswerAfterRefusal(Launched(c.1), script, unix, START_POLLS);
    }
  }

  // ---------------------------------------------------------------------------------------
  // svrcall, phase 2: the exchange

  /** The header loop of `svrcall`: every `recv` asks only for the bytes still missing. */
  function ReadHeader(inbound: seq<Bytes>, resp: Bytes): (r: (Bytes, seq<Bytes>))
    requires |resp| <= RESP_HEADER_LEN <= |resp| + |Flatten(inbound)|
    // exactly the missing bytes are taken from the stream, however it is chunked
    ensures |r.0| == RESP_HEADER_LEN
    ensures r.0 == resp + Flatten(inbound)[..RESP_HEADER_LEN - |resp|]
    ensures Flatten(r.1) == Flatten(inbound)[RESP_HEADER_LEN - |resp|..]
    decreases |Flatten(inbound)| + |inbound|
  {
    if |resp| == RESP_HEADER_LEN then (resp, inbound)
    else
      var t := Take(inbound, RESP_HEADER_LEN - |resp|);
      var r := ReadHeader(t.1, resp + t.0);
      assert Flatten(inbound) == t.0 + Flatten(t.1);
      assert Flatten(inbound)[..RESP_HEADER_LEN - |resp|]
          == t.0 + Flatten(t.1)[..RESP_HEADER_LEN - |resp| - |t.0|];
      r
  }

  /** The response header does not depend on how the daemon's bytes are split into the
      chunks that successive `recv` calls see: two chunkings of one byte stream give the same
      header and leave the same stream behind. */
  lemma HeaderIndependentOfChunking(a: seq<Bytes>, b: seq<Bytes>)
    requires Flatten(a) == Flatten(b) && |Flatten(a)| >= RESP_HEADER_LEN
    ensures ReadHeader(a, []).0 == ReadHeader(b, []).0
    ensures Flatten(ReadHeader(a, []).1) == Flatten(ReadHeader(b, []).1)
  {
  }

  /** The response types `svrcall` tells apart, for a header whose magic is right. */
  function Interpret(codec: Codec, h: RespHeader, payload: Bytes): (r: Result<Bytes, Exception>)
    ensures r.Ok? <==> h.retype == codec.respRet
    ensures r.Ok? ==> r.value == payload
    ensures r == Err(RemoteError(payload)) <==> h.retype != codec.respRet && h.retype == codec.respExc
    ensures r.Err? ==> r.error == RemoteError(payload) || r.error == UnknownResponse(h.retype)
  {
    if h.retype == codec.respRet then Ok(payload)
    else if h.retype == codec.respExc then Err(RemoteError(payload))
    else Err(UnknownResponse(h.retype))
  }

  /** The response header the daemon's byte stream starts with. */
  function StreamHeader(codec: Codec, inbound: seq<Bytes>): (r: RespHeader)
    requires |Flatten(inbound)| >= RESP_HEADER_LEN
  {
    codec.unpack(Flatten(inbound)[..RESP_HEADER_LEN])
  }

  /** If what follows position k of s is a then b, the two are the slices of s at k + |a|. */
  lemma SplitAfter(s: Bytes, k: nat, a: Bytes, b: Bytes)
    requires k <= |s| && s[k..] == a + b
    ensures s[k..k + |a|] == a && s[k + |a|..] == b
  {
  }

  /** The rest of `svrcall`, from the length check on, on an open connection: validate, send one frame, read the
      header, check the magic, read the payload with one `recv` and interpret it. */
  function ExchangeSpec(st: AppState, codec: Codec, callid: int, params: Bytes)
    : (r: (Result<Bytes, Exception>, AppState))
    requires |params| < MAX_PARAMS ==> |Flatten(st.env.inbound)| >= RESP_HEADER_LEN
    ensures r.1.sock == st.sock
    ensures r.1.env.attempts == st.env.attempts && r.1.env.launches == st.env.launches
    // too long: rejected before anything is sent or read
    ensures r.0 == Err(ParamsTooLong) <==> |params| >= MAX_PARAMS
    ensures |params| >= MAX_PARAMS ==> r.1 == st
    // otherwise exactly one send, of the header followed by the parameters
    ensures |params| < MAX_PARAMS ==> r.1.env.sent == st.env.sent + [Frame(codec, callid, params)]
    // a wrong magic is an assertion failure, after exactly the header has been consumed
    ensures |params| < MAX_PARAMS && StreamHeader(codec, st.env.inbound).magic != codec.respMagic ==>
      r.0 == Err(BadMagic(StreamHeader(codec, st.env.inbound).magic)) &&
      Flatten(r.1.env.inbound) == Flatten(st.env.inbound)[RESP_HEADER_LEN..]
    // a right magic: the payload is what follows the header, at most paramlen bytes of it
    ensures |params| < MAX_PARAMS && StreamHeader(codec, st.env.inbound).magic == codec.respMagic ==>
      var n := |Flatten(st.env.inbound)| - |Flatten(r.1.env.inbound)|;
      RESP_HEADER_LEN <= n <= RESP_HEADER_LEN + StreamHeader(codec, st.env.inbound).paramlen &&
      Flatten(r.1.env.inbound) == Flatten(st.env.inbound)[n..] &&
      r.0 == Interpret(codec, StreamHeader(codec, st.env.inbound), Flatten(st.env.inbound)[RESP_HEADER_LEN..n])
  {
    if |params| >= MAX_PARAMS then (Err(ParamsTooLong), st)
    else
      var env := st.env.(sent := st.env.sent + [Frame(codec, callid, params)]);
      var hd := ReadHeader(env.inbound, []);
      assert hd.0 == Flatten(st.env.inbound)[..RESP_HEADER_LEN];
      var h := codec.unpack(hd.0);
      assert h == StreamHeader(codec, st.env.inbound);
      if h.magic != codec.respMagic then (Err(BadMagic(h.magic)), st.(env := env.(inbound := hd.1)))
      else
        var body := Take(hd.1, h.paramlen);
        SplitAfter(Flatten(st.env.inbound), RESP_HEADER_LEN, body.0, Flatten(body.1));
        (Interpret(codec, h, body.0), st.(env := env.(inbound := body.1)))
  }

  // ---------------------------------------------------------------------------------------
  // svrcall as a whole

  /** `svrcall(callid, params, auto_connect, auto_server_start)`. */
  function SvrCallSpec(st: AppState, script: Script, unix: bool, codec: Codec,
                       callid: int, params: Bytes, autoConnect: bool, autoServerStart: bool)
    : (r: (Result<Bytes, Exception>, AppState))
    requires !(autoConnect && autoServerStart)
    requires !autoConnect && !autoServerStart ==> st.sock.Some?
    // the header is read only when a connection was obtained and the parameters fit; connecting
    // reads nothing, so this is a demand on the stream as it is now
    requires var a := AcquireSpec(st, script, unix, autoConnect, autoServerStart);
      a.0.None? && |params| < MAX_PARAMS ==> |Flatten(a.1.env.inbound)| >= RESP_HEADER_LEN
    // a failure before sending leaves the send log and the stream alone
    ensures r.0.Err? && BeforeSend(r.0.error) ==> r.1.env.sent == st.env.sent && r.1.env.inbound == st.env.inbound
    // every other outcome comes after exactly one send of the frame, which needs short parameters
    ensures !(r.0.Err? && BeforeSend(r.0.error)) ==>
      |params| < MAX_PARAMS && r.1.env.sent == st.env.sent + [Frame(codec, callid, params)]
    ensures |params| >= MAX_PARAMS ==> r.0.Err? && BeforeSend(r.0.error)
    // a result is only ever returned on a connection
    ensures r.0.Ok? ==> r.1.sock.Some?
    // at most one launch, at most 1 + START_POLLS connection attempts
    ensures r.1.env.launches <= st.env.launches + 1
    ensures r.1.env.attempts <= st.env.attempts + 1 + START_POLLS
  {
    var a := AcquireSpec(st, script, unix, autoConnect, autoServerStart);
    if a.0.Some? then (Err(a.0.value), a.1)
    else
      ExchangeSpec(a.1, codec, callid, params)
  }

  // ---------------------------------------------------------------------------------------
  // run

  /** How the console command ended: the command returned an exit code or None, raised a
      ramona runtime error (whose `exitcode` may also be None), or raised any other exception
      derived from `Exception`. */
  datatype Ending = Returned(ec: Option<int>) | RamonaFailure(exitcode: Option<int>) | OtherFailure

  /** The argument `run` passes to `sys.exit`: a None code becomes 0. */
  function ExitCode(e: Ending): (code: int)
    ensures code == 0 <==>
      e in {Returned(None), Returned(Some(0)), RamonaFailure(None), RamonaFailure(Some(0))}
    ensures e.Returned? && e.ec.Some? ==> code == e.ec.value
    ensures e.RamonaFailure? && e.exitcode.Some? ==> code == e.exitcode.value
    ensures e.OtherFailure? ==> code == 100
  {
    var ec := match e
      case Returned(c) => c
      case RamonaFailure(c) => c
      case OtherFailure => Some(100);
    if ec.Some? then ec.value else 0
  }

  // ---------------------------------------------------------------------------------------
  // the console application object

  class ConsoleApp {
    /** The cached control connection; None until a connect succeeds. */
    var ctlconsock: Option<SockId>
    /** Whether the configured server URI is a unix-socket endpoint. */
    const unixEndpoint: bool
    const codec: Codec
    /** The daemon's side of the world: connection attempts, the launcher and the stream. */
    const env: ScriptedTransport

    function State(): (r: AppState)
      reads this, env
    {
      AppState(ctlconsock, env.State())
    }

    constructor (unixEndpoint: bool, codec: Codec, env: ScriptedTransport)
      ensures this.unixEndpoint == unixEndpoint && this.codec == codec && this.env == env
      ensures ctlconsock.None?
    {
      this.unixEndpoint := unixEndpoint;
      this.codec := codec;
      this.env := env;
      ctlconsock := None;
    }

    method Connect() returns (r: Result<Option<SockId>, Errno>)
      modifies this, env
      ensures (r, State()) == ConnectSpec(old(State()), env.script, unixEndpoint)
    {
      if ctlconsock.None? {
        var o := env.CreateSocketConnect();
        match o
        case Connected(s) =>
          ctlconsock := Some(s);
        case Failed(e) =>
          if e == ECONNREFUSED { return Ok(None); }
          if e == ENOENT && unixEndpoint { return Ok(None); }
          return Err(e);
      }
      return Ok(ctlconsock);
    }

    /** The polling loop of the `auto_server_start` branch of `svrcall`: after the launch, up to START_POLLS calls of `connect`,
        leaving the loop at the first that does not answer None. */
    method AwaitServer() returns (s: Result<Option<SockId>, Errno>)
      requires ctlconsock.None?
      modifies this, env
      ensures (s, State()) == Poll(old(State()), env.script, unixEndpoint, START_POLLS)
    {
      ghost var launched := State();
      s := Ok(None);
      var n := 0;
      while n < START_POLLS
        invariant 0 <= n <= START_POLLS
        invariant s == Ok(None) && ctlconsock.None?
        invariant Poll(State(), env.script, unixEndpoint, START_POLLS - n)
               == Poll(launched, env.script, unixEndpoint, START_POLLS)
      {
        s := Connect();
        if s != Ok(None) { return; }
        n := n + 1;
      }
    }

    /** The `auto_connect` branch of `svrcall`. */
    method AutoConnect() returns (e: Option<Exception>)
      modifies this, env
      ensures (e, State()) == AutoConnectSpec(old(State()), env.script, unixEndpoint)
    {
      if ctlconsock.None? {
        var s := Connect();
        if s.Err? { return Some(SocketError(s.error)); }
        if s.value.None? { return Some(ServerNotResponding); }
      }
      return None;
    }

    /** The `auto_server_start` branch of `svrcall`. */
    method AutoServerStart() returns (e: Option<Exception>)
      modifies this, env
      ensures (e, State()) == AutoStartSpec(old(State()), env.script, unixEndpoint)
    {
      ghost var st := State();
      var s := Connect();
      if s.Err? { return Some(SocketError(s.error)); }
      if s.value.None? {
        env.LaunchServerDaemonized();
        assert State() == Launched(ConnectSpec(st, env.script, unixEndpoint).1);
        s := AwaitServer();
        if s.Err? { return Some(SocketError(s.error)); }
        if s.value.None? { return Some(ServerStartError); }
      }
      return None;
    }

    /** The first part of `svrcall`: obtain a connection under the caller's policy. */
    method Acquire(autoConnect: bool, autoServerStart: bool) returns (e: Option<Exception>)
      requires !(autoConnect && autoServerStart)
      requires !autoConnect && !autoServerStart ==> ctlconsock.Some?
      modifies this, env
      ensures (e, State()) == AcquireSpec(old(State()), env.script, unixEndpoint, autoConnect, autoServerStart)
    {
      if autoConnect {
        e := AutoConnect();
      } else if autoServerStart {
        e := AutoServerStart();
      } else {
        assert ctlconsock.Some?;
        e := None;
      }
    }

    /** The rest of `svrcall`, from the length check on, on the connection just obtained. */
    method Exchange(callid: int, params: Bytes) returns (r: Result<Bytes, Exception>)
      requires ctlconsock.Some?
      requires |params| < MAX_PARAMS ==> |Flatten(env.inbound)| >= RESP_HEADER_LEN
      modifies env
      ensures (r, State()) == ExchangeSpec(old(State()), codec, callid, params)
    {
      var paramlen := |params|;
      if paramlen >= MAX_PARAMS {
        return Err(ParamsTooLong);
      }
      env.Send(codec.pack(codec.callMagic, callid, paramlen) + params);

      ghost var afterSend := env.State();
      var resp: Bytes := [];
      while |resp| < RESP_HEADER_LEN
        invariant |resp| <= RESP_HEADER_LEN <= |resp| + |Flatten(env.inbound)|
        invariant ReadHeader(env.inbound, resp) == ReadHeader(afterSend.inbound, [])
        invariant env.State() == afterSend.(inbound := env.inbound)
        decreases |Flatten(env.inbound)| + |env.inbound|
      {
        var chunk := env.Recv(RESP_HEADER_LEN - |resp|);
        resp := resp + chunk;
      }

      var h := codec.unpack(resp);
      if h.magic != codec.respMagic {
        return Err(BadMagic(h.magic));
      }
      var payload := env.Recv(h.paramlen);
      if h.retype == codec.respRet {
        return Ok(payload);
      } else if h.retype == codec.respExc {
        return Err(RemoteError(payload));
      } else {
        return Err(UnknownResponse(h.retype));
      }
    }

    method SvrCall(callid: int, params: Bytes, autoConnect: bool, autoServerStart: bool)
      returns (r: Result<Bytes, Exception>)
      requires !(autoConnect && autoServerStart)
      requires !autoConnect && !autoServerStart ==> ctlconsock.Some?
      requires var a := AcquireSpec(State(), env.script, unixEndpoint, autoConnect, autoServerStart);
        a.0.None? && |params| < MAX_PARAMS ==> |Flatten(a.1.env.inbound)| >= RESP_HEADER_LEN
      modifies this, env
      ensures (r, State()) ==
        SvrCallSpec(old(State()), env.script, unixEndpoint, codec, callid, params, autoConnect, autoServerStart)
    {
      var e := Acquire(autoConnect, autoServerStart);
      if e.Some? {
        return Err(e.value);
      }
      r := Exchange(callid, params);
    }
  }
}
