/** The environment the console client talks to, made abstract: the outcome of every
    connection attempt, the daemon launcher, and the byte stream of the one control
    connection. Real sockets are foreign code; here they are a script that the model
    consumes and a log of what the model did to them. */
module Transport {

  newtype Byte = b: int | 0 <= b < 256

  type Bytes = seq<Byte>

  /** Socket error numbers the client distinguishes; every other number is kept as it is.
      The `code` of an OtherErrno is never the number of ECONNREFUSED or of ENOENT: those two
      are always written with their own constructors. */
  datatype Errno = ECONNREFUSED | ENOENT | OtherErrno(code: int)

  /** Identity of an opened control socket. */
  type SockId = nat

  /** What one call of `create_socket_connect` does: it yields a socket or raises `socket.error`. */
  datatype ConnectOutcome = Connected(sock: SockId) | Failed(errno: Errno)

  /** The outcomes of successive connection attempts: those listed in `first`, then `later`
      for every attempt after them. */
  datatype Script = Script(first: seq<ConnectOutcome>, later: ConnectOutcome) {
    function At(k: nat): (o: ConnectOutcome)
    {
      if k < |first| then first[k] else later
    }
  }

  /** The bytes a sequence of chunks delivers, in order. */
  function Flatten(chunks: seq<Bytes>): (r: Bytes)
  {
    if chunks == [] then [] else chunks[0] + Flatten(chunks[1..])
  }

  /** One `recv(n)`: the peer's next chunk is what the kernel has buffered for this call;
      at most `n` of its bytes are returned and the rest stay for the next call. A chunk
      may be empty (a read that yields no bytes), and an exhausted script reads as "". */
  function Take(inbound: seq<Bytes>, n: nat): (r: (Bytes, seq<Bytes>))
    ensures |r.0| <= n
    ensures r.0 + Flatten(r.1) == Flatten(inbound)
    ensures n > 0 && inbound != [] ==> |Flatten(r.1)| + |r.1| < |Flatten(inbound)| + |inbound|
  {
    if n == 0 || inbound == [] then ([], inbound)
    else if |inbound[0]| <= n then (inbound[0], inbound[1..])
    else
      var rest := [inbound[0][n..]] + inbound[1..];
      assert rest[0] == inbound[0][n..] && rest[1..] == inbound[1..];
      assert inbound[0][..n] + inbound[0][n..] == inbound[0];
      (inbound[0][..n], rest)
  }

  /** The environment's observable state, as a value. */
  datatype Env = Env(attempts: nat, launches: nat, sent: seq<Bytes>, inbound: seq<Bytes>)

  /** The scripted environment: connection attempt number `k` has outcome `script.At(k)`;
      `attempts` counts the attempts made, `launches` the daemon launches, `sent` logs the
      buffer of every `send`, and `inbound` holds the chunks the daemon has yet to deliver. */
  class ScriptedTransport {
    const script: Script
    var attempts: nat
    var launches: nat
    var sent: seq<Bytes>
    var inbound: seq<Bytes>

    function State(): (r: Env)
      reads this
    {
      Env(attempts, launches, sent, inbound)
    }

    constructor (script: Script, inbound: seq<Bytes>)
      ensures this.script == script
      ensures State() == Env(0, 0, [], inbound)
    {
      this.script := script;
      attempts, launches, sent := 0, 0, [];
      this.inbound := inbound;
    }

    /** `create_socket_connect`: one attempt, whose outcome the script fixes. */
    method CreateSocketConnect() returns (r: ConnectOutcome)
      modifies this
      ensures r == script.At(old(attempts))
      ensures State() == old(State()).(attempts := old(attempts) + 1)
    {
      r := script.At(attempts);
      attempts := attempts + 1;
    }

    /** `launch_server_daemonized`: fire and forget, only counted. */
    method LaunchServerDaemonized()
      modifies this
      ensures State() == old(State()).(launches := old(launches) + 1)
    {
      launches := launches + 1;
    }

    /** `send(data)`: the buffer handed to the socket is appended to the log. */
    method Send(data: Bytes)
      modifies this
      ensures State() == old(State()).(sent := old(sent) + [data])
    {
      sent := sent + [data];
    }

    /** `recv(n)`. */
    method Recv(n: nat) returns (data: Bytes)
      modifies this
      ensures (data, inbound) == Take(old(inbound), n)
      ensures State() == old(State()).(inbound := inbound)
    {
      var r := Take(inbound, n);
      data, inbound := r.0, r.1;
    }
  }
}
