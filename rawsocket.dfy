/** `jupyter_server_proxy/rawsocket.py`: the handler that relays a websocket
    to a raw TCP or unix-socket stream. The backend stream is a `Transport`
    that records what is written to it; the websocket side records the
    binary messages, the pings and the close the handler sends. Connection
    outcomes, ping failures and the cancellation of the keepalive task are
    given as inputs. */
module RawSocket {
  import opened Common

  // ---------------------------------------------------------------------
  // UTF-8

  /** The UTF-8 encoding of one character. */
  function EncodeChar(c: char): (b: bytes)
    ensures 1 <= |b| <= 4
    ensures (c as int) < 0x80 <==> |b| == 1
    ensures |b| == 1 ==> b[0] as int == c as int
  {
    var cp := c as int;
    if cp < 0x80 then [cp as byte]
    else if cp < 0x800 then [(0xC0 + cp / 64) as byte, (0x80 + cp % 64) as byte]
    else if cp < 0x10000 then
      [(0xE0 + cp / 4096) as byte, (0x80 + (cp / 64) % 64) as byte, (0x80 + cp % 64) as byte]
    else
      [(0xF0 + cp / 262144) as byte, (0x80 + (cp / 4096) % 64) as byte,
       (0x80 + (cp / 64) % 64) as byte, (0x80 + cp % 64) as byte]
  }

  /** `s.encode("utf-8")`. */
  function Utf8Encode(s: string): (b: bytes)
    ensures |s| <= |b| <= 4 * |s|
  {
    if |s| == 0 then [] else EncodeChar(s[0]) + Utf8Encode(s[1..])
  }

  /** The character at the head of `b` and the number of bytes it takes;
      None when `b` does not start with a well-formed UTF-8 sequence. */
  function DecodeChar(b: bytes): (r: Option<(char, nat)>)
    ensures r.Some? ==> 1 <= r.value.1 <= |b|
  {
    if |b| == 0 then None
    else
      var b0 := b[0] as int;
      if b0 < 0x80 then Some((b0 as char, 1))
      else if b0 < 0xC0 then None
      else if b0 < 0xE0 then
        (if |b| < 2 || !(0x80 <= b[1] < 0xC0) then None
         else
           var cp := (b0 - 0xC0) * 64 + (b[1] as int - 0x80);
           if 0x80 <= cp then Some((cp as char, 2)) else None)
      else if b0 < 0xF0 then
        (if |b| < 3 || !(0x80 <= b[1] < 0xC0) || !(0x80 <= b[2] < 0xC0) then None
         else
           var cp := (b0 - 0xE0) * 4096 + (b[1] as int - 0x80) * 64 + (b[2] as int - 0x80);
           if 0x800 <= cp && !(0xD800 <= cp < 0xE000) then Some((cp as char, 3)) else None)
      else
        (if |b| < 4 || !(0x80 <= b[1] < 0xC0) || !(0x80 <= b[2] < 0xC0) || !(0x80 <= b[3] < 0xC0) then None
         else
           var cp := (b0 - 0xF0) * 262144 + (b[1] as int - 0x80) * 4096
                     + (b[2] as int - 0x80) * 64 + (b[3] as int - 0x80);
           if 0x10000 <= cp < 0x110000 then Some((cp as char, 4)) else None)
  }

  /** `b.decode("utf-8")`, None where Python raises UnicodeDecodeError. */
  function Utf8Decode(b: bytes): Option<string>
    decreases |b|
  {
    if |b| == 0 then Some("")
    else
      match DecodeChar(b)
      case None => None
      case Some((c, n)) =>
        match Utf8Decode(b[n..])
        case None => None
        case Some(s) => Some([c] + s)
  }

  /** Decoding gives back the encoded text. */
  lemma {:induction false} Utf8RoundTrip(s: string)
    ensures Utf8Decode(Utf8Encode(s)) == Some(s)
  {
    if |s| > 0 {
      var e := EncodeChar(s[0]);
      var rest := Utf8Encode(s[1..]);
      DecodeEncodeChar(s[0], rest);
      assert (e + rest)[|e|..] == rest;
      Utf8RoundTrip(s[1..]);
      assert [s[0]] + s[1..] == s;
    }
  }

  /** The head character is decoded from its encoding, whatever follows. */
  lemma DecodeEncodeChar(c: char, rest: bytes)
    ensures DecodeChar(EncodeChar(c) + rest) == Some((c, |EncodeChar(c)|))
  {
    var cp := c as int;
    if 0x80 <= cp < 0x800 {
      assert (cp / 64) * 64 + cp % 64 == cp;
    } else if 0x800 <= cp < 0x10000 {
      ThreeDigits(cp);
    } else if 0x10000 <= cp {
      FourDigits(cp);
    }
  }

  /** A code point as three base-64 digits. */
  lemma ThreeDigits(cp: int)
    requires 0x800 <= cp < 0x10000
    ensures (cp / 4096) * 4096 + ((cp / 64) % 64) * 64 + cp % 64 == cp
    ensures 0 <= cp / 4096 < 16
  {
    var q := cp / 64;
    assert q * 64 + cp % 64 == cp;
    assert (q / 64) * 64 + q % 64 == q;
    assert q / 64 == cp / 4096;
  }

  /** A code point as four base-64 digits. */
  lemma FourDigits(cp: int)
    requires 0x10000 <= cp < 0x110000
    ensures (cp / 262144) * 262144 + ((cp / 4096) % 64) * 4096 + ((cp / 64) % 64) * 64 + cp % 64 == cp
    ensures 0 <= cp / 262144 < 5
  {
    var q := cp / 64;
    assert q * 64 + cp % 64 == cp;
    var q2 := q / 64;
    assert q2 * 64 + q % 64 == q;
    assert q2 == cp / 4096;
    assert (q2 / 64) * 64 + q2 % 64 == q2;
    assert q2 / 64 == cp / 262144;
  }

  /** ASCII text is encoded byte for byte. */
  lemma {:induction false} Utf8Ascii(s: string)
    requires forall i :: 0 <= i < |s| ==> (s[i] as int) < 0x80
    ensures |Utf8Encode(s)| == |s|
    ensures forall i :: 0 <= i < |s| ==> Utf8Encode(s)[i] as int == s[i] as int
  {
    if |s| > 0 {
      Utf8Ascii(s[1..]);
      var e := Utf8Encode(s);
      assert e == EncodeChar(s[0]) + Utf8Encode(s[1..]);
      forall i | 0 <= i < |s|
        ensures e[i] as int == s[i] as int
      {
        if i > 0 {
          assert e[i] == Utf8Encode(s[1..])[i - 1];
          assert s[1..][i - 1] == s[i];
        }
      }
    }
  }

  // ---------------------------------------------------------------------
  // backend stream

  /** The backend stream: every byte written to it, and whether it was
      closed. */
  class Transport {
    var written: bytes
    var closed: bool

    constructor()
      ensures written == [] && !closed
    {
      written := [];
      closed := false;
    }

    method Write(data: bytes)
      modifies this
      ensures written == old(written) + data && closed == old(closed)
    {
      written := written + data;
    }

    method Close()
      modifies this
      ensures closed && written == old(written)
    {
      closed := true;
    }
  }

  /** The keepalive task: cancelled or not. */
  class KeepaliveTask {
    var cancelled: bool

    constructor()
      ensures !cancelled
    {
      cancelled := false;
    }

    method Cancel()
      modifies this
      ensures cancelled
    {
      cancelled := true;
    }
  }

  /** A websocket message: text (`str`) or binary (`bytes`). */
  datatype WsMessage = TextMessage(text: string) | BinaryMessage(data: bytes)

  /** Where the backend connection goes. */
  datatype Target = UnixTarget(path: string) | TcpTarget(host: string, port: int)

  /** What one round of the keepalive loop meets: the sleep cancelled, or
      the ping sent, or the ping raising. */
  datatype KeepaliveRound = Cancelled | PingSent | PingFailed

  /** `b"keepalive"` */
  const KeepalivePayload: bytes := [107, 101, 101, 112, 97, 108, 105, 118, 101]

  /** The number of rounds before the loop stops: the first round that is
      not a successful ping, or all of them. */
  function RoundsBeforeStop(rounds: seq<KeepaliveRound>): (n: nat)
    ensures n <= |rounds|
    ensures forall i :: 0 <= i < n ==> rounds[i] == PingSent
    ensures n < |rounds| ==> rounds[n] != PingSent
  {
    if |rounds| == 0 || rounds[0] != PingSent then 0 else 1 + RoundsBeforeStop(rounds[1..])
  }

  /** `n` keepalive pings. */
  function Pings(n: nat): (ps: seq<bytes>)
    ensures |ps| == n && forall i :: 0 <= i < n ==> ps[i] == KeepalivePayload
  {
    seq(n, _ => KeepalivePayload)
  }

  /** `RawSocketHandler`: its backend connection settings, the backend
      transport and the keepalive task once `proxy_open` has set them, the
      number of times it recorded activity, and what it sent on the
      websocket. */
  class RawSocketHandler {
    const unixSocket: Option<string>
    const port: int
    var transport: Option<Transport>
    var keepalive: Option<KeepaliveTask>
    var activity: nat
    var sent: seq<bytes>
    var pinged: seq<bytes>
    var wsClosed: bool

    constructor(unixSocket: Option<string>, port: int)
      ensures this.unixSocket == unixSocket && this.port == port
      ensures transport.None? && keepalive.None? && activity == 0
      ensures sent == [] && pinged == [] && !wsClosed
    {
      this.unixSocket := unixSocket;
      this.port := port;
      transport := None;
      keepalive := None;
      activity := 0;
      sent := [];
      pinged := [];
      wsClosed := false;
    }

    /** `_create_ws_connection`: the unix socket iff one is configured,
        else `localhost` at the port. */
    function ConnectTarget(): (t: Target)
      reads this
      ensures t.UnixTarget? <==> unixSocket.Some?
      ensures unixSocket.Some? ==> t.path == unixSocket.value
      ensures unixSocket.None? ==> t == TcpTarget("localhost", port)
    {
      if unixSocket.Some? then UnixTarget(unixSocket.value) else TcpTarget("localhost", port)
    }

    /** `proxy`: every plain HTTP request is refused with 405. */
    function Proxy(port: string, path: string): (r: Result<()>)
      ensures r.Err? && r.error.HttpError? && r.error.code == 405
    {
      Err(HttpError(405, "this raw_socket_proxy backend only supports websocket connections"))
    }

    /** `proxy_open`: a failed connection raises and changes nothing;
        otherwise the transport is kept, activity recorded and the
        keepalive task started, unless starting it fails. */
    method ProxyOpen(connection: Result<Transport>, taskStarts: bool) returns (r: Result<()>)
      modifies this
      ensures connection.Err? ==>
        (r == Err(connection.error)
         && transport == old(transport) && keepalive == old(keepalive) && activity == old(activity))
      ensures connection.Ok? ==>
        (r == Ok(())
         && transport == Some(connection.value) && activity == old(activity) + 1
         && (taskStarts ==> keepalive.Some? && fresh(keepalive.value) && !keepalive.value.cancelled)
         && (!taskStarts ==> keepalive == old(keepalive)))
      ensures sent == old(sent) && pinged == old(pinged) && wsClosed == old(wsClosed)
    {
      if connection.Err? {
        return Err(connection.error);
      }
      transport := Some(connection.value);
      activity := activity + 1;
      if taskStarts {
        var task := new KeepaliveTask();
        keepalive := Some(task);
      }
      r := Ok(());
    }

    /** `on_message`: activity is recorded and the message written to the
        backend, text as its UTF-8 bytes and binary unchanged; without a
        transport the attribute lookup raises. */
    method OnMessage(message: WsMessage) returns (r: Result<()>)
      modifies this, if transport.Some? then {transport.value} else {}
      ensures activity == old(activity) + 1
      ensures transport == old(transport) && keepalive == old(keepalive)
      ensures sent == old(sent) && pinged == old(pinged) && wsClosed == old(wsClosed)
      ensures old(transport).None? ==> r == Err(AttributeError)
      ensures old(transport).Some? ==>
        (r == Ok(())
         && transport.value.written == old(transport.value.written) + MessageBytes(message)
         && transport.value.closed == old(transport.value.closed))
    {
      activity := activity + 1;
      var data := if message.TextMessage? then Utf8Encode(message.text) else message.data;
      if transport.None? {
        return Err(AttributeError);
      }
      transport.value.Write(data);
      r := Ok(());
    }

    /** `on_ping`: only activity is recorded. */
    method OnPing(message: bytes)
      modifies this
      ensures activity == old(activity) + 1
      ensures transport == old(transport) && keepalive == old(keepalive)
      ensures sent == old(sent) && pinged == old(pinged) && wsClosed == old(wsClosed)
    {
      activity := activity + 1;
    }

    /** `RawSocketProtocol.data_received`: the block goes to the websocket
        unchanged as one binary message. */
    method DataReceived(data: bytes)
      modifies this
      ensures sent == old(sent) + [data] && activity == old(activity) + 1
      ensures transport == old(transport) && keepalive == old(keepalive)
      ensures pinged == old(pinged) && wsClosed == old(wsClosed)
    {
      activity := activity + 1;
      sent := sent + [data];
    }

    /** `RawSocketProtocol.connection_lost`: the websocket is closed. */
    method ConnectionLost()
      modifies this
      ensures wsClosed
      ensures transport == old(transport) && keepalive == old(keepalive)
      ensures sent == old(sent) && pinged == old(pinged) && activity == old(activity)
    {
      wsClosed := true;
    }

    /** `_ws_keepalive` over the outcomes of its rounds: each round records
        activity and pings `keepalive` until a sleep is cancelled or a ping
        fails; the loop follows `rounds` as far as they go. Returns whether
        the loop ended. */
    method Keepalive(rounds: seq<KeepaliveRound>) returns (ended: bool)
      modifies this
      ensures ended <==> RoundsBeforeStop(rounds) < |rounds|
      ensures pinged == old(pinged) + Pings(RoundsBeforeStop(rounds))
      ensures activity == old(activity) + RoundsBeforeStop(rounds)
        + (if ended && rounds[RoundsBeforeStop(rounds)] == PingFailed then 1 else 0)
      ensures transport == old(transport) && keepalive == old(keepalive)
      ensures sent == old(sent) && wsClosed == old(wsClosed)
    {
      var i := 0;
      ended := false;
      while i < |rounds|
        invariant 0 <= i <= |rounds|
        invariant forall k :: 0 <= k < i ==> rounds[k] == PingSent
        invariant pinged == old(pinged) + Pings(i) && activity == old(activity) + i
        invariant transport == old(transport) && keepalive == old(keepalive)
        invariant sent == old(sent) && wsClosed == old(wsClosed)
      {
        if rounds[i] == Cancelled {
          ended := true;
          break;
        }
        activity := activity + 1;
        if rounds[i] == PingFailed {
          ended := true;
          break;
        }
        pinged := pinged + [KeepalivePayload];
        i := i + 1;
      }
      StopIndex(rounds, i);
    }

    /** `on_close`: the keepalive task is cancelled if there is one, and the
        transport closed if there is one. */
    method OnClose()
      modifies this, (if keepalive.Some? then {keepalive.value} else {}),
        (if transport.Some? then {transport.value} else {})
      ensures transport == old(transport) && keepalive == old(keepalive)
      ensures keepalive.Some? ==> keepalive.value.cancelled
      ensures transport.Some? ==> transport.value.closed && transport.value.written == old(transport.value.written)
      ensures activity == old(activity) && sent == old(sent) && pinged == old(pinged) && wsClosed == old(wsClosed)
    {
      if keepalive.Some? {
        keepalive.value.Cancel();
      }
      if transport.Some? {
        transport.value.Close();
      }
    }
  }

  /** The bytes `on_message` writes for a message. */
  function MessageBytes(m: WsMessage): (b: bytes)
    ensures m.BinaryMessage? ==> b == m.data
    ensures m.TextMessage? ==> Utf8Decode(b) == Some(m.text)
  {
    if m.TextMessage? then Utf8RoundTrip(m.text); Utf8Encode(m.text) else m.data
  }

  /** Where the keepalive loop stopped is the first round that is not a
      successful ping. */
  lemma StopIndex(rounds: seq<KeepaliveRound>, i: nat)
    requires i <= |rounds| && forall k :: 0 <= k < i ==> rounds[k] == PingSent
    requires i < |rounds| ==> rounds[i] != PingSent
    ensures RoundsBeforeStop(rounds) == i
  {
    if i > 0 {
      StopIndex(rounds[1..], i - 1);
    }
  }

  /** `_http_ready_func`: the backend is ready iff a connection can be
      made; the connection is closed at once, and OSError means not ready
      (another error propagates). */
  method HttpReady(connection: Result<Transport>) returns (r: Result<bool>)
    modifies if connection.Ok? then {connection.value} else {}
    ensures connection.Ok? ==>
      (r == Ok(true) && connection.value.closed && connection.value.written == old(connection.value.written))
    ensures connection.Err? && connection.error == OSError ==> r == Ok(false)
    ensures connection.Err? && connection.error != OSError ==> r == Err(connection.error)
  {
    if connection.Err? {
      if connection.error == OSError {
        return Ok(false);
      }
      return Err(connection.error);
    }
    connection.value.Close();
    r := Ok(true);
  }
}
