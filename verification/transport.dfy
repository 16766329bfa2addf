/**
 * The websocket transport (`AiohttpTransport`): its connection state, the
 * classification of inbound frames, and the close guard.
 *
 * The state is kept twice: as the fields of the class, which its methods
 * update in place, and as the record `TState`, on which the step functions
 * below say what each operation does. Each method is proved to agree with
 * its step function.
 */
module Transport {
  import opened Wrappers
  import opened JsonData
  import PyText
  import Utf8

  type byte = Utf8.byte

  /** `json.loads` on bytes: the parsed value, or None when the bytes are not JSON. */
  type Loads = seq<byte> -> Option<Json>

  /** One inbound websocket message, by its `WSMsgType`. */
  datatype Frame =
    | CloseFrame                     // the server closes the connection
    | ClosedFrame                    // the socket reports that it is already closed
    | ErrorFrame(detail: string)     // `str(msg.data)` of an error message
    | TextFrame(text: string)
    | BinaryFrame(bytes: seq<byte>)  // every other type: the raw bytes

  /** The exceptions the transport and the driver raise. */
  datatype Error =
    | ForbiddenException(message: string)           // the plain `Exception` raised for HTTP 403
    | UpgradeRejected(status: int, message: string) // any other refused upgrade, re-raised as is
    | RuntimeError(message: string)
    | JsonDecodeError
    | ReadTimeout
    | ConnectionResetError                          // a write on a closed socket
    | AttributeError                                // an attribute read on None or on a non-dict

  const ForbiddenMessage := "Failed to connect to server: HTTP Error code 403 - Forbidden."
  const ClosedByServerMessage := "Connection was closed by server."
  const AlreadyClosedMessage := "Connection was already closed."
  const ReadErrorPrefix := "Received error on read: '"

  /** How the server answers the websocket upgrade, and what it then sends. */
  datatype Upgrade =
    | Accepted(frames: seq<Frame>)
    | Rejected(status: int, message: string)

  /** An event loop: `is_closed()` and `is_running()`. */
  datatype EventLoop = EventLoop(closed: bool, running: bool)

  /**
   * The websocket or the client session: `None` until `connect` sets it, then
   * a resource with its `closed` flag and the number of times `close()` was
   * invoked on it.
   */
  datatype Handle = Unset | Handle(closed: bool, closeCalls: nat)

  /** Everything `close`, `read`, `write` and `connect` look at or change. */
  datatype TState = TState(
    loopClosed: bool,
    loopRunning: bool,
    websocket: Handle,
    session: Handle,
    inbound: seq<Frame>,   // what the server will send next, in order
    sent: seq<Json>)       // what was written, in order

  /** A resource is closed exactly when `close()` has been invoked on it, once. */
  predicate HandleValid(h: Handle) {
    h.Handle? ==> h.closeCalls <= 1 && (h.closed <==> h.closeCalls == 1)
  }

  /** `connect` creates the session before the websocket, so a websocket never exists alone. */
  predicate ValidState(s: TState) {
    && (s.websocket.Handle? ==> s.session.Handle?)
    && HandleValid(s.websocket)
    && HandleValid(s.session)
  }

  /** The websocket is there and open: reads and writes reach the server. */
  predicate SocketOpen(s: TState) {
    s.websocket.Handle? && !s.websocket.closed
  }

  /** `if not r.closed: r.close()`. */
  function CloseHandle(h: Handle): (r: Handle)
    requires h.Handle?
    ensures r.Handle? && r.closed
    ensures h.closed ==> r == h
    ensures !h.closed ==> r.closeCalls == h.closeCalls + 1
  {
    if h.closed then h else Handle(true, h.closeCalls + 1)
  }

  /** `close()`: the effect and whether it raises. */
  function CloseStep(s: TState): (r: (Result<(), Error>, TState))
    ensures r.1.inbound == s.inbound && r.1.sent == s.sent && r.1.loopRunning == s.loopRunning
  {
    if s.loopClosed then (Ok(()), s)
    else if s.websocket.Unset? then (Err(AttributeError), s)
    else
      var s1 := s.(websocket := CloseHandle(s.websocket));
      if s1.session.Unset? then (Err(AttributeError), s1)
      else
        var s2 := s1.(session := CloseHandle(s1.session));
        (Ok(()), if s.loopRunning then s2 else s2.(loopClosed := true))
  }

  /**
   * What `close()` does: nothing once the loop is closed; otherwise it raises
   * exactly when the websocket or the session was never set, and on success
   * both are closed and the loop is closed unless it is running.
   */
  lemma CloseOutcome(s: TState)
    ensures s.loopClosed ==> CloseStep(s) == (Ok(()), s)
    ensures CloseStep(s).0.Err? <==> !s.loopClosed && (s.websocket.Unset? || s.session.Unset?)
    ensures var (r, s') := CloseStep(s);
      r.Ok? && !s.loopClosed ==>
        && s'.websocket.Handle? && s'.websocket.closed
        && s'.session.Handle? && s'.session.closed
        && (s'.loopClosed <==> !s.loopRunning)
  {
  }

  /** The `closed` property. */
  function IsClosed(s: TState): (r: Result<bool, Error>)
    ensures ValidState(s) ==> (r.Ok? <==> s.websocket.Handle?)
    ensures r.Ok? ==> s.websocket.Handle?
                      && (r.value <==> s.websocket.closed || (s.session.Handle? && s.session.closed))
  {
    match s.websocket
    case Unset => Err(AttributeError)
    case Handle(closed, _) =>
      if closed then Ok(true)
      else if s.session.Unset? then Err(AttributeError)
      else Ok(s.session.closed)
  }

  /** `connect`: a fresh client session, then the upgrade. */
  function ConnectStep(s: TState, reply: Upgrade): (r: (Result<(), Error>, TState))
    ensures r.1.session == Handle(false, 0)
    ensures r.0.Ok? <==> reply.Accepted?
    ensures reply.Accepted? ==> r.1.websocket == Handle(false, 0) && r.1.inbound == reply.frames
    ensures reply.Rejected? && reply.status == 403 ==> r.0 == Err(ForbiddenException(ForbiddenMessage))
    ensures reply.Rejected? && reply.status != 403 ==> r.0 == Err(UpgradeRejected(reply.status, reply.message))
    ensures reply.Rejected? ==> r.1.websocket == s.websocket && r.1.inbound == s.inbound
    ensures r.1.sent == s.sent && r.1.loopClosed == s.loopClosed && r.1.loopRunning == s.loopRunning
  {
    var s1 := s.(session := Handle(false, 0));
    match reply
    case Accepted(frames) => (Ok(()), s1.(websocket := Handle(false, 0), inbound := frames))
    case Rejected(status, message) =>
      (Err(if status == 403 then ForbiddenException(ForbiddenMessage) else UpgradeRejected(status, message)), s1)
  }

  /**
   * The exceptions a default traceback of `connect` prints, oldest first, as
   * the code is written: an exception raised inside an `except` block keeps
   * the one being handled as its implicit context, and both are printed.
   */
  function ConnectTraceback(reply: Upgrade): seq<Error> {
    match reply
    case Accepted(_) => []
    case Rejected(status, message) =>
      if status == 403 then [UpgradeRejected(status, message), ForbiddenException(ForbiddenMessage)]
      else [UpgradeRejected(status, message)]
  }

  /** As written, the traceback of a refused 403 upgrade still prints the server's own error text. */
  lemma ForbiddenTracebackShowsServerText(message: string)
    ensures exists e :: e in ConnectTraceback(Rejected(403, message)) && e.UpgradeRejected? && e.message == message
  {
    assert ConnectTraceback(Rejected(403, message))[0] == UpgradeRejected(403, message);
  }

  /**
   * The traceback once the 403 branch raises `from None`: the implicit
   * context is suppressed, so only the exception `connect` raises is printed.
   */
  function ConnectTracebackFromNone(reply: Upgrade): seq<Error> {
    match reply
    case Accepted(_) => []
    case Rejected(status, message) =>
      [if status == 403 then ForbiddenException(ForbiddenMessage) else UpgradeRejected(status, message)]
  }

  /** With the context suppressed, a refused upgrade prints exactly what `ConnectStep` raises, and a 403 no server text. */
  lemma ForbiddenTracebackHidesServerText(s: TState, reply: Upgrade)
    ensures reply.Rejected? ==> ConnectTracebackFromNone(reply) == [ConnectStep(s, reply).0.error]
    ensures reply.Rejected? && reply.status == 403 ==>
              forall e :: e in ConnectTracebackFromNone(reply) ==> e == ForbiddenException(ForbiddenMessage)
  {
  }

  /** `write(message)`. */
  function WriteStep(s: TState, message: Json): (r: (Result<(), Error>, TState))
    ensures r.0.Ok? <==> SocketOpen(s)
    ensures r.0.Ok? ==> r.1 == s.(sent := s.sent + [message])
    ensures r.0.Err? ==> r.1 == s
  {
    match s.websocket
    case Unset => (Err(AttributeError), s)
    case Handle(closed, _) =>
      if closed then (Err(ConnectionResetError), s) else (Ok(()), s.(sent := s.sent + [message]))
  }

  /** The payload `json.loads` gets from a data frame: text is stripped and UTF-8 encoded first. */
  function Payload(f: Frame, loads: Loads): Option<Json> {
    match f
    case TextFrame(text) => loads(Utf8.Encode(PyText.Strip(text)))
    case BinaryFrame(bytes) => loads(bytes)
    case _ => None
  }

  /** What `read` does with frame `f`, the frame already taken from the queue of `s`. */
  function Classify(f: Frame, s: TState, loads: Loads): (Result<Json, Error>, TState) {
    match f
    case CloseFrame =>
      var (closing, s1) := CloseStep(s);
      (if closing.Err? then Err(closing.error) else Err(RuntimeError(ClosedByServerMessage)), s1)
    case ClosedFrame => (Err(RuntimeError(AlreadyClosedMessage)), s)
    case ErrorFrame(detail) => (Err(RuntimeError(ReadErrorPrefix + detail + "'")), s)
    case _ =>
      match Payload(f, loads)
      case None => (Err(JsonDecodeError), s)
      case Some(j) => (Ok(j), s)
  }

  /**
   * `read()`. A closed websocket answers with a CLOSED message and consumes
   * nothing; a read with nothing left to receive runs into the read timeout.
   */
  function ReadStep(s: TState, loads: Loads): (r: (Result<Json, Error>, TState))
    ensures r.0.Ok? <==> SocketOpen(s) && s.inbound != [] && Payload(s.inbound[0], loads).Some?
    ensures r.0.Ok? ==> r.1 == s.(inbound := s.inbound[1..]) && Payload(s.inbound[0], loads) == Some(r.0.value)
  {
    match s.websocket
    case Unset => (Err(AttributeError), s)
    case Handle(closed, _) =>
      if closed then (Err(RuntimeError(AlreadyClosedMessage)), s)
      else if s.inbound == [] then (Err(ReadTimeout), s)
      else Classify(s.inbound[0], s.(inbound := s.inbound[1..]), loads)
  }

  /** Every step keeps the state valid. */
  lemma StepsPreserveValid(s: TState, reply: Upgrade, message: Json, loads: Loads)
    requires ValidState(s)
    ensures ValidState(CloseStep(s).1)
    ensures ValidState(ConnectStep(s, reply).1)
    ensures ValidState(WriteStep(s, message).1)
    ensures ValidState(ReadStep(s, loads).1)
  {
  }

  /**
   * The close guard: on a valid state `close()` raises nothing once the
   * websocket exists, leaves `closed` true unless the loop was already closed,
   * never closes a resource twice, and a second `close()` changes nothing.
   */
  lemma CloseIsRepeatable(s: TState)
    requires ValidState(s) && s.websocket.Handle?
    ensures CloseStep(s).0 == Ok(())
    ensures !s.loopClosed ==> IsClosed(CloseStep(s).1) == Ok(true)
    ensures s.loopClosed ==> CloseStep(s).1 == s
    ensures CloseStep(CloseStep(s).1) == (Ok(()), CloseStep(s).1)
  {
  }

  /** Outcome of `read()` for each kind of frame at the head of the queue of an open socket. */
  lemma ReadOutcomes(s: TState, loads: Loads)
    requires ValidState(s) && SocketOpen(s) && s.inbound != []
    ensures var (r, s') := ReadStep(s, loads);
      && s'.inbound == s.inbound[1..] && s'.sent == s.sent
      && (s.inbound[0] == CloseFrame ==>
            r == Err(RuntimeError(ClosedByServerMessage))
            && s' == CloseStep(s.(inbound := s.inbound[1..])).1
            && (!s.loopClosed ==> IsClosed(s') == Ok(true)))
      && (s.inbound[0] == ClosedFrame ==>
            r == Err(RuntimeError(AlreadyClosedMessage)) && s' == s.(inbound := s.inbound[1..]))
      && (s.inbound[0].ErrorFrame? ==>
            && r.Err? && r.error.RuntimeError?
            && PyText.Contains(r.error.message, s.inbound[0].detail)
            && s' == s.(inbound := s.inbound[1..]))
      && (s.inbound[0].TextFrame? ==>
            s' == s.(inbound := s.inbound[1..])
            && r == (match loads(Utf8.Encode(PyText.Strip(s.inbound[0].text)))
                  case Some(j) => Ok(j)
                  case None => Err(JsonDecodeError)))
      && (s.inbound[0].BinaryFrame? ==>
            s' == s.(inbound := s.inbound[1..])
            && r == (match loads(s.inbound[0].bytes) case Some(j) => Ok(j) case None => Err(JsonDecodeError)))
  {
    var f := s.inbound[0];
    if f.ErrorFrame? {
      var m := ReadErrorPrefix + f.detail + "'";
      assert PyText.OccursAt(m, f.detail, |ReadErrorPrefix|);
    }
  }

  /** `__init__`'s renaming of the aiohttp options: what the result holds. */
  ghost predicate RenamedOptions<V>(kwargs: map<string, V>, r: map<string, V>) {
    && "max_content_length" !in r
    && "ssl_options" !in r
    && ("max_content_length" in kwargs ==> "max_msg_size" in r && r["max_msg_size"] == kwargs["max_content_length"])
    && ("ssl_options" in kwargs ==> "ssl" in r && r["ssl"] == kwargs["ssl_options"])
    && (forall k :: k in kwargs && k != "max_content_length" && k != "ssl_options"
                    && !(k == "max_msg_size" && "max_content_length" in kwargs)
                    && !(k == "ssl" && "ssl_options" in kwargs)
                    ==> k in r && r[k] == kwargs[k])
    && (forall k :: k in r ==> k in kwargs
                               || (k == "max_msg_size" && "max_content_length" in kwargs)
                               || (k == "ssl" && "ssl_options" in kwargs))
  }

  /** Moves `max_content_length` to `max_msg_size` and `ssl_options` to `ssl`, as `__init__` does in place. */
  method RenameOptions<V>(kwargs: map<string, V>) returns (r: map<string, V>)
    ensures RenamedOptions(kwargs, r)
  {
    r := kwargs;
    if "max_content_length" in r {
      var size := r["max_content_length"];
      r := r - {"max_content_length"};
      r := r["max_msg_size" := size];
    }
    if "ssl_options" in r {
      var ssl := r["ssl_options"];
      r := r - {"ssl_options"};
      r := r["ssl" := ssl];
    }
  }

  class AiohttpTransport {
    var loopClosed: bool
    var loopRunning: bool
    var websocket: Handle
    var clientSession: Handle
    var inbound: seq<Frame>
    var sent: seq<Json>
    const aiohttpKwargs: map<string, Json>
    const readTimeout: Option<int>
    const writeTimeout: Option<int>

    ghost function State(): TState
      reads this
    {
      TState(loopClosed, loopRunning, websocket, clientSession, inbound, sent)
    }

    ghost predicate Valid()
      reads this
    {
      ValidState(State())
    }

    /** Without an event loop of the caller's, the transport makes a new one (neither closed nor running). */
    constructor (readTimeout: Option<int>, writeTimeout: Option<int>, eventLoop: Option<EventLoop>, kwargs: map<string, Json>)
      ensures Valid()
      ensures State() == TState(
        if eventLoop.Some? then eventLoop.value.closed else false,
        if eventLoop.Some? then eventLoop.value.running else false,
        Unset, Unset, [], [])
      ensures RenamedOptions(kwargs, aiohttpKwargs)
      ensures this.readTimeout == readTimeout && this.writeTimeout == writeTimeout
    {
      var loop := if eventLoop.Some? then eventLoop.value else EventLoop(false, false);
      loopClosed := loop.closed;
      loopRunning := loop.running;
      websocket := Unset;
      clientSession := Unset;
      inbound := [];
      sent := [];
      this.readTimeout := readTimeout;
      this.writeTimeout := writeTimeout;
      var options := RenameOptions(kwargs);
      aiohttpKwargs := options;
    }

    method Connect(reply: Upgrade) returns (r: Result<(), Error>)
      requires Valid()
      modifies this
      ensures Valid()
      ensures (r, State()) == ConnectStep(old(State()), reply)
    {
      clientSession := Handle(false, 0);
      match reply
      case Accepted(frames) =>
        websocket := Handle(false, 0);
        inbound := frames;
        r := Ok(());
      case Rejected(status, message) =>
        if status == 403 {
          r := Err(ForbiddenException(ForbiddenMessage));
        } else {
          r := Err(UpgradeRejected(status, message));
        }
    }

    method Write(message: Json) returns (r: Result<(), Error>)
      requires Valid()
      modifies this
      ensures Valid()
      ensures (r, State()) == WriteStep(old(State()), message)
    {
      if websocket.Unset? {
        return Err(AttributeError);
      }
      if websocket.closed {
        return Err(ConnectionResetError);
      }
      sent := sent + [message];
      r := Ok(());
    }

    method Close() returns (r: Result<(), Error>)
      requires Valid()
      modifies this
      ensures Valid()
      ensures (r, State()) == CloseStep(old(State()))
    {
      if !loopClosed {
        if websocket.Unset? {
          return Err(AttributeError);
        }
        if !websocket.closed {
          websocket := Handle(true, websocket.closeCalls + 1);
        }
        if clientSession.Unset? {
          return Err(AttributeError);
        }
        if !clientSession.closed {
          clientSession := Handle(true, clientSession.closeCalls + 1);
        }
        if !loopRunning {
          loopClosed := true;
        }
      }
      r := Ok(());
    }

    method Read(loads: Loads) returns (r: Result<Json, Error>)
      requires Valid()
      modifies this
      ensures Valid()
      ensures (r, State()) == ReadStep(old(State()), loads)
    {
      if websocket.Unset? {
        return Err(AttributeError);
      }
      var msg: Frame;
      if websocket.closed {
        msg := ClosedFrame;
      } else if inbound == [] {
        return Err(ReadTimeout);
      } else {
        msg := inbound[0];
        inbound := inbound[1..];
      }
      match msg
      case CloseFrame =>
        var closing := Close();
        if closing.Err? {
          return Err(closing.error);
        }
        r := Err(RuntimeError(ClosedByServerMessage));
      case ClosedFrame =>
        r := Err(RuntimeError(AlreadyClosedMessage));
      case ErrorFrame(detail) =>
        r := Err(RuntimeError(ReadErrorPrefix + detail + "'"));
      case _ =>
        var data := Payload(msg, loads);
        r := if data.Some? then Ok(data.value) else Err(JsonDecodeError);
    }

    /** The `closed` property. */
    function Closed(): (r: Result<bool, Error>)
      reads this
      ensures r == IsClosed(State())
    {
      if websocket.Unset? then Err(AttributeError)
      else if websocket.closed then Ok(true)
      else if clientSession.Unset? then Err(AttributeError)
      else Ok(clientSession.closed)
    }
  }
}
