/**
 * The query session driver (`GremlinDriver`): builds the request envelope,
 * sends it, and reads frames while the server answers 206 (partial content).
 */
module Driver {
  import opened Wrappers
  import opened JsonData
  import opened Transport

  /** The read and write timeouts the driver gives its transport, in seconds. */
  const DriverTimeout := 3600

  /** The request envelope sent for one query; `requestId` stands for the fresh `uuid4()`. */
  function PrepareMessage(query: string, traversalSource: string, requestId: string): Json
  {
    Obj([("requestId", Str(requestId)),
         ("args", Obj([("gremlin", Str(query)),
                       ("bindings", Obj([])),
                       ("language", Str("gremlin-groovy")),
                       ("aliases", Obj([("g", Str(traversalSource))])),
                       ("session", Str(requestId))])),
         ("op", Str("eval")),
         ("processor", Str(""))])
  }

  /** The `args` part of the envelope. */
  lemma ArgsEnvelope(query: string, traversalSource: string, requestId: string)
    ensures var args := PrepareMessage(query, traversalSource, requestId).fields[1].1;
      && Field(args, "gremlin") == Some(Str(query))
      && Field(args, "bindings") == Some(Obj([]))
      && Field(args, "language") == Some(Str("gremlin-groovy"))
      && Field(args, "aliases") == Some(Obj([("g", Str(traversalSource))]))
      && Field(args, "session") == Some(Str(requestId))
  {
    var args := PrepareMessage(query, traversalSource, requestId).fields[1].1;
    LookupAt(args.fields, "gremlin", 0);
    LookupAt(args.fields, "bindings", 1);
    LookupAt(args.fields, "language", 2);
    LookupAt(args.fields, "aliases", 3);
    LookupAt(args.fields, "session", 4);
  }

  /**
   * The envelope: `requestId` and `args.session` are the same id, the query is
   * evaluated as gremlin-groovy with no bindings, `g` is aliased to the
   * configured traversal source, `op` is "eval" and `processor` is empty.
   */
  lemma PrepareMessageEnvelope(query: string, traversalSource: string, requestId: string)
    ensures var m := PrepareMessage(query, traversalSource, requestId);
      && Field(m, "requestId") == Some(Str(requestId))
      && Field(m, "op") == Some(Str("eval"))
      && Field(m, "processor") == Some(Str(""))
      && Field(m, "args").Some?
      && var args := Field(m, "args").value;
      && Field(args, "gremlin") == Some(Str(query))
      && Field(args, "bindings") == Some(Obj([]))
      && Field(args, "language") == Some(Str("gremlin-groovy"))
      && Field(args, "aliases") == Some(Obj([("g", Str(traversalSource))]))
      && Field(args, "session") == Some(Str(requestId))
  {
    var m := PrepareMessage(query, traversalSource, requestId);
    LookupAt(m.fields, "requestId", 0);
    LookupAt(m.fields, "args", 1);
    LookupAt(m.fields, "op", 2);
    LookupAt(m.fields, "processor", 3);
    ArgsEnvelope(query, traversalSource, requestId);
  }

  /** What a server reads out of a request envelope. */
  datatype Request = Request(requestId: string, gremlin: string, traversalSource: string)

  /**
   * The reading of an envelope: it must be a session-less "eval" of
   * gremlin-groovy with no bindings, alias "g" and `session == requestId`.
   */
  function ParseRequest(m: Json): Option<Request> {
    var id := Field(m, "requestId");
    var args := Field(m, "args");
    if !(id.Some? && id.value.Str? && args.Some?) then None
    else if Field(m, "op") != Some(Str("eval")) || Field(m, "processor") != Some(Str("")) then None
    else
      var a := args.value;
      var query := Field(a, "gremlin");
      var aliases := Field(a, "aliases");
      if !(query.Some? && query.value.Str? && aliases.Some?) then None
      else if Field(a, "bindings") != Some(Obj([])) || Field(a, "language") != Some(Str("gremlin-groovy")) then None
      else if Field(a, "session") != id then None
      else
        var g := Field(aliases.value, "g");
        if g.Some? && g.value.Str? then Some(Request(id.value.s, query.value.s, g.value.s)) else None
  }

  /** The envelope carries exactly the query, the alias target and the id it was built from. */
  lemma PrepareMessageRoundTrip(query: string, traversalSource: string, requestId: string)
    ensures ParseRequest(PrepareMessage(query, traversalSource, requestId))
            == Some(Request(requestId, query, traversalSource))
  {
    PrepareMessageEnvelope(query, traversalSource, requestId);
    LookupAt([("g", Str(traversalSource))], "g", 0);
  }

  /**
   * `response.get("status", {}).get("code")`: the code, or `Null` for None
   * when either key is missing; AttributeError when `.get` meets a non-dict.
   */
  function StatusCode(response: Json): (r: Result<Json, Error>)
    ensures r.Ok? <==> response.Obj? && (Field(response, "status").Some? ==> Field(response, "status").value.Obj?)
    ensures r.Ok? && Field(response, "status").None? ==> r.value == Null
    ensures r.Ok? && Field(response, "status").Some? ==>
              r.value == (if Field(Field(response, "status").value, "code").Some?
                          then Field(Field(response, "status").value, "code").value else Null)
    ensures r.Err? ==> r.error == AttributeError
  {
    if !response.Obj? then Err(AttributeError)
    else match Lookup(response.fields, "status")
      case None => Ok(Null)
      case Some(status) =>
        if !status.Obj? then Err(AttributeError)
        else match Lookup(status.fields, "code")
          case None => Ok(Null)
          case Some(code) => Ok(code)
  }

  /** After the final frame: close the transport when its code is exactly 200. */
  function Finish(s: TState, responses: seq<Json>, code: Json): (Result<seq<Json>, Error>, TState) {
    if code == Int(200) then
      var (closing, s1) := CloseStep(s);
      (if closing.Err? then Err(closing.error) else Ok(responses), s1)
    else (Ok(responses), s)
  }

  /** The reading loop of `execute_query`, with `acc` the frames collected so far. */
  function Drain(s: TState, loads: Loads, acc: seq<Json>): (Result<seq<Json>, Error>, TState)
    decreases |s.inbound|
  {
    var (read, s1) := ReadStep(s, loads);
    if read.Err? then (Err(read.error), s1)
    else
      var code := StatusCode(read.value);
      if code.Err? then (Err(code.error), s1)
      else if code.value == Int(206) then Drain(s1, loads, acc + [read.value])
      else Finish(s1, acc + [read.value], code.value)
  }

  /** `execute_query`: connect, send the envelope, then read until the code is not 206. */
  function Execute(s: TState, traversalSource: string, query: string, requestId: string,
                   reply: Upgrade, loads: Loads): (Result<seq<Json>, Error>, TState)
  {
    var (connected, s1) := ConnectStep(s, reply);
    if connected.Err? then (Err(connected.error), s1)
    else
      var (written, s2) := WriteStep(s1, PrepareMessage(query, traversalSource, requestId));
      if written.Err? then (Err(written.error), s2)
      else Drain(s2, loads, [])
  }

  /**
   * A complete paginated reply at the head of `frames`: the payloads of the
   * first |rs| frames, in arrival order, all coded 206 but the last, whose
   * code (possibly missing) is not 206.
   */
  ghost predicate Paged(loads: Loads, frames: seq<Frame>, rs: seq<Json>) {
    && 1 <= |rs| <= |frames|
    && (forall i :: 0 <= i < |rs| ==> Payload(frames[i], loads) == Some(rs[i]))
    && (forall i :: 0 <= i < |rs| - 1 ==> StatusCode(rs[i]) == Ok(Int(206)))
    && StatusCode(rs[|rs| - 1]).Ok?
    && StatusCode(rs[|rs| - 1]).value != Int(206)
  }

  /** The code of the last frame of a non-empty reply. */
  function LastCode(rs: seq<Json>): Json
    requires rs != [] && StatusCode(rs[|rs| - 1]).Ok?
  {
    StatusCode(rs[|rs| - 1]).value
  }

  /** One turn of the reading loop on a data frame whose status code can be read. */
  lemma DrainStep(s: TState, loads: Loads, acc: seq<Json>)
    requires SocketOpen(s) && s.inbound != [] && Payload(s.inbound[0], loads).Some?
    requires StatusCode(Payload(s.inbound[0], loads).value).Ok?
    ensures var j := Payload(s.inbound[0], loads).value;
      var s1 := s.(inbound := s.inbound[1..]);
      var code := StatusCode(j).value;
      Drain(s, loads, acc) == if code == Int(206) then Drain(s1, loads, acc + [j]) else Finish(s1, acc + [j], code)
  {
  }

  /** A paginated reply of two or more frames opens with a 206 frame and continues with a shorter one. */
  lemma PagedTail(loads: Loads, frames: seq<Frame>, rs: seq<Json>)
    requires Paged(loads, frames, rs) && |rs| > 1
    ensures Payload(frames[0], loads) == Some(rs[0]) && StatusCode(rs[0]) == Ok(Int(206))
    ensures Paged(loads, frames[1..], rs[1..])
  {
    var rest := rs[1..];
    forall i | 0 <= i < |rest| ensures Payload(frames[1..][i], loads) == Some(rest[i]) {
      assert frames[1..][i] == frames[i + 1];
    }
    forall i | 0 <= i < |rest| - 1 ensures StatusCode(rest[i]) == Ok(Int(206)) {
      assert rest[i] == rs[i + 1];
    }
  }

  /** A paginated reply is read in full, in order, and the transport is closed exactly on 200. */
  lemma {:induction false} DrainReadsPage(s: TState, loads: Loads, acc: seq<Json>, rs: seq<Json>)
    requires SocketOpen(s)
    requires Paged(loads, s.inbound, rs)
    ensures Drain(s, loads, acc) == Finish(s.(inbound := s.inbound[|rs|..]), acc + rs, LastCode(rs))
    decreases |rs|
  {
    var s1 := s.(inbound := s.inbound[1..]);
    DrainStep(s, loads, acc);
    if |rs| > 1 {
      var rest := rs[1..];
      PagedTail(loads, s.inbound, rs);
      DrainReadsPage(s1, loads, acc + [rs[0]], rest);
      assert acc + [rs[0]] + rest == acc + rs;
      assert s1.inbound[|rest|..] == s.inbound[|rs|..];
    } else {
      assert acc + [rs[0]] == acc + rs;
    }
  }

  /** A 206 frame followed by a paginated reply is a longer paginated reply. */
  lemma PagedCons(loads: Loads, frames: seq<Frame>, j: Json, tail: seq<Json>)
    requires frames != [] && Payload(frames[0], loads) == Some(j) && StatusCode(j) == Ok(Int(206))
    requires Paged(loads, frames[1..], tail)
    ensures Paged(loads, frames, [j] + tail)
  {
    var page := [j] + tail;
    forall i | 0 <= i < |page| ensures Payload(frames[i], loads) == Some(page[i]) {
      if i > 0 {
        assert frames[i] == frames[1..][i - 1];
      }
    }
  }

  /** A successful `Drain` read a data frame whose status code could be read. */
  lemma DrainOkFirst(s: TState, loads: Loads, acc: seq<Json>)
    requires SocketOpen(s) && Drain(s, loads, acc).0.Ok?
    ensures s.inbound != [] && Payload(s.inbound[0], loads).Some?
    ensures StatusCode(Payload(s.inbound[0], loads).value).Ok?
  {
  }

  /** Whatever `Drain` returns successfully is a paginated reply from the head of the queue. */
  lemma {:induction false} DrainResultIsPage(s: TState, loads: Loads, acc: seq<Json>)
    requires SocketOpen(s)
    requires Drain(s, loads, acc).0.Ok?
    ensures var rs := Drain(s, loads, acc).0.value;
      |acc| < |rs| && rs[..|acc|] == acc && Paged(loads, s.inbound, rs[|acc|..])
    decreases |s.inbound|
  {
    DrainOkFirst(s, loads, acc);
    DrainStep(s, loads, acc);
    var j := Payload(s.inbound[0], loads).value;
    var s1 := s.(inbound := s.inbound[1..]);
    var rs := Drain(s, loads, acc).0.value;
    if StatusCode(j).value == Int(206) {
      assert rs == Drain(s1, loads, acc + [j]).0.value;
      DrainResultIsPage(s1, loads, acc + [j]);
      var tail := rs[|acc| + 1..];
      assert rs[..|acc|] == (acc + [j])[..|acc|] == acc;
      assert rs[|acc|..] == [j] + tail;
      PagedCons(loads, s.inbound, j, tail);
    } else {
      assert rs == acc + [j];
    }
  }

  /** At most one paginated reply sits at the head of a queue. */
  lemma {:induction false} PagedUnique(loads: Loads, frames: seq<Frame>, rs1: seq<Json>, rs2: seq<Json>)
    requires Paged(loads, frames, rs1) && Paged(loads, frames, rs2)
    ensures rs1 == rs2
  {
    if |rs1| < |rs2| {
      assert false;
    } else if |rs2| < |rs1| {
      assert false;
    } else {
      forall i | 0 <= i < |rs1| ensures rs1[i] == rs2[i] {
        assert Some(rs1[i]) == Payload(frames[i], loads) == Some(rs2[i]);
      }
    }
  }

  /**
   * A close notification after a run of 206 frames fails the query with the
   * server-close error, and the transport reports closed afterwards.
   */
  lemma {:induction false} DrainServerClose(s: TState, loads: Loads, acc: seq<Json>, k: nat)
    requires ValidState(s) && SocketOpen(s) && !s.loopClosed
    requires k < |s.inbound| && s.inbound[k] == CloseFrame
    requires forall i :: 0 <= i < k ==>
               Payload(s.inbound[i], loads).Some? && StatusCode(Payload(s.inbound[i], loads).value) == Ok(Int(206))
    ensures Drain(s, loads, acc).0 == Err(RuntimeError(ClosedByServerMessage))
    ensures IsClosed(Drain(s, loads, acc).1) == Ok(true)
    decreases k
  {
    var s1 := s.(inbound := s.inbound[1..]);
    if k > 0 {
      var j := Payload(s.inbound[0], loads).value;
      assert ReadStep(s, loads) == (Ok(j), s1);
      forall i | 0 <= i < k - 1
        ensures Payload(s1.inbound[i], loads).Some? && StatusCode(Payload(s1.inbound[i], loads).value) == Ok(Int(206))
      {
        assert s1.inbound[i] == s.inbound[i + 1];
      }
      DrainServerClose(s1, loads, acc + [j], k - 1);
    }
  }

  /**
   * A server that stops sending while every frame so far was coded 206 makes
   * the query fail with the read timeout once the queue is exhausted.
   */
  lemma {:induction false} DrainTimesOut(s: TState, loads: Loads, acc: seq<Json>)
    requires SocketOpen(s)
    requires forall i :: 0 <= i < |s.inbound| ==>
               Payload(s.inbound[i], loads).Some? && StatusCode(Payload(s.inbound[i], loads).value) == Ok(Int(206))
    ensures Drain(s, loads, acc) == (Err(ReadTimeout), s.(inbound := []))
    decreases |s.inbound|
  {
    if s.inbound != [] {
      var s1 := s.(inbound := s.inbound[1..]);
      var j := Payload(s.inbound[0], loads).value;
      assert ReadStep(s, loads) == (Ok(j), s1);
      forall i | 0 <= i < |s1.inbound|
        ensures Payload(s1.inbound[i], loads).Some? && StatusCode(Payload(s1.inbound[i], loads).value) == Ok(Int(206))
      {
        assert s1.inbound[i] == s.inbound[i + 1];
      }
      DrainTimesOut(s1, loads, acc + [j]);
      assert s1.(inbound := []) == s.(inbound := []);
    }
  }

  /**
   * `execute_query` against a server that accepts the upgrade: it succeeds
   * exactly on a paginated reply, returns that reply in arrival order, sends
   * one envelope, and leaves the transport closed exactly when the final code
   * is 200 and the event loop was not already closed (on a closed loop
   * `close` does nothing).
   */
  lemma ExecuteAnswersPage(s: TState, traversalSource: string, query: string, requestId: string,
                           frames: seq<Frame>, loads: Loads, rs: seq<Json>)
    requires ValidState(s)
    ensures var (r, s') := Execute(s, traversalSource, query, requestId, Accepted(frames), loads);
      (r == Ok(rs) <==> Paged(loads, frames, rs))
      && (r == Ok(rs) ==>
            && s'.sent == s.sent + [PrepareMessage(query, traversalSource, requestId)]
            && s'.inbound == frames[|rs|..]
            && IsClosed(s') == Ok(LastCode(rs) == Int(200) && !s.loopClosed))
  {
    var s2 := ConnectStep(s, Accepted(frames)).1;
    var s3 := WriteStep(s2, PrepareMessage(query, traversalSource, requestId)).1;
    assert SocketOpen(s3) && s3.inbound == frames;
    var r := Execute(s, traversalSource, query, requestId, Accepted(frames), loads).0;
    if Paged(loads, frames, rs) {
      DrainReadsPage(s3, loads, [], rs);
      assert [] + rs == rs;
    }
    if r == Ok(rs) {
      DrainResultIsPage(s3, loads, []);
      assert rs[0..] == rs;
      DrainReadsPage(s3, loads, [], rs);
    }
  }

  /** A refused upgrade fails the query before anything is sent; for a 403 the raised message carries no server text. */
  lemma ExecuteRejected(s: TState, traversalSource: string, query: string, requestId: string,
                        status: int, message: string, loads: Loads)
    ensures var (r, s') := Execute(s, traversalSource, query, requestId, Rejected(status, message), loads);
      && r.Err?
      && s'.sent == s.sent
      && (status == 403 ==> r == Err(ForbiddenException(ForbiddenMessage)))
      && (status != 403 ==> r == Err(UpgradeRejected(status, message)))
  {
  }

  class GremlinDriver {
    const gremlinUrl: string
    const traversalSource: string
    const transporter: AiohttpTransport

    /** The traversal source defaults to "g"; without a caller's loop the transport makes a fresh one. */
    constructor (gremlinUrl: string, traversalSource: string := "g", eventLoop: Option<EventLoop> := None)
      ensures this.gremlinUrl == gremlinUrl && this.traversalSource == traversalSource
      ensures fresh(transporter) && transporter.Valid()
      ensures transporter.readTimeout == Some(DriverTimeout) && transporter.writeTimeout == Some(DriverTimeout)
      ensures transporter.aiohttpKwargs == map[]
      ensures transporter.State() == TState(
        eventLoop.Some? && eventLoop.value.closed,
        eventLoop.Some? && eventLoop.value.running,
        Unset, Unset, [], [])
    {
      this.gremlinUrl := gremlinUrl;
      this.traversalSource := traversalSource;
      var t := new AiohttpTransport(Some(DriverTimeout), Some(DriverTimeout), eventLoop, map[]);
      transporter := t;
    }

    method ExecuteQuery(query: string, requestId: string, reply: Upgrade, loads: Loads)
      returns (r: Result<seq<Json>, Error>)
      requires transporter.Valid()
      modifies transporter
      ensures transporter.Valid()
      ensures (r, transporter.State())
              == Execute(old(transporter.State()), traversalSource, query, requestId, reply, loads)
    {
      var connected := transporter.Connect(reply);
      if connected.Err? {
        return Err(connected.error);
      }
      var message := PrepareMessage(query, traversalSource, requestId);
      var written := transporter.Write(message);
      if written.Err? {
        return Err(written.error);
      }
      ghost var start := transporter.State();
      var responses: seq<Json> := [];
      var response := transporter.Read(loads);
      if response.Err? {
        return Err(response.error);
      }
      responses := responses + [response.value];
      var code := StatusCode(response.value);
      if code.Err? {
        return Err(code.error);
      }
      while code.value == Int(206)
        invariant transporter.Valid()
        invariant code.Ok?
        invariant Drain(start, loads, []) ==
                  if code.value == Int(206) then Drain(transporter.State(), loads, responses)
                  else Finish(transporter.State(), responses, code.value)
        decreases |transporter.inbound|
      {
        response := transporter.Read(loads);
        if response.Err? {
          return Err(response.error);
        }
        code := StatusCode(response.value);
        if code.Err? {
          return Err(code.error);
        }
        responses := responses + [response.value];
      }
      if code.value == Int(200) {
        var closing := transporter.Close();
        if closing.Err? {
          return Err(closing.error);
        }
      }
      r := Ok(responses);
    }
  }
}
