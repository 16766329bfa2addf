/**
 * The chat server's own rules: the token check of `on_connect`, the context
 * `get_context` builds, and which broadcast messages `source_message` passes
 * to a subscriber.
 */
module Chat {
  import opened Wrappers
  import opened JsonData
  import opened PyText

  /** The exceptions the chat rules raise. */
  datatype ChatError =
    | WebSocketConnectionError(message: string, code: string, ctx: string, loc: string)
    | AttributeError            // `.get` or `.lower()` on a value without it
    | KeyError(key: string)     // `message[key]` with the key missing
    | TypeError                 // subscripting a value that is not a dict

  /** A websocket or HTTP connection; its ASGI scope is a dict the app reads and writes. */
  class Connection {
    var scope: map<string, Json>

    constructor (scope: map<string, Json>)
      ensures this.scope == scope
    {
      this.scope := scope;
    }
  }

  /** The GraphQL context: the user's token for a websocket, the request otherwise. */
  datatype Context = UserContext(user: Json) | RequestContext(request: Connection)

  /** `str(value or "")`: the text of a truthy value, "" for a missing or falsy one. */
  function AuthText(authUser: Option<Json>): (text: string)
    ensures authUser.None? || !Truthy(authUser.value) ==> text == ""
    ensures authUser.Some? && authUser.value.Str? ==> text == authUser.value.s
  {
    if authUser.Some? && Truthy(authUser.value) then PyStr(authUser.value) else ""
  }

  /**
   * `text.strip().lower()`: the part of `text` between its leading and its
   * trailing whitespace, lower-cased.
   */
  function Normalise(text: string): (token: string)
    ensures Unpadded(token)
    ensures forall i :: 0 <= i < |token| ==> !('A' <= token[i] <= 'Z')
    ensures exists i, j :: PaddedOutside(text, i, j) && token == Lower(text[i..j])
  {
    var core := Strip(text);
    LowerUnpadded(core);
    assert exists i, j :: PaddedOutside(text, i, j) && Lower(core) == Lower(text[i..j]) by {
      var i, j :| PaddedOutside(text, i, j) && core == text[i..j];
    }
    Lower(core)
  }

  /** Whatever whitespace surrounds an unpadded core, the token is that core lower-cased. */
  lemma NormaliseOf(text: string, i: int, j: int)
    requires PaddedOutside(text, i, j) && Unpadded(text[i..j])
    ensures Normalise(text) == Lower(text[i..j])
  {
    StripUnique(text, i, j);
  }

  /** Lower-casing neither adds nor removes whitespace at the ends. */
  lemma LowerUnpadded(s: string)
    requires Unpadded(s)
    ensures Unpadded(Lower(s))
  {
    if s != [] {
      LowerKeepsSpace(s[0]);
      LowerKeepsSpace(s[|s| - 1]);
    }
  }

  lemma LowerKeepsSpace(c: char)
    ensures IsSpace(LowerChar(c)) <==> IsSpace(c)
  {
  }

  /** A string with no upper-case letter is its own lower case. */
  lemma {:induction false} LowerFixed(s: string)
    requires forall i :: 0 <= i < |s| ==> !('A' <= s[i] <= 'Z')
    ensures Lower(s) == s
  {
    if s != [] {
      LowerFixed(s[1..]);
    }
  }

  /** Normalising is idempotent: a stored token normalises to itself. */
  lemma NormaliseIdempotent(text: string)
    ensures Normalise(Normalise(text)) == Normalise(text)
  {
    var token := Normalise(text);
    StripUnpadded(token);
    LowerFixed(token);
  }

  /**
   * `str(payload.get("authUser") or "").strip().lower()`: "" for a missing or
   * falsy `authUser`, the normalised text of a string, the normalised `repr`
   * of any other value; only a dict payload has a `.get`.
   */
  function AuthToken(payload: Json): (r: Result<string, ChatError>)
    ensures !payload.Obj? ==> r == Err(AttributeError)
    ensures payload.Obj? && (Field(payload, "authUser").None? || !Truthy(Field(payload, "authUser").value)) ==>
              r == Ok("")
    ensures payload.Obj? && Field(payload, "authUser").Some? && Field(payload, "authUser").value.Str? ==>
              r == Ok(Normalise(Field(payload, "authUser").value.s))
    ensures payload.Obj? && Field(payload, "authUser").Some? && Truthy(Field(payload, "authUser").value)
            && !Field(payload, "authUser").value.Str? ==>
              r == Ok(Normalise(Repr(Field(payload, "authUser").value)))
  {
    if payload.Obj? then Ok(Normalise(AuthText(Lookup(payload.fields, "authUser")))) else Err(AttributeError)
  }

  /**
   * The value `on_connect` stores under "user_token": None for an empty token,
   * the token itself otherwise; a token holding "ban" anywhere is refused.
   */
  function Admit(payload: Json): (r: Result<Json, ChatError>)
    ensures !payload.Obj? ==> r == Err(AttributeError)
    ensures payload.Obj? ==> (r.Ok? <==> !Contains(AuthToken(payload).value, "ban"))
    ensures payload.Obj? && Contains(AuthToken(payload).value, "ban") ==>
              r == Err(WebSocketConnectionError("User is banned", "BANNED", AuthToken(payload).value, "__ROOT__"))
    ensures r.Ok? ==> (r.value == Null <==> AuthToken(payload).value == "")
    ensures r.Ok? && r.value != Null ==> r.value == Str(AuthToken(payload).value)
  {
    match AuthToken(payload)
    case Err(e) => Err(e)
    case Ok(token) =>
      if Contains(token, "ban") then
        Err(WebSocketConnectionError("User is banned", "BANNED", token, "__ROOT__"))
      else Ok(if token == "" then Null else Str(token))
  }

  /** `on_connect(ws, payload)`: stores the admitted token in the scope, or raises and stores nothing. */
  method OnConnect(ws: Connection, payload: Json) returns (r: Result<(), ChatError>)
    modifies ws
    ensures Admit(payload).Err? ==> r == Err(Admit(payload).error) && ws.scope == old(ws.scope)
    ensures Admit(payload).Ok? ==> r == Ok(()) && ws.scope == old(ws.scope)["user_token" := Admit(payload).value]
  {
    var admitted := Admit(payload);
    match admitted
    case Err(e) =>
      r := Err(e);
    case Ok(userToken) =>
      ws.scope := ws.scope["user_token" := userToken];
      r := Ok(());
  }

  /** `get_context(request)`; ASGI puts "type" in every scope. */
  function GetContext(request: Connection): (ctx: Context)
    requires "type" in request.scope
    reads request
    ensures request.scope["type"] == Str("websocket") <==> ctx.UserContext?
    ensures ctx.UserContext? ==> ctx.user == if "user_token" in request.scope then request.scope["user_token"] else Null
    ensures ctx.RequestContext? ==> ctx.request == request
  {
    if request.scope["type"] == Str("websocket") then
      UserContext(if "user_token" in request.scope then request.scope["user_token"] else Null)
    else RequestContext(request)
  }

  /** `info.context.get("user")`: the token of a websocket context, None otherwise. */
  function ContextUser(ctx: Context): Option<string> {
    if ctx.UserContext? && ctx.user.Str? then Some(ctx.user.s) else None
  }

  /**
   * After an accepted `on_connect`, the user the subscription sees is the
   * normalised token, or None when the token is empty.
   */
  lemma AdmittedUser(ws: Connection, payload: Json)
    requires "type" in ws.scope && ws.scope["type"] == Str("websocket")
    requires Admit(payload).Ok? && "user_token" in ws.scope && ws.scope["user_token"] == Admit(payload).value
    ensures var token := AuthToken(payload).value;
      && ContextUser(GetContext(ws)) == (if token == "" then None else Some(token))
      && (ContextUser(GetContext(ws)).Some? ==> !Contains(ContextUser(GetContext(ws)).value, "ban"))
  {
  }

  /** `resolve_message`: the subscription field resolves to the message itself. */
  function ResolveMessage(obj: Json): (r: Json)
    ensures r == obj
  {
    obj
  }

  /** A string-valued field of a message, or why `message[key].lower()` raises. */
  function TextField(message: Json, key: string): (r: Result<string, ChatError>)
    ensures r.Ok? <==> Field(message, key).Some? && Field(message, key).value.Str?
    ensures r.Ok? ==> r.value == Field(message, key).value.s
  {
    if !message.Obj? then Err(TypeError)
    else match Lookup(message.fields, key)
      case None => Err(KeyError(key))
      case Some(Str(s)) => Ok(s)
      case Some(_) => Err(AttributeError)
  }

  /**
   * Whether `source_message` yields `message` to `user`: when it is addressed
   * to "@all", or when the user is its recipient or its sender, compared
   * after lower-casing both; the sender is looked at only when the message is
   * not for "@all".
   */
  function Route(user: Option<string>, message: Json): (r: Result<bool, ChatError>)
    ensures TextField(message, "to").Ok? && Lower(TextField(message, "to").value) == "@all" ==> r == Ok(true)
    ensures TextField(message, "to").Ok? && TextField(message, "sender").Ok? ==>
              var to := Lower(TextField(message, "to").value);
              var sender := Lower(TextField(message, "sender").value);
              r == Ok(to == "@all" || user == Some(to) || user == Some(sender))
    ensures r.Err? <==> TextField(message, "to").Err?
                        || (Lower(TextField(message, "to").value) != "@all" && TextField(message, "sender").Err?)
  {
    match TextField(message, "to")
    case Err(e) => Err(e)
    case Ok(to) =>
      if Lower(to) == "@all" then Ok(true)
      else match TextField(message, "sender")
        case Err(e) => Err(e)
        case Ok(sender) => Ok(user == Some(Lower(to)) || user == Some(Lower(sender)))
  }

  /**
   * The indices of the events yielded to `user`, in order, and the error that
   * ends the subscription early, if any.
   */
  function Selected(user: Option<string>, events: seq<Json>): (r: Result<seq<nat>, ChatError>)
    ensures r.Ok? ==> forall k :: 0 <= k < |r.value| ==> r.value[k] < |events|
    decreases |events|
  {
    if events == [] then Ok([])
    else
      var n := |events| - 1;
      match Selected(user, events[..n])
      case Err(e) => Err(e)
      case Ok(picked) =>
        match Route(user, events[n])
        case Err(e) => Err(e)
        case Ok(yes) => Ok(if yes then picked + [n] else picked)
  }

  /** The events at the given indices. */
  function Pick(events: seq<Json>, picked: seq<nat>): (r: seq<Json>)
    requires forall k :: 0 <= k < |picked| ==> picked[k] < |events|
    ensures |r| == |picked| && forall k :: 0 <= k < |picked| ==> r[k] == events[picked[k]]
  {
    seq(|picked|, k requires 0 <= k < |picked| => events[picked[k]])
  }

  /** The indices yielded are routed to the user and strictly increasing: each event is yielded at most once, in order. */
  lemma {:induction false} SelectedInOrder(user: Option<string>, events: seq<Json>)
    requires Selected(user, events).Ok?
    ensures var picked := Selected(user, events).value;
      && (forall k :: 0 <= k < |picked| ==> Route(user, events[picked[k]]) == Ok(true))
      && (forall k, l :: 0 <= k < l < |picked| ==> picked[k] < picked[l])
    decreases |events|
  {
    if events != [] {
      var n := |events| - 1;
      var prefix := events[..n];
      SelectedInOrder(user, prefix);
      var before := Selected(user, prefix).value;
      forall k | 0 <= k < |before| ensures events[before[k]] == prefix[before[k]] {
      }
    }
  }

  /** Every event the subscription went through without raising is yielded exactly when it is routed to the user. */
  lemma {:induction false} SelectedComplete(user: Option<string>, events: seq<Json>, i: nat)
    requires Selected(user, events).Ok? && i < |events|
    ensures Route(user, events[i]).Ok?
    ensures Route(user, events[i]) == Ok(true) ==> i in Selected(user, events).value
    decreases |events|
  {
    var n := |events| - 1;
    if i < n {
      var prefix := events[..n];
      assert prefix[i] == events[i];
      SelectedComplete(user, prefix, i);
    }
  }

  /** A subscription that raises does so at an event the rule cannot read, after the events before it went through. */
  lemma SelectedFailsAt(user: Option<string>, events: seq<Json>)
    requires Selected(user, events).Err?
    ensures exists j :: 0 <= j < |events| && Route(user, events[j]) == Err(Selected(user, events).error)
                        && Selected(user, events[..j]).Ok?
  {
    var j := FailingEvent(user, events);
    assert Route(user, events[j]) == Err(Selected(user, events).error) && Selected(user, events[..j]).Ok?;
  }

  /** The index of the event whose routing error ends the subscription. */
  function FailingEvent(user: Option<string>, events: seq<Json>): (j: nat)
    requires Selected(user, events).Err?
    ensures j < |events| && Route(user, events[j]) == Err(Selected(user, events).error)
    ensures Selected(user, events[..j]).Ok?
    decreases |events|
  {
    var n := |events| - 1;
    if Selected(user, events[..n]).Err? then
      var j := FailingEvent(user, events[..n]);
      assert events[..n][..j] == events[..j];
      j
    else n
  }

  /** Without a user, only messages addressed to "@all" are yielded. */
  lemma NoUserOnlyBroadcast(events: seq<Json>, k: nat)
    requires Selected(None, events).Ok? && k < |Selected(None, events).value|
    ensures var m := events[Selected(None, events).value[k]];
      TextField(m, "to").Ok? && Lower(TextField(m, "to").value) == "@all"
  {
    SelectedInOrder(None, events);
  }

  /** Once the subscription has raised, later events change nothing. */
  lemma {:induction false} SelectedStopsAtError(user: Option<string>, events: seq<Json>, i: nat)
    requires i <= |events| && Selected(user, events[..i]).Err?
    ensures Selected(user, events) == Selected(user, events[..i])
    decreases |events| - i
  {
    if i < |events| {
      var n := |events| - 1;
      assert events[..n][..i] == events[..i];
      SelectedStopsAtError(user, events[..n], i);
    } else {
      assert events[..i] == events;
    }
  }

  /**
   * The loop of `source_message` over the subscriber's events, for the
   * context the subscription runs in: the messages it yields, in order, and
   * the error it stops with.
   */
  method SourceMessage(context: Context, events: seq<Json>) returns (yielded: seq<Json>, failure: Option<ChatError>)
    ensures Selected(ContextUser(context), events).Ok? ==>
              failure.None? && yielded == Pick(events, Selected(ContextUser(context), events).value)
    ensures Selected(ContextUser(context), events).Err? ==>
              failure == Some(Selected(ContextUser(context), events).error)
    ensures failure.Some? ==>
      exists j :: 0 <= j < |events| && Selected(ContextUser(context), events[..j]).Ok?
                  && Route(ContextUser(context), events[j]) == Err(failure.value)
                  && yielded == Pick(events, Selected(ContextUser(context), events[..j]).value)
  {
    var user := ContextUser(context);
    yielded := [];
    ghost var picked: seq<nat> := [];
    var i := 0;
    while i < |events|
      invariant 0 <= i <= |events|
      invariant Selected(user, events[..i]) == Ok(picked)
      invariant forall k :: 0 <= k < |picked| ==> picked[k] < i
      invariant yielded == Pick(events, picked)
    {
      var message := events[i];
      assert events[..i + 1][..i] == events[..i];
      var route := Route(user, message);
      if route.Err? {
        SelectedStopsAtError(user, events, i + 1);
        failure := Some(route.error);
        return;
      }
      if route.value {
        yielded := yielded + [message];
        picked := picked + [i];
      }
      i := i + 1;
    }
    assert events[..i] == events;
    failure := None;
  }
}
