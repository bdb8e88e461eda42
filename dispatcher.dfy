/** The servers' name -> handler table and the branch that turns a decoded call into a
    result, shared by rUDP_s.py, serverf.py, server_frontend.py and final/server.py, plus the
    variant of test/server.py. */
module Dispatcher {
  import opened Wire
  import opened Codec

  /** What a registered handler does with the (args, kwargs) it is given: return a JSON value,
      or raise an exception whose text is `message`. */
  datatype Outcome = Returns(value: Value) | Raises(message: string)

  type Handler = (Value, Value) -> Outcome

  /** `self._methods` */
  type Registry = map<string, Handler>

  /** How one iteration of a serve loop ended. */
  datatype Served =
    | BadRequest    // the request did not decode; an error string was sent instead
    | Replied       // one response was sent, no acknowledgment awaited
    | ReplyAcked    // the response was acknowledged by the client
    | GaveUp        // MAX_RETRIES response timeouts; failure logged
    | Skipped       // the datagram was dropped without any reply
    | Crashed       // an exception escaped the serve loop

  function NotFound(name: string): string {
    "Error: Function '" + name + "' not found."
  }

  function ExecutionError(message: string): string {
    "Error while executing function: " + message
  }

  /** `str(name)` for a JSON scalar, as it appears inside the f-string. */
  function ScalarText(v: Value): string
    requires !v.Arr? && !v.Obj?
  {
    match v
    case Null => "None"
    case Bool(b) => if b then "True" else "False"
    case Int(i) => IntText(i)
    case Str(s) => s
  }

  /** The try / `if function_name in self._methods` branch: the handler's result, a not-found
      string, or an execution-error string. A list or dict name is unhashable, so the `in`
      test itself raises and is caught as an execution error. */
  function Dispatch(methods: Registry, name: Value, args: Value, kwargs: Value): (r: Value)
    ensures name.Str? && name.s in methods && methods[name.s](args, kwargs).Returns?
            ==> r == methods[name.s](args, kwargs).value
    ensures name.Str? && name.s in methods && methods[name.s](args, kwargs).Raises?
            ==> r == Str(ExecutionError(methods[name.s](args, kwargs).message))
    ensures name.Str? && name.s !in methods ==> r == Str(NotFound(name.s))
    ensures name.Arr? ==> r == Str(ExecutionError("unhashable type: 'list'"))
    ensures name.Obj? ==> r == Str(ExecutionError("unhashable type: 'dict'"))
    ensures !name.Str? && !name.Arr? && !name.Obj? ==> r == Str(NotFound(ScalarText(name)))
  {
    match name
    case Str(s) =>
      if s in methods then
        match methods[s](args, kwargs)
        case Returns(v) => v
        case Raises(m) => Str(ExecutionError(m))
      else Str(NotFound(s))
    case Arr(_) => Str(ExecutionError("unhashable type: 'list'"))
    case Obj(_) => Str(ExecutionError("unhashable type: 'dict'"))
    case _ => Str(NotFound(ScalarText(name)))
  }

  /** `"Error: Invalid request format. {e}"` */
  function InvalidFormat(detail: string): string {
    "Error: Invalid request format. " + detail
  }

  /** The one reply that rUDP_s.py and serverf.py send after their ACK: the response envelope
      echoing the request's sequence number, or the invalid-format string. */
  function Reply(methods: Registry, data: Frame): Frame {
    match DecodeRequest(data)
    case Some(req) =>
      EncodeResponse(Dispatch(methods, req.call.name, req.call.args, req.call.kwargs), req.seqNo)
    case None => Text(InvalidFormat(UnpackError(data, 4)))
  }

  /** test/server.py: `self._methods.get(function_name, default)(*args, **kwargs)`, with no
      try around it. None means an exception escapes: the handler raised, the name is
      unhashable, or the default lambda cannot spread the arguments. */
  function BatchDispatch(methods: Registry, name: Value, args: Value, kwargs: Value): (r: Option<Value>)
    ensures name.Str? && name.s in methods
            ==> (r.Some? <==> methods[name.s](args, kwargs).Returns?)
    ensures name.Str? && name.s in methods && r.Some? ==> r.value == methods[name.s](args, kwargs).value
    ensures !(name.Str? && name.s in methods)
            ==> (r == Some(Str("Function not found"))
                 <==> !name.Arr? && !name.Obj? && (args.Arr? || args.Str? || args.Obj?) && kwargs.Obj?)
    ensures r.Some? && !(name.Str? && name.s in methods) ==> r.value == Str("Function not found")
  {
    if name.Arr? || name.Obj? then None
    else if name.Str? && name.s in methods then
      match methods[name.s](args, kwargs)
      case Returns(v) => Some(v)
      case Raises(_) => None
    else if (args.Arr? || args.Str? || args.Obj?) && kwargs.Obj? then Some(Str("Function not found"))
    else None
  }

  /** `register_method` binds or rebinds one name: dispatching that name now runs the new
      handler and every other name dispatches as before. */
  lemma RegisterThenDispatch(methods: Registry, name: string, h: Handler, other: Value, args: Value, kwargs: Value)
    ensures Dispatch(methods[name := h], Str(name), args, kwargs)
         == (match h(args, kwargs) case Returns(v) => v case Raises(m) => Str(ExecutionError(m)))
    ensures other != Str(name) ==> Dispatch(methods[name := h], other, args, kwargs) == Dispatch(methods, other, args, kwargs)
  {
  }

  /** Every failure the dispatcher absorbs comes back as an ordinary string result starting
      with "Error", never as a transport failure. */
  lemma FailuresAreErrorStrings(methods: Registry, name: Value, args: Value, kwargs: Value)
    requires !(name.Str? && name.s in methods && methods[name.s](args, kwargs).Returns?)
    ensures var r := Dispatch(methods, name, args, kwargs); r.Str? && |r.s| >= 5 && r.s[..5] == "Error"
  {
    var r := Dispatch(methods, name, args, kwargs);
    if name.Str? && name.s in methods {
      var m := methods[name.s](args, kwargs).message;
      assert r.s == "Error while executing function: " + m;
    } else if name.Arr? {
      assert r.s == ExecutionError("unhashable type: 'list'");
    } else if name.Obj? {
      assert r.s == ExecutionError("unhashable type: 'dict'");
    } else {
      var shown := if name.Str? then name.s else ScalarText(name);
      assert r.s == "Error: Function '" + shown + "' not found.";
    }
    assert r.s[..5] == "Error";
  }

  /** An unregistered name such as "divide" gets the not-found string naming it. */
  lemma UnknownNameNamed(methods: Registry, args: Value, kwargs: Value)
    requires "divide" !in methods
    ensures Dispatch(methods, Str("divide"), args, kwargs) == Str("Error: Function 'divide' not found.")
  {
  }
}
