/** Call and response envelopes: what the clients put on the wire and how the servers and
    clients unpack it (`json.dumps` / `json.loads` followed by tuple unpacking). */
module Codec {
  import opened Wire

  /** The three call fields every request carries. */
  datatype Call = Call(name: Value, args: Value, kwargs: Value)

  /** A four-field request: the call and the sequence number the client attached. */
  datatype Request = Request(call: Call, seqNo: Value)

  /** `[function_name, args, kwargs, sequence_number]`, the request of the sequenced clients. */
  function EncodeRequest(name: string, args: seq<Value>, kwargs: map<string, Value>, seqNo: nat): Frame {
    Json(Arr([Str(name), Arr(args), Obj(kwargs), Int(seqNo)]))
  }

  /** `[function_name, args, kwargs]`, the request of final/client.py (no sequence number). */
  function EncodeCall(name: string, args: seq<Value>, kwargs: map<string, Value>): Frame {
    Json(Arr([Str(name), Arr(args), Obj(kwargs)]))
  }

  /** `[response, sequence_number]`, the response of the sequenced servers. */
  function EncodeResponse(result: Value, seqNo: Value): Frame {
    Json(Arr([result, seqNo]))
  }

  /** Unpacking a decoded frame into exactly n names: it succeeds only on a JSON array of
      length n. */
  function Unpack(f: Frame, n: nat): (r: Option<seq<Value>>)
    ensures r.Some? <==> f.Json? && f.value.Arr? && |f.value.items| == n
    ensures r.Some? ==> r.value == f.value.items
  {
    match f
    case Json(Arr(xs)) => if |xs| == n then Some(xs) else None
    case _ => None
  }

  /** `function_name, args, kwargs, sequence_number = json.loads(data.decode())` */
  function DecodeRequest(f: Frame): Option<Request> {
    match Unpack(f, 4)
    case Some(xs) => Some(Request(Call(xs[0], xs[1], xs[2]), xs[3]))
    case None => None
  }

  /** `function_name, args, kwargs = json.loads(data.decode())` */
  function DecodeCall(f: Frame): Option<Call> {
    match Unpack(f, 3)
    case Some(xs) => Some(Call(xs[0], xs[1], xs[2]))
    case None => None
  }

  /** `response, seq = json.loads(response_packet.decode())` */
  function DecodeResponse(f: Frame): Option<(Value, Value)> {
    match Unpack(f, 2)
    case Some(xs) => Some((xs[0], xs[1]))
    case None => None
  }

  /** The text of the exception raised when f cannot be decoded into n fields. */
  function UnpackError(f: Frame, n: nat): string {
    match f
    case Text(_) => "Expecting value: line 1 column 1 (char 0)"
    case Json(Arr(xs)) => ArityError(|xs|, n)
    case Json(Str(s)) => ArityError(|s|, n)
    case Json(Obj(m)) => ArityError(|m|, n)
    case Json(Int(_)) => "cannot unpack non-iterable int object"
    case Json(Bool(_)) => "cannot unpack non-iterable bool object"
    case Json(Null) => "cannot unpack non-iterable NoneType object"
  }

  /** Python's message for unpacking `got` items into n names. */
  function ArityError(got: nat, n: nat): string {
    if got < n then "not enough values to unpack (expected " + NatText(n) + ", got " + NatText(got) + ")"
    else if got > n then "too many values to unpack (expected " + NatText(n) + ")"
    else "unpacking a JSON string or object is not modelled"
  }

  /** Python's `seq == self.sequence_number` on a decoded value: an int of the same value,
      or the booleans, which compare equal to 0 and 1. */
  predicate SeqMatches(got: Value, expected: nat) {
    got == Int(expected) || (expected == 1 && got == Bool(true)) || (expected == 0 && got == Bool(false))
  }

  /** The sequenced request decodes to exactly the fields it was built from. */
  lemma RequestRoundTrip(name: string, args: seq<Value>, kwargs: map<string, Value>, seqNo: nat)
    ensures DecodeRequest(EncodeRequest(name, args, kwargs, seqNo))
         == Some(Request(Call(Str(name), Arr(args), Obj(kwargs)), Int(seqNo)))
  {
  }

  /** The three-field request decodes to exactly the fields it was built from. */
  lemma CallRoundTrip(name: string, args: seq<Value>, kwargs: map<string, Value>)
    ensures DecodeCall(EncodeCall(name, args, kwargs)) == Some(Call(Str(name), Arr(args), Obj(kwargs)))
  {
  }

  /** A response decodes to the result and sequence number it was built from. */
  lemma ResponseRoundTrip(result: Value, seqNo: Value)
    ensures DecodeResponse(EncodeResponse(result, seqNo)) == Some((result, seqNo))
  {
  }

  /** The two request shapes do not decode as each other, and the ACK marker decodes as
      neither request nor response. */
  lemma ShapesAreDistinct(name: string, args: seq<Value>, kwargs: map<string, Value>, seqNo: nat)
    ensures DecodeCall(EncodeRequest(name, args, kwargs, seqNo)) == None
    ensures DecodeRequest(EncodeCall(name, args, kwargs)) == None
    ensures DecodeRequest(ACK) == None && DecodeCall(ACK) == None && DecodeResponse(ACK) == None
  {
  }

  /** The response carries the sequence number back: it matches the request's counter and
      no other. */
  lemma EchoedSeqMatches(seqNo: nat, other: nat)
    ensures SeqMatches(Int(seqNo), seqNo)
    ensures SeqMatches(Int(other), seqNo) <==> other == seqNo
  {
  }
}
