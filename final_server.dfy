/** final/server.py: `RPCServer.register_method` and one iteration of `start` — ACK, a
    three-field request, dispatch, and the bare result resent until the client's ACK or
    MAX_RETRIES timeouts. */
module FinalServer {
  import opened Wire
  import opened Codec
  import opened Dispatcher
  import opened Retransmit

  /** The reply to a decoded call: `json.dumps(response)`, the result alone, with no sequence
      number; or the invalid-format string. */
  function CallReply(methods: Registry, data: Frame): Frame {
    match DecodeCall(data)
    case Some(call) => Json(Dispatch(methods, call.name, call.args, call.kwargs))
    case None => Text(InvalidFormat(UnpackError(data, 3)))
  }

  class RPCServer {
    /** `self._methods` */
    var methods: Registry
    /** Every datagram sent, with its destination, in order. */
    var sent: seq<Packet>

    constructor ()
      ensures methods == map[] && sent == []
    {
      methods := map[];
      sent := [];
    }

    /** `register_method`: binds `name`, replacing any earlier handler. */
    method RegisterMethod(name: string, h: Handler)
      modifies this`methods
      ensures methods == old(methods)[name := h]
    {
      methods := methods[name := h];
    }

    /** One pass of the `while True` loop for the datagram `data` from `client`; `acks`
        scripts what the waits for the response's ACK receive. */
    method ServeOne(data: Frame, client: Address, acks: seq<Event>) returns (r: Served)
      modifies this`sent
      ensures DecodeCall(data).None? ==>
                r == BadRequest && sent == old(sent) + [Packet(client, ACK), Packet(client, CallReply(methods, data))]
      ensures DecodeCall(data).Some? ==>
                var w := AwaitAck(acks, 0, 0);
                r == WaitServed(w)
                && sent == old(sent) + [Packet(client, ACK)] + Repeat(Packet(client, CallReply(methods, data)), w.sends)
    {
      sent := sent + [Packet(client, ACK)];
      if DecodeCall(data).None? {
        sent := sent + [Packet(client, Text(InvalidFormat(UnpackError(data, 3))))];
        return BadRequest;
      }
      // the dispatched result, `json.dumps(response)`
      var frame := CallReply(methods, data);
      ghost var w := AwaitAck(acks, 0, 0);
      var attempts := 0;
      var i := 0;
      var acked := false;
      while attempts < MAX_RETRIES && !acked
        invariant attempts <= MAX_RETRIES
        invariant sent == old(sent) + [Packet(client, ACK)] + Repeat(Packet(client, frame), i)
        invariant !acked ==> w == AwaitAck(acks, i, attempts).(sends := AwaitAck(acks, i, attempts).sends + i)
        invariant acked ==> w == Wait(i, attempts, AckReceived)
        decreases Fuel(acks, i, attempts), if acked then 0 else 1
      {
        sent := sent + [Packet(client, frame)];
        var e := EventAt(acks, i);
        i := i + 1;
        if e.Fault? {
          return Crashed;
        }
        if IsAck(e) {
          acked := true;
        } else if e.Timeout? {
          attempts := attempts + 1;
        }
      }
      r := if attempts == MAX_RETRIES then GaveUp else ReplyAcked;
    }
  }
}
