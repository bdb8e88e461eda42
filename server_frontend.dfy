/** server_frontend.py: `RPCServer.register_method` and one iteration of `RPCServer.run` —
    ACK, decode, dispatch, and the response resent until the client's ACK or MAX_RETRIES
    timeouts. */
module ServerFrontend {
  import opened Wire
  import opened Codec
  import opened Dispatcher
  import opened Retransmit

  /** `f"Error: Invalid request format from {client_ip}:{client_port}. {e}"` */
  function InvalidFormatFrom(client: Address, detail: string): string {
    "Error: Invalid request format from " + client.host + ":" + NatText(client.port) + ". " + detail
  }

  class RPCServer {
    /** `self._methods` */
    var methods: Registry
    /** Every datagram sent, with its destination, in order. */
    var sent: seq<Packet>

    constructor ()
      ensures methods == map[] && sent == []
    {
      methods := map[];
      sent := [];
    }

    /** `register_method`: binds `name`, replacing any earlier handler. */
    method RegisterMethod(name: string, h: Handler)
      modifies this`methods
      ensures methods == old(methods)[name := h]
    {
      methods := methods[name := h];
    }

    /** One pass of the `while True` loop for the datagram `data` from `client`; `acks`
        scripts what the waits for the response's ACK receive. */
    method ServeOne(data: Frame, client: Address, acks: seq<Event>) returns (r: Served)
      modifies this`sent
      ensures DecodeRequest(data).None? ==>
                r == BadRequest
                && sent == old(sent) + [Packet(client, ACK), Packet(client, Text(InvalidFormatFrom(client, UnpackError(data, 4))))]
      ensures DecodeRequest(data).Some? ==>
                var w := AwaitAck(acks, 0, 0);
                r == WaitServed(w)
                && sent == old(sent) + [Packet(client, ACK)] + Repeat(Packet(client, Reply(methods, data)), w.sends)
    {
      sent := sent + [Packet(client, ACK)];
      if DecodeRequest(data).None? {
        sent := sent + [Packet(client, Text(InvalidFormatFrom(client, UnpackError(data, 4))))];
        return BadRequest;
      }
      // the dispatched result with the request's sequence number
      var frame := Reply(methods, data);
      ghost var w := AwaitAck(acks, 0, 0);
      var attempts := 0;
      var i := 0;
      var acked := false;
      while attempts < MAX_RETRIES && !acked
        invariant attempts <= MAX_RETRIES
        invariant sent == old(sent) + [Packet(client, ACK)] + Repeat(Packet(client, frame), i)
        invariant !acked ==> w == AwaitAck(acks, i, attempts).(sends := AwaitAck(acks, i, attempts).sends + i)
        invariant acked ==> w == Wait(i, attempts, AckReceived)
        decreases Fuel(acks, i, attempts), if acked then 0 else 1
      {
        sent := sent + [Packet(client, frame)];
        var e := EventAt(acks, i);
        i := i + 1;
        if e.Fault? {
          return Crashed;
        }
        if IsAck(e) {
          acked := true;
        } else if e.Timeout? {
          attempts := attempts + 1;
        }
      }
      r := if attempts == MAX_RETRIES then GaveUp else ReplyAcked;
    }
  }
}
