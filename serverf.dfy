/** serverf.py: `ReliableUDPServer.register_method` and one iteration of `start` — ACK first,
    then decode, dispatch and exactly one response carrying the request's sequence number. */
module ServerF {
  import opened Wire
  import opened Codec
  import opened Dispatcher

  class ReliableUDPServer {
    /** `self._methods` */
    var methods: Registry
    /** Every datagram sent, with its destination, in order. */
    var sent: seq<Packet>

    constructor ()
      ensures methods == map[] && sent == []
    {
      methods := map[];
      sent := [];
    }

    /** `register_method`: binds `name`, replacing any earlier handler. */
    method RegisterMethod(name: string, h: Handler)
      modifies this`methods
      ensures methods == old(methods)[name := h]
    {
      methods := methods[name := h];
    }

    /** One pass of the `while True` loop for the datagram `data` from `client`. */
    method ServeOne(data: Frame, client: Address) returns (r: Served)
      modifies this`sent
      ensures r == (if DecodeRequest(data).Some? then Replied else BadRequest)
      ensures sent == old(sent) + [Packet(client, ACK), Packet(client, Reply(methods, data))]
    {
      sent := sent + [Packet(client, ACK)];
      match DecodeRequest(data)
      case None =>
        sent := sent + [Packet(client, Text(InvalidFormat(UnpackError(data, 4))))];
        r := BadRequest;
      case Some(req) =>
        var response := Dispatch(methods, req.call.name, req.call.args, req.call.kwargs);
        sent := sent + [Packet(client, EncodeResponse(response, req.seqNo))];
        r := Replied;
    }
  }
}
