/** test/server.py: `LowLatencyBatchUDPServer.register_method` and one iteration of `start`
    — dispatch with a not-found default, one response per request, and an ACK only on every
    ACK_BATCH-th well-formed request, counted server-wide. */
module BatchServer {
  import opened Wire
  import opened Codec
  import opened Dispatcher

  /** Send an ACK every ACK_BATCH requests. */
  const ACK_BATCH: nat := 5

  /** How one datagram is handled: text that is not JSON is skipped (`JSONDecodeError`); JSON
      of another shape fails to unpack, and a raising handler raises, and neither is caught. */
  function BatchServed(methods: Registry, data: Frame): Served {
    if data.Text? then Skipped
    else match DecodeRequest(data)
      case None => Crashed
      case Some(req) =>
        if BatchDispatch(methods, req.call.name, req.call.args, req.call.kwargs).Some? then Replied else Crashed
  }

  /** The response sent for a request that was served: the result with its sequence number. */
  function BatchReply(methods: Registry, data: Frame): Frame
    requires BatchServed(methods, data) == Replied
  {
    var req := DecodeRequest(data).value;
    EncodeResponse(BatchDispatch(methods, req.call.name, req.call.args, req.call.kwargs).value, req.seqNo)
  }

  /** The number of ACKs the first n served requests trigger: one for each count that is a
      multiple of ACK_BATCH. */
  function BatchAcks(n: nat): nat {
    if n == 0 then 0 else BatchAcks(n - 1) + (if n % ACK_BATCH == 0 then 1 else 0)
  }

  /** After n served requests exactly n / ACK_BATCH ACKs have gone out. */
  lemma {:induction false} BatchAcksIsQuotient(n: nat)
    ensures BatchAcks(n) == n / ACK_BATCH
  {
    if n > 0 {
      BatchAcksIsQuotient(n - 1);
      assert n / ACK_BATCH == (n - 1) / ACK_BATCH + (if n % ACK_BATCH == 0 then 1 else 0);
    }
  }

  /** The number of ACK datagrams in a log of sent packets. */
  function AckCount(s: seq<Packet>): nat {
    if s == [] then 0 else AckCount(s[..|s| - 1]) + (if s[|s| - 1].frame == ACK then 1 else 0)
  }

  lemma AckCountAppend(s: seq<Packet>, p: Packet)
    ensures AckCount(s + [p]) == AckCount(s) + (if p.frame == ACK then 1 else 0)
  {
    assert (s + [p])[..|s|] == s;
  }

  class LowLatencyBatchUDPServer {
    /** `self._methods` */
    var methods: Registry
    /** `self.request_count`, one counter for all clients. */
    var requestCount: nat
    /** Every datagram sent, with its destination, in order. */
    var sent: seq<Packet>

    /** After n served requests the log holds exactly n / ACK_BATCH ACKs. */
    ghost predicate Valid()
      reads this
    {
      AckCount(sent) == requestCount / ACK_BATCH
    }

    constructor ()
      ensures Valid()
      ensures methods == map[] && requestCount == 0 && sent == []
    {
      methods := map[];
      requestCount := 0;
      sent := [];
    }

    /** `register_method`: binds `name`, replacing any earlier handler. */
    method RegisterMethod(name: string, h: Handler)
      modifies this`methods
      ensures methods == old(methods)[name := h]
    {
      methods := methods[name := h];
    }

    /** One pass of the `while True` loop for the datagram `data` from `client`. */
    method ServeOne(data: Frame, client: Address) returns (r: Served)
      requires Valid()
      modifies this`requestCount, this`sent
      ensures Valid()
      ensures r == BatchServed(methods, data)
      ensures r != Replied ==> requestCount == old(requestCount) && sent == old(sent)
      ensures r == Replied ==>
                requestCount == old(requestCount) + 1
                && sent == old(sent) + [Packet(client, BatchReply(methods, data))]
                           + (if requestCount % ACK_BATCH == 0 then [Packet(client, ACK)] else [])
    {
      if data.Text? {
        return Skipped;
      }
      var req;
      match DecodeRequest(data) {
        case None =>
          return Crashed;
        case Some(decoded) =>
          req := decoded;
      }
      var result;
      match BatchDispatch(methods, req.call.name, req.call.args, req.call.kwargs) {
        case None =>
          return Crashed;
        case Some(v) =>
          result := v;
      }
      var response := Packet(client, EncodeResponse(result, req.seqNo));
      AckCountAppend(sent, response);
      sent := sent + [response];
      requestCount := requestCount + 1;
      BatchAcksIsQuotient(requestCount - 1);
      BatchAcksIsQuotient(requestCount);
      if requestCount % ACK_BATCH == 0 {
        AckCountAppend(sent, Packet(client, ACK));
        sent := sent + [Packet(client, ACK)];
      }
      r := Replied;
    }
  }
}
