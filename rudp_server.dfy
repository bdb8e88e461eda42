/** rUDP_s.py: `ReliableUDPServer` — `register_method`, the per-client buffer sizing of
    `adjust_buffer`, and one iteration of `start` (buffer sweep, ACK, decode, dispatch,
    response echoing the sequence number). */
module RudpServer {
  import opened Wire
  import opened Codec
  import opened Dispatcher

  /** Base buffer size. */
  const SIZE: int := 1024
  /** The size at which a buffer is reset to SIZE. */
  const MAX_BUFFER_SIZE: int := 4096

  predicate IsBufferSize(v: int) {
    v == 1024 || v == 2048 || v == 3072 || v == 4096
  }

  /** A known client's next size: grow by SIZE below the ceiling, otherwise reset. */
  function Grown(v: int): int {
    if v < MAX_BUFFER_SIZE then v + SIZE else SIZE
  }

  /** `adjust_buffer(a)` on the whole table. */
  function Adjusted(buffers: map<Address, int>, a: Address): map<Address, int> {
    if a !in buffers then buffers[a := SIZE] else buffers[a := Grown(buffers[a])]
  }

  /** `for client_address in self.client_buffers: self.adjust_buffer(client_address)` */
  function Swept(buffers: map<Address, int>): map<Address, int> {
    map a | a in buffers :: Grown(buffers[a])
  }

  predicate AllBufferSizes(buffers: map<Address, int>) {
    forall a :: a in buffers ==> IsBufferSize(buffers[a])
  }

  /** Sizes cycle 1024 -> 2048 -> 3072 -> 4096 -> 1024: each step stays among the four, and
      four steps come back. */
  lemma {:induction false} GrownCycles(v: int)
    requires IsBufferSize(v)
    ensures IsBufferSize(Grown(v))
    ensures Grown(Grown(Grown(Grown(v)))) == v
    ensures v < MAX_BUFFER_SIZE ==> Grown(v) == v + SIZE
  {
  }

  /** adjust_buffer touches one entry: a new client gets SIZE, every other entry is as it
      was, at most one key is added, and the four sizes stay the only values. */
  lemma {:induction false} AdjustedTouchesOne(buffers: map<Address, int>, a: Address)
    requires AllBufferSizes(buffers)
    ensures AllBufferSizes(Adjusted(buffers, a))
    ensures Adjusted(buffers, a).Keys == buffers.Keys + {a}
    ensures a !in buffers ==> Adjusted(buffers, a)[a] == SIZE
    ensures forall b :: b in buffers && b != a ==> Adjusted(buffers, a)[b] == buffers[b]
  {
    if a in buffers {
      GrownCycles(buffers[a]);
    }
  }

  /** The sweep advances every known client once and adds none. */
  lemma {:induction false} SweptAdvancesEach(buffers: map<Address, int>)
    requires AllBufferSizes(buffers)
    ensures AllBufferSizes(Swept(buffers))
    ensures Swept(buffers).Keys == buffers.Keys
  {
    forall a | a in Swept(buffers) ensures IsBufferSize(Swept(buffers)[a]) {
      GrownCycles(buffers[a]);
    }
  }

  class ReliableUDPServer {
    /** `self._methods` */
    var methods: Registry
    /** `self.client_buffers` */
    var clientBuffers: map<Address, int>
    /** Every datagram sent, with its destination, in order. */
    var sent: seq<Packet>

    ghost predicate Valid()
      reads this
    {
      AllBufferSizes(clientBuffers)
    }

    constructor ()
      ensures Valid()
      ensures methods == map[] && clientBuffers == map[] && sent == []
    {
      methods := map[];
      clientBuffers := map[];
      sent := [];
    }

    /** `register_method`: binds `name`, replacing any earlier handler. */
    method RegisterMethod(name: string, h: Handler)
      modifies this`methods
      ensures methods == old(methods)[name := h]
    {
      methods := methods[name := h];
    }

    /** `adjust_buffer(client_address)` */
    method AdjustBuffer(a: Address)
      requires Valid()
      modifies this`clientBuffers
      ensures Valid()
      ensures clientBuffers == Adjusted(old(clientBuffers), a)
    {
      AdjustedTouchesOne(clientBuffers, a);
      if a !in clientBuffers {
        clientBuffers := clientBuffers[a := SIZE];
      } else if clientBuffers[a] < MAX_BUFFER_SIZE {
        clientBuffers := clientBuffers[a := clientBuffers[a] + SIZE];
      } else {
        clientBuffers := clientBuffers[a := SIZE];
      }
    }

    /** The loop at the head of each iteration: every known client is adjusted once. */
    method SweepBuffers()
      requires Valid()
      modifies this`clientBuffers
      ensures Valid()
      ensures clientBuffers == Swept(old(clientBuffers))
    {
      var pending := clientBuffers.Keys;
      while pending != {}
        invariant Valid()
        invariant pending <= old(clientBuffers).Keys
        invariant clientBuffers.Keys == old(clientBuffers).Keys
        invariant forall a :: a in clientBuffers ==>
                    clientBuffers[a] == if a in pending then old(clientBuffers)[a] else Grown(old(clientBuffers)[a])
        decreases pending
      {
        var a :| a in pending;
        AdjustBuffer(a);
        pending := pending - {a};
      }
      assert clientBuffers == Swept(old(clientBuffers));
    }

    /** One pass of the `while True` loop for the datagram `data` from `client`. */
    method ServeOne(data: Frame, client: Address) returns (r: Served)
      requires Valid()
      modifies this`clientBuffers, this`sent
      ensures Valid()
      ensures clientBuffers == Adjusted(Swept(old(clientBuffers)), client)
      ensures r == (if DecodeRequest(data).Some? then Replied else BadRequest)
      ensures sent == old(sent) + [Packet(client, ACK), Packet(client, Reply(methods, data))]
    {
      SweepBuffers();
      AdjustBuffer(client);
      sent := sent + [Packet(client, ACK)];
      match DecodeRequest(data)
      case None =>
        sent := sent + [Packet(client, Text(InvalidFormat(UnpackError(data, 4))))];
        r := BadRequest;
      case Some(req) =>
        var response := Dispatch(methods, req.call.name, req.call.args, req.call.kwargs);
        sent := sent + [Packet(client, EncodeResponse(response, req.seqNo))];
        r := Replied;
    }
  }
}
