/** The two halves together: what a client concludes from what a server sends back. */
module Protocol {
  import opened Wire
  import opened Codec
  import opened Dispatcher
  import opened AckPhase
  import FinalClient
  import FinalServer
  import ServerF
  import ClientF

  /** A well-formed request gets back its own sequence number, so the sequenced client that
      sent it accepts the reply, whatever the handler did. */
  lemma {:induction false} ReplyEchoesSeq(methods: Registry, data: Frame)
    requires DecodeRequest(data).Some?
    ensures var req := DecodeRequest(data).value;
            DecodeResponse(Reply(methods, data))
            == Some((Dispatch(methods, req.call.name, req.call.args, req.call.kwargs), req.seqNo))
  {
    var req := DecodeRequest(data).value;
    ResponseRoundTrip(Dispatch(methods, req.call.name, req.call.args, req.call.kwargs), req.seqNo);
  }

  /** A malformed request is answered with an error string, not a response envelope: a
      sequenced client that reads it as its response fails to unpack it. */
  lemma MalformedGetsNoEnvelope(methods: Registry, data: Frame, events: seq<Event>, expected: nat)
    requires DecodeRequest(data).None?
    requires Acked(events) && Stop(events) < MAX_RETRIES - 1
    ensures Reply(methods, data).Text?
    ensures SequencedOutcome(events, Arrive(Reply(methods, data)), expected) == Escaped
  {
  }

  /** Over a lossless channel a sequenced call completes after one send with exactly what the
      server's dispatcher computed. */
  lemma {:induction false} LosslessSequencedCall(methods: Registry, name: string, args: seq<Value>,
                                                 kwargs: map<string, Value>, n: nat)
    ensures var reply := Reply(methods, EncodeRequest(name, args, kwargs, n));
            Sends([Arrive(ACK)]) == 1
            && SequencedOutcome([Arrive(ACK)], Arrive(reply), n) == Completed(Dispatch(methods, Str(name), Arr(args), Obj(kwargs)))
  {
    TimeoutsThenAck(0);
    assert Repeat(Timeout, 0) + [Arrive(ACK)] == [Arrive(ACK)];
    RequestRoundTrip(name, args, kwargs, n);
    ReplyEchoesSeq(methods, EncodeRequest(name, args, kwargs, n));
    EchoedSeqMatches(n, n);
  }

  /** A reply meant for an earlier call is rejected: the client reports a mismatch. */
  lemma {:induction false} StaleReplyMismatched(methods: Registry, name: string, args: seq<Value>,
                                                kwargs: map<string, Value>, old_n: nat, n: nat)
    requires old_n != n
    ensures SequencedOutcome([Arrive(ACK)], Arrive(Reply(methods, EncodeRequest(name, args, kwargs, old_n))), n) == Mismatched
  {
    TimeoutsThenAck(0);
    assert Repeat(Timeout, 0) + [Arrive(ACK)] == [Arrive(ACK)];
    RequestRoundTrip(name, args, kwargs, old_n);
    ReplyEchoesSeq(methods, EncodeRequest(name, args, kwargs, old_n));
    EchoedSeqMatches(n, old_n);
  }

  /** final/client.py against final/server.py: an ACK on any attempt, then the bare result,
      completes the call with what the dispatcher computed. */
  lemma {:induction false} FinalPairCompletes(methods: Registry, name: string, args: seq<Value>,
                                              kwargs: map<string, Value>, events: seq<Event>)
    requires Acked(events)
    ensures FinalClient.FinalOutcome(events, Arrive(FinalServer.CallReply(methods, EncodeCall(name, args, kwargs))))
            == Completed(Dispatch(methods, Str(name), Arr(args), Obj(kwargs)))
  {
    CallRoundTrip(name, args, kwargs);
    ForElseFailureIff(events);
  }

  function AddHandler(args: Value, kwargs: Value): Outcome {
    if args.Arr? && |args.items| == 2 && args.items[0].Int? && args.items[1].Int? then
      Returns(Int(args.items[0].i + args.items[1].i))
    else Raises("unsupported operand")
  }

  function MultiplyHandler(args: Value, kwargs: Value): Outcome {
    if args.Arr? && |args.items| == 2 && args.items[0].Int? && args.items[1].Int? then
      Returns(Int(args.items[0].i * args.items[1].i))
    else Raises("unsupported operand")
  }

  /** add(5, 10) and multiply(3, 4) over a lossless channel to serverf.py, with sequence
      numbers 0 and 1, then a third call over a channel that loses everything. */
  method Scenario() {
    var server := new ServerF.ReliableUDPServer();
    server.RegisterMethod("add", AddHandler);
    server.RegisterMethod("multiply", MultiplyHandler);
    var client := new ClientF.ReliableUDPClient();
    var peer := Address("localhost", 9999);

    var request := EncodeRequest("add", [Int(5), Int(10)], map[], 0);
    RequestRoundTrip("add", [Int(5), Int(10)], map[], 0);
    var served := server.ServeOne(request, peer);
    LosslessSequencedCall(server.methods, "add", [Int(5), Int(10)], map[], 0);
    var outcome := client.SendRequest("add", [Int(5), Int(10)], map[], [Arrive(ACK)], Arrive(Reply(server.methods, request)));
    assert served == Replied;
    assert outcome == Completed(Int(15));
    assert client.sequenceNumber == 1;

    request := EncodeRequest("multiply", [Int(3), Int(4)], map[], 1);
    LosslessSequencedCall(server.methods, "multiply", [Int(3), Int(4)], map[], 1);
    outcome := client.SendRequest("multiply", [Int(3), Int(4)], map[], [Arrive(ACK)], Arrive(Reply(server.methods, request)));
    assert outcome == Completed(Int(12));
    assert client.sequenceNumber == 2;

    TotalLossFails(Timeout, 2);
    outcome := client.SendRequest("subtract", [Int(10), Int(5)], map[], [], Timeout);
    assert outcome == DeliveryFailed;
    assert client.sequenceNumber == 2;
  }
}
