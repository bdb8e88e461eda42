/** final/client.py: `RPCClient.send_rpc_request` — the `ready_to_send` flag around a
    `for ... else` retry loop, then one response read and acknowledged; no sequence numbers. */
module FinalClient {
  import opened Wire
  import opened Codec
  import opened AckPhase

  /** What a call reports: a fault in the send loop is caught; no ACK in MAX_RETRIES attempts
      is a failure; after an ACK on any attempt, the next receive must be JSON (`json.loads`),
      and anything else (a timeout, a fault, text) is caught as a response error. */
  function FinalOutcome(events: seq<Event>, response: Event): CallOutcome {
    if Faulted(events) then SocketError
    else if FailsForElse(events) then DeliveryFailed
    else match response
      case Arrive(Json(v)) => Completed(v)
      case _ => ResponseError
  }

  /** The last-attempt ACK that the sequenced clients reject is accepted here: four timeouts
      then the ACK, and a JSON response, complete the call after MAX_RETRIES sends. */
  lemma LastAttemptAckAccepted(v: Value)
    ensures var events := [Timeout, Timeout, Timeout, Timeout, Arrive(ACK)];
            FinalOutcome(events, Arrive(Json(v))) == Completed(v) && Sends(events) == MAX_RETRIES
  {
    var events := [Timeout, Timeout, Timeout, Timeout, Arrive(ACK)];
    LastAttemptAckRejected();
    ForElseFailureIff(events);
  }

  /** A call completes exactly when some attempt got the ACK, before any fault, and the
      response is JSON; no sequence number is checked. */
  lemma {:induction false} FinalCompletedIff(events: seq<Event>, response: Event, v: Value)
    ensures FinalOutcome(events, response) == Completed(v) <==> Acked(events) && response == Arrive(Json(v))
  {
    ForElseFailureIff(events);
  }

  class RPCClient {
    /** `self.ready_to_send` */
    var readyToSend: bool
    /** Every datagram sent to the server address, in order. */
    var sent: seq<Frame>

    constructor ()
      ensures readyToSend && sent == []
    {
      readyToSend := true;
      sent := [];
    }

    /** One call; `events` scripts the ACK waits and `response` the receive after the ACK
        (the socket keeps its ACK_TIMEOUT). The flag is down for the whole call and up again
        on every way out. */
    method SendRpcRequest(name: string, args: seq<Value>, kwargs: map<string, Value>,
                          events: seq<Event>, response: Event) returns (r: CallOutcome)
      requires readyToSend
      modifies this
      ensures readyToSend
      ensures r == FinalOutcome(events, response)
      ensures sent == old(sent) + Repeat(EncodeCall(name, args, kwargs), Sends(events))
                      + (if r.Completed? then [ACK] else [])
    {
      readyToSend := false;
      var request := EncodeCall(name, args, kwargs);
      var attempt := 0;
      var acked := false;
      while attempt < MAX_RETRIES
        invariant attempt <= MAX_RETRIES
        invariant !readyToSend
        invariant forall j :: 0 <= j < attempt ==> !Stops(EventAt(events, j))
        invariant acked ==> attempt < MAX_RETRIES && IsAck(EventAt(events, attempt))
        invariant sent == old(sent) + Repeat(request, attempt) + (if acked then [request] else [])
        decreases MAX_RETRIES - attempt, if acked then 0 else 1
      {
        sent := sent + [request];
        var e := EventAt(events, attempt);
        if e.Fault? {
          StopIsFirstStop(events, attempt);
          readyToSend := true;
          return SocketError;
        }
        if IsAck(e) {
          acked := true;
          break;
        }
        attempt := attempt + 1;
      }
      if !acked {
        StopIsFirstStop(events, MAX_RETRIES);
        readyToSend := true;
        return DeliveryFailed;
      }
      StopIsFirstStop(events, attempt);
      match response {
        case Arrive(Json(v)) =>
          sent := sent + [ACK];
          r := Completed(v);
        case _ =>
          r := ResponseError;
      }
      readyToSend := true;
    }
  }
}
