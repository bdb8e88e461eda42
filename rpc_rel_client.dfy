/** rpc_rel_c.py: `ReliableUDPClient.send_request` — the protocol of clientf.py without its
    timing: fixed retries, the last-attempt failure test, and a sequence number that advances
    whether or not the response matched. */
module RpcRelClient {
  import opened Wire
  import opened Codec
  import opened AckPhase

  class ReliableUDPClient {
    /** `self.sequence_number` */
    var sequenceNumber: nat
    /** Every datagram sent to the server address, in order. */
    var sent: seq<Frame>

    constructor ()
      ensures sequenceNumber == 0 && sent == []
    {
      sequenceNumber := 0;
      sent := [];
    }

    /** One call; the outcome is what the call prints. No ACK is sent for the response. */
    method SendRequest(name: string, args: seq<Value>, kwargs: map<string, Value>,
                       events: seq<Event>, response: Event) returns (r: CallOutcome)
      modifies this
      ensures r == SequencedOutcome(events, response, old(sequenceNumber))
      ensures sequenceNumber == old(sequenceNumber) + (if r.Completed? || r.Mismatched? then 1 else 0)
      ensures sent == old(sent) + Repeat(EncodeRequest(name, args, kwargs, old(sequenceNumber)), Sends(events))
    {
      var request := EncodeRequest(name, args, kwargs, sequenceNumber);
      var attempt := 0;
      while true
        invariant attempt < MAX_RETRIES
        invariant forall j :: 0 <= j < attempt ==> !Stops(EventAt(events, j))
        invariant sent == old(sent) + Repeat(request, attempt)
        invariant sequenceNumber == old(sequenceNumber)
        decreases MAX_RETRIES - attempt
      {
        sent := sent + [request];
        var e := EventAt(events, attempt);
        if e.Fault? {
          StopIsFirstStop(events, attempt);
          return Escaped;
        }
        if IsAck(e) {
          break;
        }
        if attempt == MAX_RETRIES - 1 {
          break;
        }
        attempt := attempt + 1;
      }
      if IsAck(EventAt(events, attempt)) {
        StopIsFirstStop(events, attempt);
      } else {
        StopIsFirstStop(events, MAX_RETRIES);
      }
      if attempt == MAX_RETRIES - 1 {
        return DeliveryFailed;
      }
      if response.Timeout? {
        return Blocked;
      }
      if response.Fault? {
        return Escaped;
      }
      match DecodeResponse(response.frame)
      case None =>
        r := Escaped;
      case Some((result, got)) =>
        r := if SeqMatches(got, sequenceNumber) then Completed(result) else Mismatched;
        sequenceNumber := sequenceNumber + 1;
    }
  }
}
