/** The client's request/ACK retry loop, `for attempt in range(MAX_RETRIES)`, as a function of
    the receive script, shared by the five client variants; and what the four sequenced
    clients report once the loop is over. */
module AckPhase {
  import opened Wire
  import opened Codec

  /** What a client call reports (returns or prints) to its caller. */
  datatype CallOutcome =
    | DeliveryFailed           // "Max retries reached" / "Failed to receive acknowledgment"
    | Completed(result: Value) // the response was accepted
    | Mismatched               // "Mismatched response sequence number."
    | Escaped                  // an exception propagated out of the call
    | SocketError              // final/client.py: error caught during the send loop
    | ResponseError            // final/client.py: error caught while waiting for the response
    | Blocked                  // the response read has no time-out and nothing arrives: the call never returns

  /** A receive outcome that ends the retry loop: the ACK (`break`) or an exception other
      than a timeout (it propagates out of the loop). Any other datagram, and a timeout,
      lead to the next attempt. */
  predicate Stops(e: Event) {
    IsAck(e) || e.Fault?
  }

  /** The attempt, from k on, at which the loop stops early; MAX_RETRIES when none does. */
  function StopFrom(events: seq<Event>, k: nat): (r: nat)
    requires k <= MAX_RETRIES
    ensures k <= r <= MAX_RETRIES
    decreases MAX_RETRIES - k
  {
    if k == MAX_RETRIES || Stops(EventAt(events, k)) then k else StopFrom(events, k + 1)
  }

  function Stop(events: seq<Event>): nat {
    StopFrom(events, 0)
  }

  /** StopFrom finds the first stopping attempt: everything before it goes on. */
  lemma {:induction false} StopFromIsFirst(events: seq<Event>, k: nat)
    requires k <= MAX_RETRIES
    ensures StopFrom(events, k) < MAX_RETRIES ==> Stops(EventAt(events, StopFrom(events, k)))
    ensures forall j :: k <= j < StopFrom(events, k) ==> !Stops(EventAt(events, j))
    decreases MAX_RETRIES - k
  {
    if k < MAX_RETRIES && !Stops(EventAt(events, k)) {
      StopFromIsFirst(events, k + 1);
    }
  }

  /** The stopping attempt is characterised by the script alone: it is the first attempt
      that receives an ACK or a fault, or MAX_RETRIES. */
  lemma {:induction false} StopIsFirstStop(events: seq<Event>, r: nat)
    ensures Stop(events) == r <==>
              r <= MAX_RETRIES
              && (r < MAX_RETRIES ==> Stops(EventAt(events, r)))
              && forall j :: 0 <= j < r ==> !Stops(EventAt(events, j))
  {
    StopFromIsFirst(events, 0);
  }

  /** Number of times the request is sent: once per attempt up to the stopping one. */
  function Sends(events: seq<Event>): nat {
    if Stop(events) < MAX_RETRIES then Stop(events) + 1 else MAX_RETRIES
  }

  /** The loop ended with `break` on an ACK. */
  predicate Acked(events: seq<Event>) {
    Stop(events) < MAX_RETRIES && IsAck(EventAt(events, Stop(events)))
  }

  /** The loop ended with an exception escaping from the receive. */
  predicate Faulted(events: seq<Event>) {
    Stop(events) < MAX_RETRIES && EventAt(events, Stop(events)).Fault?
  }

  /** The value of Python's loop variable `attempt` after the loop: the attempt that broke
      out, or the last one of `range(MAX_RETRIES)`. */
  function LastAttempt(events: seq<Event>): nat {
    if Stop(events) < MAX_RETRIES then Stop(events) else MAX_RETRIES - 1
  }

  /** The failure test of client_frontend.py, rUDP_c.py, clientf.py and rpc_rel_c.py:
      `if attempt == MAX_RETRIES - 1`. */
  predicate FailsAsWritten(events: seq<Event>) {
    LastAttempt(events) == MAX_RETRIES - 1
  }

  /** The failure test of final/client.py: the `else` of `for ... else`, reached only when
      no attempt broke out. */
  predicate FailsForElse(events: seq<Event>) {
    Stop(events) == MAX_RETRIES
  }

  /** The request goes out at least once and at most MAX_RETRIES times, one more time than
      the number of attempts that received a timeout or a non-ACK datagram. */
  lemma SendsCounted(events: seq<Event>)
    ensures 1 <= Sends(events) <= MAX_RETRIES
    ensures forall j :: 0 <= j < Sends(events) - 1 ==> !Stops(EventAt(events, j))
    ensures Sends(events) < MAX_RETRIES ==> Stops(EventAt(events, Sends(events) - 1))
  {
    StopFromIsFirst(events, 0);
  }

  /** k timeouts followed by the ACK: the loop stops at attempt k after k + 1 sends. */
  lemma {:induction false} TimeoutsThenAck(k: nat)
    requires k < MAX_RETRIES
    ensures var events := Repeat(Timeout, k) + [Arrive(ACK)];
            Stop(events) == k && Sends(events) == k + 1 && Acked(events)
  {
    var events := Repeat(Timeout, k) + [Arrive(ACK)];
    assert EventAt(events, k) == Arrive(ACK);
    assert forall j :: 0 <= j < k ==> EventAt(events, j) == Timeout;
    StopIsFirstStop(events, k);
  }

  /** The quirk, as written: the failure test fires exactly when none of the first
      MAX_RETRIES - 1 attempts stopped, so an ACK arriving on the last attempt is reported
      as a failure. */
  lemma {:induction false} AsWrittenFailureIff(events: seq<Event>)
    requires !Faulted(events)
    ensures FailsAsWritten(events) <==> forall j :: 0 <= j < MAX_RETRIES - 1 ==> !Stops(EventAt(events, j))
  {
    StopFromIsFirst(events, 0);
  }

  /** A concrete script for the quirk: four timeouts, then the ACK. The loop did receive the
      ACK, yet `attempt == MAX_RETRIES - 1` holds. */
  lemma LastAttemptAckRejected()
    ensures var events := [Timeout, Timeout, Timeout, Timeout, Arrive(ACK)];
            Acked(events) && FailsAsWritten(events) && Sends(events) == MAX_RETRIES
  {
    var events := [Timeout, Timeout, Timeout, Timeout, Arrive(ACK)];
    assert events == Repeat(Timeout, 4) + [Arrive(ACK)];
    TimeoutsThenAck(4);
  }

  /** The for/else test fails exactly when none of the MAX_RETRIES attempts stopped: an ACK
      on any attempt, the last one included, counts. */
  lemma {:induction false} ForElseFailureIff(events: seq<Event>)
    ensures FailsForElse(events) <==> forall j :: 0 <= j < MAX_RETRIES ==> !Stops(EventAt(events, j))
    ensures Acked(events) ==> !FailsForElse(events)
  {
    StopFromIsFirst(events, 0);
  }

  /** What the four sequenced clients report: an exception from the ACK loop escapes; the
      quirky failure test; otherwise one blocking read (`settimeout(None)`) takes the response.
      A response that never comes blocks the call for good; an exception, or a frame that is
      not a two-element JSON array, escapes; else its sequence number is compared with
      `expected`. */
  function SequencedOutcome(events: seq<Event>, response: Event, expected: nat): CallOutcome {
    if Faulted(events) then Escaped
    else if FailsAsWritten(events) then DeliveryFailed
    else match response
      case Timeout => Blocked
      case Fault => Escaped
      case Arrive(f) =>
        match DecodeResponse(f)
        case None => Escaped
        case Some((result, got)) => if SeqMatches(got, expected) then Completed(result) else Mismatched
  }

  /** A sequenced call completes only after an ACK before the last attempt and a response
      carrying the expected sequence number; and it then completes with that response. */
  lemma {:induction false} SequencedCompletedIff(events: seq<Event>, response: Event, expected: nat, v: Value)
    ensures SequencedOutcome(events, response, expected) == Completed(v)
        <==> Acked(events) && Stop(events) < MAX_RETRIES - 1 && response.Arrive?
             && exists got :: DecodeResponse(response.frame) == Some((v, got)) && SeqMatches(got, expected)
  {
    if Acked(events) {
      assert !Faulted(events);
    }
    if SequencedOutcome(events, response, expected) == Completed(v) {
      StopFromIsFirst(events, 0);
      var got := DecodeResponse(response.frame).value.1;
      assert DecodeResponse(response.frame) == Some((v, got));
    }
  }

  /** As written, a response lost after the ACK is never reported: the read blocks for good.
      One ACK on the first attempt and then silence is such a run. */
  lemma {:induction false} LostResponseBlocks(events: seq<Event>, expected: nat)
    requires Acked(events) && Stop(events) < MAX_RETRIES - 1
    ensures SequencedOutcome(events, Timeout, expected) == Blocked
    ensures SequencedOutcome([Arrive(ACK)], Timeout, expected) == Blocked
  {
    TimeoutsThenAck(0);
    assert Repeat(Timeout, 0) + [Arrive(ACK)] == [Arrive(ACK)];
  }

  /** The response read with a time-out, as final/client.py keeps ACK_TIMEOUT for it: a
      response that does not come is reported as a failed delivery. */
  function TimedOutcome(events: seq<Event>, response: Event, expected: nat): CallOutcome {
    if Faulted(events) then Escaped
    else if FailsAsWritten(events) then DeliveryFailed
    else if response.Timeout? then DeliveryFailed
    else SequencedOutcome(events, response, expected)
  }

  /** With the time-out every call returns a reported outcome: a lost response is a delivery
      failure, and every run that the blocking read would not block on ends the same way. */
  lemma {:induction false} TimedReadAlwaysReports(events: seq<Event>, response: Event, expected: nat)
    ensures TimedOutcome(events, response, expected) != Blocked
    ensures SequencedOutcome(events, response, expected) != Blocked
            ==> TimedOutcome(events, response, expected) == SequencedOutcome(events, response, expected)
    ensures Acked(events) && Stop(events) < MAX_RETRIES - 1 && response.Timeout?
            ==> TimedOutcome(events, response, expected) == DeliveryFailed
  {
    if Acked(events) {
      assert !Faulted(events);
    }
  }

  /** A channel that loses everything: the request goes out MAX_RETRIES times and the call
      fails. */
  lemma TotalLossFails(response: Event, expected: nat)
    ensures Sends([]) == MAX_RETRIES && SequencedOutcome([], response, expected) == DeliveryFailed
  {
    StopIsFirstStop([], MAX_RETRIES);
  }
}
