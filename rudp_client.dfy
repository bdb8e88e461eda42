/** rUDP_c.py: `ReliableUDPClient` with its adaptive window — `adjust_window_size` and the
    `send_request` loop that drives it and then bumps the sequence number. */
module RudpClient {
  import opened Wire
  import opened Codec
  import opened AckPhase

  const INITIAL_WINDOW_SIZE: int := 1

  /** `adjust_window_size`: additive increase on success, halving with a floor of 1 on
      failure. Python's `//` floors; for the divisor 2 that is Dafny's `/`. */
  function NextWindow(w: int, success: bool): int {
    if success then w + 1 else if w / 2 < 1 then 1 else w / 2
  }

  /** The adjustment one receive outcome applies inside the ACK loop: the ACK is a success,
      a timeout a failure, any other datagram (or an escaping fault) neither. */
  function Step(w: int, e: Event): int {
    if IsAck(e) then NextWindow(w, true) else if e.Timeout? then NextWindow(w, false) else w
  }

  /** The window after the adjustments of a run of receive outcomes, in order. */
  function WindowAfter(w: int, es: seq<Event>): int
    decreases |es|
  {
    if es == [] then w else Step(WindowAfter(w, es[..|es| - 1]), es[|es| - 1])
  }

  /** A success adds exactly one; a failure never grows the window and never takes it
      below 1. */
  lemma {:induction false} NextWindowBounds(w: int)
    requires w >= 1
    ensures NextWindow(w, true) == w + 1
    ensures 1 <= NextWindow(w, false) <= w
    ensures w >= 2 ==> NextWindow(w, false) < w
  {
  }

  /** From any window of at least 1, every run of adjustments keeps it at least 1. */
  lemma {:induction false} WindowStaysPositive(w: int, es: seq<Event>)
    requires w >= 1
    ensures WindowAfter(w, es) >= 1
    decreases |es|
  {
    if es != [] {
      WindowStaysPositive(w, es[..|es| - 1]);
    }
  }

  /** n successes in a row add exactly n: from INITIAL_WINDOW_SIZE the window is 1 + n. */
  lemma {:induction false} SuccessesAddOne(w: int, n: nat)
    ensures WindowAfter(w, Repeat(Arrive(ACK), n)) == w + n
  {
    if n > 0 {
      assert Repeat(Arrive(ACK), n)[..n - 1] == Repeat(Arrive(ACK), n - 1);
      SuccessesAddOne(w, n - 1);
    }
  }

  /** Without an ACK the window never grows. */
  lemma {:induction false} NoAckNoGrowth(w: int, es: seq<Event>)
    requires w >= 1
    requires forall j :: 0 <= j < |es| ==> !IsAck(es[j])
    ensures 1 <= WindowAfter(w, es) <= w
    decreases |es|
  {
    if es != [] {
      NoAckNoGrowth(w, es[..|es| - 1]);
    }
  }

  class ReliableUDPClient {
    /** `self.sequence_number` */
    var sequenceNumber: nat
    /** `self.window_size` */
    var windowSize: int
    /** Every datagram sent to the server address, in order. */
    var sent: seq<Frame>

    ghost predicate Valid()
      reads this
    {
      windowSize >= 1
    }

    constructor ()
      ensures Valid()
      ensures sequenceNumber == 0 && windowSize == INITIAL_WINDOW_SIZE && sent == []
    {
      sequenceNumber := 0;
      windowSize := INITIAL_WINDOW_SIZE;
      sent := [];
    }

    /** `adjust_window_size(success)`: only `window_size` changes. */
    method AdjustWindowSize(success: bool)
      modifies this`windowSize
      ensures windowSize == NextWindow(old(windowSize), success)
      ensures old(windowSize) >= 1 ==> windowSize >= 1
    {
      if success {
        windowSize := windowSize + 1;
      } else {
        windowSize := if windowSize / 2 < 1 then 1 else windowSize / 2;
      }
    }

    /** One call. The window follows every ACK and timeout the loop saw, but never limits
        what is sent; the counter advances once the response decodes, matched or not. */
    method SendRequest(name: string, args: seq<Value>, kwargs: map<string, Value>,
                       events: seq<Event>, response: Event) returns (r: CallOutcome)
      requires Valid()
      modifies this
      ensures Valid()
      ensures r == SequencedOutcome(events, response, old(sequenceNumber))
      ensures windowSize == WindowAfter(old(windowSize), Padded(events, Sends(events)))
      ensures sequenceNumber == old(sequenceNumber) + (if r.Completed? || r.Mismatched? then 1 else 0)
      ensures sent == old(sent) + Repeat(EncodeRequest(name, args, kwargs, old(sequenceNumber)), Sends(events))
    {
      ghost var w0 := windowSize;
      var request := EncodeRequest(name, args, kwargs, sequenceNumber);
      var attempt := 0;
      while true
        invariant attempt < MAX_RETRIES
        invariant forall j :: 0 <= j < attempt ==> !Stops(EventAt(events, j))
        invariant sent == old(sent) + Repeat(request, attempt)
        invariant windowSize == WindowAfter(w0, Padded(events, attempt))
        invariant sequenceNumber == old(sequenceNumber)
        decreases MAX_RETRIES - attempt
      {
        sent := sent + [request];
        var e := EventAt(events, attempt);
        assert Padded(events, attempt + 1)[..attempt] == Padded(events, attempt);
        if e.Fault? {
          StopIsFirstStop(events, attempt);
          WindowStaysPositive(w0, Padded(events, attempt + 1));
          return Escaped;
        }
        if IsAck(e) {
          AdjustWindowSize(true);
          break;
        }
        if e.Timeout? {
          AdjustWindowSize(false);
        }
        if attempt == MAX_RETRIES - 1 {
          break;
        }
        attempt := attempt + 1;
      }
      WindowStaysPositive(w0, Padded(events, attempt + 1));
      if IsAck(EventAt(events, attempt)) {
        StopIsFirstStop(events, attempt);
      } else {
        StopIsFirstStop(events, MAX_RETRIES);
      }
      if attempt == MAX_RETRIES - 1 {
        return DeliveryFailed;
      }
      if response.Timeout? {
        return Blocked;
      }
      if response.Fault? {
        return Escaped;
      }
      match DecodeResponse(response.frame)
      case None =>
        r := Escaped;
      case Some((result, got)) =>
        r := if SeqMatches(got, sequenceNumber) then Completed(result) else Mismatched;
        sequenceNumber := sequenceNumber + 1;
    }
  }
}
