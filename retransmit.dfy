/** The server half of the handshake in server_frontend.py and final/server.py: send the
    response, wait for the client's ACK, resend; `attempts` counts only timeouts. */
module Retransmit {
  import opened Wire
  import opened Dispatcher

  /** How the wait ended: the ACK arrived (`break`), `attempts` reached MAX_RETRIES, or an
      exception other than a timeout escaped the serve loop. */
  datatype WaitEnd = AckReceived | Exhausted | Aborted

  /** `sends`: how many times the response went out; `attempts`: the counter's final value. */
  datatype Wait = Wait(sends: nat, attempts: nat, end: WaitEnd)

  /** What the serve loop reports after the wait: the failure message exactly when
      `attempts == MAX_RETRIES`. */
  function WaitServed(w: Wait): Served {
    match w.end
    case AckReceived => ReplyAcked
    case Exhausted => GaveUp
    case Aborted => Crashed
  }

  /** The measure that bounds the loop: each pass either consumes one scripted event or, once
      the script is over, meets a timeout and increments `attempts`. */
  function Fuel(events: seq<Event>, i: nat, attempts: nat): nat
    requires attempts <= MAX_RETRIES
  {
    MAX_RETRIES - attempts + (if i < |events| then |events| - i else 0)
  }

  /** `while attempts < MAX_RETRIES`, starting at the i-th receive with the counter at
      `attempts`. */
  function AwaitAck(events: seq<Event>, i: nat, attempts: nat): (w: Wait)
    requires attempts <= MAX_RETRIES
    ensures attempts <= w.attempts <= MAX_RETRIES
    ensures w.end == Exhausted <==> w.attempts == MAX_RETRIES
    ensures w.end != Exhausted ==> w.sends >= 1
    decreases Fuel(events, i, attempts)
  {
    if attempts == MAX_RETRIES then Wait(0, attempts, Exhausted)
    else
      var e := EventAt(events, i);
      if e.Fault? then Wait(1, attempts, Aborted)
      else if IsAck(e) then Wait(1, attempts, AckReceived)
      else
        var rest := AwaitAck(events, i + 1, if e.Timeout? then attempts + 1 else attempts);
        rest.(sends := rest.sends + 1)
  }

  /** When the client answers only with ACKs and timeouts, the response is sent at most
      MAX_RETRIES times in all. */
  lemma {:induction false} AcksAndTimeoutsBounded(events: seq<Event>, i: nat, attempts: nat)
    requires attempts <= MAX_RETRIES
    requires forall j :: 0 <= j < |events| ==> IsAck(events[j]) || events[j].Timeout?
    ensures AwaitAck(events, i, attempts).sends <= MAX_RETRIES - attempts
    decreases Fuel(events, i, attempts)
  {
    if attempts < MAX_RETRIES {
      var e := EventAt(events, i);
      if !IsAck(e) {
        assert e.Timeout?;
        AcksAndTimeoutsBounded(events, i + 1, attempts + 1);
      }
    }
  }

  /** A client that never answers: MAX_RETRIES sends, then the failure is reported. */
  lemma {:induction false} SilentClientExhausts(events: seq<Event>, i: nat, attempts: nat)
    requires attempts <= MAX_RETRIES
    requires i >= |events|
    ensures AwaitAck(events, i, attempts) == Wait(MAX_RETRIES - attempts, MAX_RETRIES, Exhausted)
    decreases MAX_RETRIES - attempts
  {
    if attempts < MAX_RETRIES {
      SilentClientExhausts(events, i + 1, attempts + 1);
    }
  }

  /** Dropping the first event of the script shifts every later receive by one. */
  lemma {:induction false} AwaitAckShift(x: Event, events: seq<Event>, i: nat, attempts: nat)
    requires attempts <= MAX_RETRIES
    ensures AwaitAck([x] + events, i + 1, attempts) == AwaitAck(events, i, attempts)
    decreases Fuel(events, i, attempts)
  {
    assert EventAt([x] + events, i + 1) == EventAt(events, i);
    if attempts < MAX_RETRIES {
      var e := EventAt(events, i);
      if !e.Fault? && !IsAck(e) {
        AwaitAckShift(x, events, i + 1, if e.Timeout? then attempts + 1 else attempts);
      }
    }
  }

  /** A datagram other than the ACK (a new request from any client, a duplicate) is dropped:
      it costs one resend and does not count as an attempt. */
  lemma {:induction false} StrayDatagramResends(f: Frame, events: seq<Event>, attempts: nat)
    requires attempts < MAX_RETRIES
    requires f != ACK
    ensures var w := AwaitAck(events, 0, attempts);
            AwaitAck([Arrive(f)] + events, 0, attempts) == w.(sends := w.sends + 1)
  {
    assert EventAt([Arrive(f)] + events, 0) == Arrive(f);
    AwaitAckShift(Arrive(f), events, 0, attempts);
  }

  /** A timeout costs one resend and one attempt. */
  lemma {:induction false} TimeoutCountsAttempt(events: seq<Event>, attempts: nat)
    requires attempts < MAX_RETRIES
    ensures var w := AwaitAck(events, 0, attempts + 1);
            AwaitAck([Timeout] + events, 0, attempts) == w.(sends := w.sends + 1)
  {
    assert EventAt([Timeout] + events, 0) == Timeout;
    AwaitAckShift(Timeout, events, 0, attempts + 1);
  }
}
