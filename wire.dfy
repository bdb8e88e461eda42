/** The datagram channel as every variant sees it: JSON values, frames, the ACK marker,
    and the script of receive outcomes that replaces a real socket. */
module Wire {

  datatype Option<T> = None | Some(value: T)

  /** Number of times a request (client) or a response (server) is transmitted at most. */
  const MAX_RETRIES: nat := 5

  /** A JSON value as Python's `json` module decodes it (floats are not modelled). */
  datatype Value =
    | Null
    | Bool(b: bool)
    | Int(i: int)
    | Str(s: string)
    | Arr(items: seq<Value>)
    | Obj(fields: map<string, Value>)

  /** A datagram payload: JSON text, or text that is not JSON (error strings, the ACK marker). */
  datatype Frame = Json(value: Value) | Text(text: string)

  /** The three-byte acknowledgment marker `b'ACK'`; it is not JSON. */
  const ACK: Frame := Text("ACK")

  /** What one blocking receive with a timeout yields: a datagram, a timeout, or any other
      exception raised by the socket or by decoding the bytes. */
  datatype Event = Arrive(frame: Frame) | Timeout | Fault

  predicate IsAck(e: Event) {
    e == Arrive(ACK)
  }

  /** The outcome of the i-th receive of a script; past its end the peer stays silent. */
  function EventAt(events: seq<Event>, i: int): Event {
    if 0 <= i < |events| then events[i] else Timeout
  }

  /** The first n receive outcomes of a script, silence included. */
  function Padded(events: seq<Event>, n: nat): (r: seq<Event>)
    ensures |r| == n
    ensures forall j :: 0 <= j < n ==> r[j] == EventAt(events, j)
  {
    seq(n, j => EventAt(events, j))
  }

  /** A peer's (host, port) pair. */
  datatype Address = Address(host: string, port: nat)

  /** A datagram a server sent, with its destination. */
  datatype Packet = Packet(to: Address, frame: Frame)

  function Repeat<T>(x: T, n: nat): (r: seq<T>)
    ensures |r| == n
    ensures forall j :: 0 <= j < n ==> r[j] == x
  {
    seq(n, _ => x)
  }

  function Digit(d: nat): char
    requires d < 10
  {
    "0123456789"[d]
  }

  /** Decimal text of a natural number, as Python's `str` writes it. */
  function NatText(n: nat): (r: string)
    ensures |r| >= 1
    ensures forall k :: 0 <= k < |r| ==> '0' <= r[k] <= '9'
  {
    if n < 10 then [Digit(n)] else NatText(n / 10) + [Digit(n % 10)]
  }

  /** The number a string of decimal digits denotes. */
  function DigitsValue(s: string): nat
    requires forall k :: 0 <= k < |s| ==> '0' <= s[k] <= '9'
  {
    if s == [] then 0 else DigitsValue(s[..|s| - 1]) * 10 + (s[|s| - 1] as int - '0' as int)
  }

  /** NatText writes n back: its digits denote n, with no leading zero. */
  lemma {:induction false} NatTextValue(n: nat)
    ensures DigitsValue(NatText(n)) == n
    ensures |NatText(n)| > 1 ==> NatText(n)[0] != '0'
  {
    if n >= 10 {
      NatTextValue(n / 10);
      var s := NatText(n / 10);
      assert NatText(n) == s + [Digit(n % 10)];
      assert (s + [Digit(n % 10)])[..|s|] == s;
    }
  }

  /** Decimal text of an integer, with a leading '-' when negative. */
  function IntText(i: int): string {
    if i < 0 then "-" + NatText(-i) else NatText(i)
  }
}
