# Reliable RPC over UDP — a verified model

This project models the UDP variants of a small remote-procedure-call system. The common
protocol runs between the four sequenced clients (`client_frontend.py`, `rUDP_c.py`,
`clientf.py`, `rpc_rel_c.py`) and the servers `serverf.py`, `rUDP_s.py` and
`server_frontend.py`:

- The client sends a request `[function_name, args, kwargs, sequence_number]` as one JSON
  datagram.
- The client waits up to `MAX_RETRIES` (5) times for the server's `ACK`, then reads the
  response `[result, sequence_number]`.
- The server acknowledges every datagram before decoding it.
- The server looks the name up in a table of registered handlers. It turns "not found" and
  raised exceptions into error strings.
- The server replies with the result and the request's sequence number.

The other variants change or extend this:

- `rUDP_c.py` adds an adaptive window on the client.
- `rUDP_s.py` adds per-client buffer sizes on the server.
- `server_frontend.py` and `final/server.py` resend the response until the client
  acknowledges it.
- `final/client.py` and `final/server.py` replace the four-field request with
  `[function_name, args, kwargs]`, without a sequence number.
  - The server replies with the bare result, with no sequence number.
  - The client guards each call with a `ready_to_send` flag.
- `test/server.py` replaces the per-datagram ACK with a batched one.
  - It sends no ACK before decoding.
  - It sends one ACK after the response of every fifth well-formed request.
  - An unknown name gets "Function not found".
  - An exception raised by a handler is not turned into a string; it escapes the serve loop.

The socket is replaced by a script of receive outcomes (`Wire.Event`: a datagram, a timeout,
or any other exception). Each server's endless loop is modelled as one iteration over one
inbound datagram. Every class keeps a `sent` log of the datagrams it put on the wire. Each
method is proved against specification functions:

- `AckPhase`: the request/ACK loop shared by all clients (where it stops, how many sends);
- `Retransmit`: the server's response/ACK loop;
- `Dispatcher`: the handler table;
- `Codec`: the envelopes.

Lemmas about those functions state the protocol's promises.

Modules, one per file: `Wire`, `Codec`, `Dispatcher`, `AckPhase`, `Retransmit` (shared
specification); `ClientFrontend`, `RudpClient`, `ClientF`, `RpcRelClient`, `FinalClient`
(clients); `ServerF`, `RudpServer`, `ServerFrontend`, `FinalServer`, `BatchServer` (servers);
`Protocol` (client and server together).

## Model

| member | source | states |
|---|---|---|
| Wire.NatTextValue | server_frontend.py:45 | the decimal text written for a port number (and for an integer name in the not-found string) denotes exactly that number, without a leading zero |
| Codec.Unpack | serverf.py:36 | unpacking succeeds exactly on a JSON array of the expected length, and yields its items |
| Codec.RequestRoundTrip | client_frontend.py:27 | the four-field request decodes to the name, args, kwargs and current sequence number it was built from |
| Codec.CallRoundTrip | final/client.py:26 | the three-field request decodes to exactly its name, args and kwargs |
| Codec.ResponseRoundTrip | serverf.py:53 | a response envelope decodes to the result and sequence number put into it |
| Codec.ShapesAreDistinct | final/server.py:34 | a four-field request is malformed for the three-field server and vice versa; the ACK marker decodes as no request and no response |
| Codec.EchoedSeqMatches | client_frontend.py:60 | an echoed sequence number matches the client's counter and no other number does |
| Dispatcher.Dispatch | serverf.py:44-50 | a registered name gives its handler's result, or "Error while executing function: m" when it raises; an unregistered name gives "Error: Function 'name' not found." (a number, boolean or null name shown as Python prints it); a list or dict name gives the "unhashable type" execution error |
| Dispatcher.RegisterThenDispatch | serverf.py:20-21 | after registering, the name dispatches to the new handler and every other name dispatches as before |
| Dispatcher.FailuresAreErrorStrings | rUDP_s.py:63-69 | whenever no handler returns normally, the result is a string beginning with "Error" |
| Dispatcher.UnknownNameNamed | server_frontend.py:52-53 | an unregistered "divide" yields exactly "Error: Function 'divide' not found." |
| Dispatcher.BatchDispatch | test/server.py:37 | a registered handler's result is returned, and its exception escapes; an unregistered hashable name yields "Function not found" exactly when the default can spread args and kwargs, and the call escapes otherwise |
| AckPhase.StopFrom | client_frontend.py:35-46 | the loop stops at an attempt between the current one and MAX_RETRIES |
| AckPhase.StopFromIsFirst | client_frontend.py:35-46 | the stopping attempt received an ACK or a fault, and every earlier attempt received neither |
| AckPhase.StopIsFirstStop | client_frontend.py:35-46 | the loop stops at r exactly when r is the first attempt to receive an ACK or a fault, or MAX_RETRIES if none did |
| AckPhase.SendsCounted | client_frontend.py:35-46 | the request is sent between 1 and MAX_RETRIES times; each extra send follows a timeout or a non-ACK datagram |
| AckPhase.TimeoutsThenAck | clientf.py:20-35 | k timeouts then the ACK stop the loop at attempt k after exactly k + 1 sends |
| AckPhase.AsWrittenFailureIff | client_frontend.py:48-51 | the `attempt == MAX_RETRIES - 1` test fires exactly when none of the first four attempts was acknowledged |
| AckPhase.LastAttemptAckRejected | rpc_rel_c.py:36-38 | four timeouts then an ACK: the ACK is received, and the call is still reported as failed after five sends |
| AckPhase.ForElseFailureIff | final/client.py:29-50 | the for/else failure fires exactly when none of the five attempts stopped; an ACK on any attempt rules it out |
| AckPhase.SequencedCompletedIff | client_frontend.py:48-68 | a sequenced call returns v exactly when an ACK arrived before the last attempt and a response arrived that decodes to v with the expected sequence number |
| AckPhase.LostResponseBlocks | client_frontend.py:53-54 | after an ACK before the last attempt, a response that never arrives leaves the call blocked for good, never reported |
| AckPhase.TimedReadAlwaysReports | final/client.py:52-54 | with a time-out on the response read, no call blocks; a lost response is a delivery failure, and every other run ends as with the blocking read |
| AckPhase.TotalLossFails | rUDP_c.py:30-50 | with nothing received, the request goes out MAX_RETRIES times and the call fails |
| Retransmit.AwaitAck | server_frontend.py:58-72 | the wait ends with attempts between its start and MAX_RETRIES; it is exhausted exactly when attempts reaches MAX_RETRIES, and otherwise the response went out at least once |
| Retransmit.AcksAndTimeoutsBounded | server_frontend.py:58-72 | when the client sends only ACKs and timeouts, the response goes out at most MAX_RETRIES times |
| Retransmit.SilentClientExhausts | server_frontend.py:58-77 | a silent client gets the response MAX_RETRIES times, then failure is reported |
| Retransmit.AwaitAckShift | final/server.py:54-67 | the wait depends only on the receive outcomes still to come |
| Retransmit.StrayDatagramResends | server_frontend.py:64-72 | a non-ACK datagram causes one resend and does not count as an attempt |
| Retransmit.TimeoutCountsAttempt | final/server.py:59-67 | a timeout causes one resend and counts one attempt |
| ClientFrontend.ReliableUDPClient.constructor | client_frontend.py:20-23 | the sequence number starts at 0 and nothing has been sent |
| ClientFrontend.ReliableUDPClient.SendRequest | client_frontend.py:26-74 | the outcome follows the sequenced-client rules. The counter rises by one only on a matched response. The log holds the request once per send, carrying the old counter, plus an ACK only on a matched response. A response that never arrives blocks the call |
| RudpClient.NextWindowBounds | rUDP_c.py:17-24 | a success adds exactly one; a failure gives a window between 1 and the old one, strictly smaller from 2 up |
| RudpClient.WindowStaysPositive | rUDP_c.py:8-24 | from a window of at least 1, every run of adjustments keeps it at least 1 |
| RudpClient.SuccessesAddOne | rUDP_c.py:19-21 | n successes add exactly n |
| RudpClient.NoAckNoGrowth | rUDP_c.py:22-24 | without an ACK the window never grows and stays at least 1 |
| RudpClient.ReliableUDPClient.constructor | rUDP_c.py:11-15 | sequence number 0, window INITIAL_WINDOW_SIZE |
| RudpClient.ReliableUDPClient.AdjustWindowSize | rUDP_c.py:17-24 | only the window changes: +1 on success, halved with a floor of 1 on failure |
| RudpClient.ReliableUDPClient.SendRequest | rUDP_c.py:26-63 | The window has taken one adjustment per receive outcome of the loop. The counter rises by one whenever a response decodes, matched or not. Only requests are sent. A response that never arrives blocks the call |
| ClientF.ReliableUDPClient.constructor | clientf.py:11-14 | the sequence number starts at 0 |
| ClientF.ReliableUDPClient.SendRequest | clientf.py:16-60 | the sequenced-client outcome, including the last-attempt failure; the counter rises by one whenever a response decodes; no response ACK; a response that never arrives blocks the call |
| RpcRelClient.ReliableUDPClient.constructor | rpc_rel_c.py:11-14 | the sequence number starts at 0 |
| RpcRelClient.ReliableUDPClient.SendRequest | rpc_rel_c.py:16-51 | the sequenced-client outcome, including the last-attempt failure; the counter rises by one whenever a response decodes; no response ACK; a response that never arrives blocks the call |
| FinalClient.LastAttemptAckAccepted | final/client.py:29-50 | four timeouts then the ACK complete the call after five sends |
| FinalClient.FinalCompletedIff | final/client.py:29-72 | a call completes with v exactly when some attempt was acknowledged and the next receive is JSON v; there is no sequence check |
| FinalClient.RPCClient.constructor | final/client.py:10-12 | ready to send, nothing sent |
| FinalClient.RPCClient.SendRpcRequest | final/client.py:14-72 | the flag is up again on every exit. The outcome is the for/else rule. The log holds the three-field request once per send, plus an ACK only after a JSON response |
| ServerF.ReliableUDPServer.constructor | serverf.py:11-17 | no handlers, nothing sent |
| ServerF.ReliableUDPServer.RegisterMethod | serverf.py:20-21 | binds or overwrites one name |
| ServerF.ReliableUDPServer.ServeOne | serverf.py:25-54 | the ACK is sent first, then exactly one reply: the envelope echoing the sequence number, or the invalid-format string |
| RudpServer.GrownCycles | rUDP_s.py:32-35 | buffer sizes stay among 1024, 2048, 3072 and 4096, and four adjustments come back to the start |
| RudpServer.AdjustedTouchesOne | rUDP_s.py:25-35 | a new address gets 1024; other entries are unchanged; at most one key is added; sizes stay valid |
| RudpServer.SweptAdvancesEach | rUDP_s.py:41-42 | the sweep adjusts every known client and adds none |
| RudpServer.ReliableUDPServer.constructor | rUDP_s.py:13-19 | no handlers, no buffers, nothing sent |
| RudpServer.ReliableUDPServer.RegisterMethod | rUDP_s.py:22-23 | binds or overwrites one name |
| RudpServer.ReliableUDPServer.AdjustBuffer | rUDP_s.py:25-35 | the table becomes the one-entry adjustment of the old one, and every size stays valid |
| RudpServer.ReliableUDPServer.SweepBuffers | rUDP_s.py:41-42 | every known client is adjusted once |
| RudpServer.ReliableUDPServer.ServeOne | rUDP_s.py:39-73 | sweep, then the sender adjusted once more; ACK first, then exactly one reply echoing the sequence number or the error string |
| ServerFrontend.RPCServer.constructor | server_frontend.py:19-26 | no handlers, nothing sent |
| ServerFrontend.RPCServer.RegisterMethod | server_frontend.py:28-29 | binds or overwrites one name |
| ServerFrontend.RPCServer.ServeOne | server_frontend.py:33-77 | ACK first. A malformed request gets one error string naming the client, with no dispatch. A well-formed one gets the envelope once per send of the retransmit wait, and the outcome reports that wait |
| FinalServer.RPCServer.constructor | final/server.py:10-15 | no handlers, nothing sent |
| FinalServer.RPCServer.RegisterMethod | final/server.py:18-19 | binds or overwrites one name |
| FinalServer.RPCServer.ServeOne | final/server.py:23-73 | ACK first. A request that is not three fields gets one error string. Otherwise the bare result, with no sequence number, goes out once per send of the retransmit wait |
| BatchServer.BatchAcksIsQuotient | test/server.py:43-47 | after n served requests exactly n / 5 ACKs have gone out |
| BatchServer.LowLatencyBatchUDPServer.constructor | test/server.py:9-19 | the request count starts at 0 |
| BatchServer.LowLatencyBatchUDPServer.RegisterMethod | test/server.py:22-23 | binds or overwrites one name |
| BatchServer.LowLatencyBatchUDPServer.ServeOne | test/server.py:27-47 | Non-JSON text is skipped and changes nothing. A served request gets one response echoing its sequence number, and the server-wide count rises by one. An ACK follows exactly when the count is a multiple of 5, keeping ACKs at count / 5 |
| Protocol.ReplyEchoesSeq | serverf.py:36-54 | the reply to a well-formed request decodes to the dispatch result and that request's own sequence number |
| Protocol.MalformedGetsNoEnvelope | rUDP_s.py:53-60 | a malformed request gets text, not an envelope, and a sequenced client reading it fails to unpack it |
| Protocol.LosslessSequencedCall | client_frontend.py:26-68 | over a lossless channel a call is sent once and completes with the server's dispatch result |
| Protocol.StaleReplyMismatched | client_frontend.py:58-71 | a reply carrying another sequence number is reported as a mismatch |
| Protocol.FinalPairCompletes | final/client.py:52-65 | final/client.py against final/server.py: once acknowledged, the call completes with the dispatch result |

## Left out

- The Qt GUI and login/signup classes of the two frontends, and their signal logging, are UI and are not modelled.
- Sockets, `settimeout`, and wall-clock response times (floats) are not modelled. Each receive is an entry of a script, and each send is an entry of the `sent` log.
- Wire.Frame: a `Text` frame stands for a datagram that is valid UTF-8 but not JSON. Datagrams that are not UTF-8 have no frame of their own: in a receive script, the waits that decode (final/client.py, and the two resending servers) see them as a `Fault`, and the sequenced clients' byte comparison with `b'ACK'` sees them as any other datagram. Nothing stops a caller from putting JSON-shaped characters in a `Text`; such a frame is still decoded as not JSON, where Python would parse it. Any JSON payload is meant to be given as `Json`.
- JSON text encoding is not modelled; envelopes are values (`Wire.Value`). Floats are absent from `Value`.
- Codec.Unpack: a JSON string or object of exactly N characters or keys, which Python would also unpack, is treated as malformed.
- Codec.UnpackError: the text of the Python exception inside "Invalid request format. {e}" is approximated; for a datagram that is not UTF-8, or for JSON strings and objects, it is not exact.
- BatchServer.LowLatencyBatchUDPServer.ServeOne: an inbound datagram that is not UTF-8 is not modelled. In test/server.py its `data.decode()` raises `UnicodeDecodeError`, which `except json.JSONDecodeError` does not catch, so the server stops; the model has no frame for it and skips only text that is not JSON.
- Dispatcher.Dispatch: handlers take the raw `args` and `kwargs` JSON values. Python's `*args, **kwargs` spreading, and its `TypeError` on a non-list or non-dict, are inside the opaque handler outcome.
- Dispatcher.BatchDispatch: the default lambda's acceptance of `*args, **kwargs` is approximated by the shape test (args a list, string or object; kwargs an object).
- FinalClient.RPCClient.SendRpcRequest: requires `readyToSend`. The busy-wait at final/client.py:19-20 only matters with concurrent callers, and sequentially the flag is always up on entry.
- The `threading.Lock` in rUDP_s.py is not modelled; `adjust_buffer` runs sequentially.
- test/client.py (concurrent batch sending) is not part of this model.
- The stream variants (test_tcp/, server_tcp.py, client_tcp.py) and the unacknowledged server.py / client.py are not part of this model; their lookup duplicates the dispatch modelled here.
- The example handlers (`add`, `multiply`, `subtract`, the frontend lambdas) are arbitrary handler values. Two of them appear only in `Protocol.Scenario`.
- The endless serve loops are modelled one iteration at a time. The blocking `recvfrom` at the head of each iteration is not modelled as failing.
- RudpServer.ReliableUDPServer.ServeOne: the `except socket.error: continue` around the receive is not modelled, because the receive itself is a parameter.
- ServerFrontend.RPCServer.ServeOne: the sender of a datagram received during the ACK wait is ignored, as in the source; an ACK from any address counts. An exception other than a timeout ends the wait as `Crashed`.
- The `client_addresses` dictionary of serverf.py is never used there and is not modelled.
- RudpClient.ReliableUDPClient.SendRequest: the window is tracked but, as in the source, it never limits sending.

## Findings

| source | as written | input that shows it | evidently intended | confidence | as-written member | corrected member |
|---|---|---|---|---|---|---|
| client_frontend.py:48 (also rUDP_c.py:48, clientf.py:39, rpc_rel_c.py:36) | after `for attempt in range(MAX_RETRIES)`, failure is `attempt == MAX_RETRIES - 1` | timeout, timeout, timeout, timeout, then `ACK` on the fifth attempt: the ACK is received and the call still reports "Max retries reached" | fail only when no attempt was acknowledged, the `for … else` of final/client.py | not executed | AckPhase.LastAttemptAckRejected | AckPhase.ForElseFailureIff |
| client_frontend.py:53-54 (also rUDP_c.py:53-54, clientf.py:44-45, rpc_rel_c.py:41-42) | after the ACK, `settimeout(None)` and a blocking `recvfrom` read the response | an ACK on the first attempt, then the response datagram is lost: the call never returns and never reports failure | a bounded read that reports a lost response as a failed delivery, as final/client.py keeps ACK_TIMEOUT for its response read | not executed | AckPhase.LostResponseBlocks | AckPhase.TimedReadAlwaysReports |

The four sequenced client classes keep the test and the blocking read as written, since
they model those files; a response that never arrives gives them the outcome `Blocked`.
`FinalClient` uses the corrected test (`AckPhase.FailsForElse`), and
`FinalClient.LastAttemptAckAccepted` shows the same script completing there.
