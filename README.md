# lakgves gateway core, modelled in Dafny

The gateway takes HTTP requests on `/dhi`, `/sp` and `/ips`. It forwards each one to a backend host over a TCP connection that was opened at start-up, and it maps the backend's answer, or the failure, to an HTTP response. This project models the three pieces of sequential logic under the I/O:

- **The connection pool** (`AppState`). A fixed vector of connections, its length, and a counter. Every request does a fetch-and-increment of the counter and uses connection `counter mod n`. In `pool.dfy` this is the class `ConnectionPool.AppState`. The vector and its length are `const` fields, so they cannot change after construction. The counter is the only mutable field. The pure functions `NextIndex` and `Trace` describe a single selection and a run of selections, and the lemmas about them give the round-robin guarantees: cyclic order, period `n`, and every connection exactly once in any `n` consecutive requests (so request `n + 1` shares a socket with request 1).
- **The exchange and the buffer hand-off** (`talk_to_*_host`). One write and one read within the timeout fill a zeroed 8192-byte buffer, or fail with `IoError`. The DHI parser is given the buffer without its 5-byte length prefix. The SP and IPS response constructors are given the whole buffer, and the read count is thrown away. This is in `exchange.dfy`. The socket, the backend and the clock are abstracted into one input, `SocketStep`.
- **The outcome classification** (the `match res` in each `serve_*_request`). Success becomes 200 with `X-Hdr: sample`. `IoError` becomes 504, and every other error becomes 500, always with content type `plain/text` and a fixed body. This is in `responses.dfy`. It holds the three handler blocks as written, the table they share, and a read-back function that shows the response alone tells a client which error kind happened.

`handlers.dfy` chains these steps into the six `talk_to_*`/`serve_*` operations on a shared pool. `errors.dfy` holds the error taxonomy.

The codecs are outside the model. They appear only as function parameters: `decode`, `serialize` and `encode`. The backend's behaviour is the parameter `backend(conn, msg)`, and opening a connection is the constructor parameter `connect(host, x)`.

Three facts of the code shape the model:
- One pool is built, from the `dhi` channel's configuration (src/main.rs:299-301). All three routes share it, so the handlers all take the same `AppState`. There is no per-channel pool.
- UTF-8 and JSON decoding of the inbound payload (DHI and IPS only; SP has neither step), `SigmaRequest::new(...).unwrap()` and every `serialize().unwrap()` are panics in the code, not a `ParseError` or `SerializeError`. `DHIRequest::new` and `SPRequest::new` return a request directly and report no failure. An error while reading the HTTP body goes back to actix through `?`, not through the `AppError` match. Only the DHI response parser (`from_reader(...)?`) produces a classified error after the exchange; the model assumes the `?` turns it into `ParseError`. The SP and IPS response constructors cannot fail.
- A gateway timeout is 504. The success header `X-Hdr: sample` is set on all three channels.

## Model

| member | source | states |
|---|---|---|
| ConnectionPool.AsUsize | src/main.rs:44 | the `i64 as usize` cast keeps a non-negative count and wraps a negative one modulo 2^64 (result below 2^64 and congruent to the input) |
| ConnectionPool.NextIndex | src/main.rs:61-64 | one selection returns an index below `n`, advances the counter by exactly one, and returns the counter itself while it is below `n` |
| ConnectionPool.NextIndexRepeats | src/main.rs:62-63 | a counter one full turn (`n`) later selects the same index |
| ConnectionPool.Trace | src/main.rs:61-64 | `k` consecutive calls yield `k` indices, each below `n` |
| ConnectionPool.TraceAt | src/main.rs:62-63 | the i-th of consecutive calls starting at counter `c` returns `(c + i) mod n` |
| ConnectionPool.FreshPoolIsCyclic | src/main.rs:57-63 | from a fresh counter the i-th call returns `i mod n`, and the first `n` calls return 0..n-1 in order |
| ConnectionPool.TraceIsPeriodic | src/main.rs:62-63 | calls `i` and `i + n` of a run pick the same connection |
| ConnectionPool.WindowVisitsEveryConnection | src/main.rs:61-68 | any `n` consecutive calls, from any counter, include each connection index |
| ConnectionPool.WindowIsInjective | src/main.rs:61-68 | no two of `n` consecutive calls pick the same connection |
| ConnectionPool.TwoConnectionsThreeCalls | src/main.rs:61-68 | a fresh pool of 2 serves three calls with connections 0, 1, 0 |
| ConnectionPool.AppState.constructor | src/main.rs:42-59 | the pool holds exactly `n as usize` connections, the x-th being the x-th one opened to the host, and the counter starts at 0 |
| ConnectionPool.AppState.GetStreamIndex | src/main.rs:61-64 | requires a non-empty pool; returns the old counter mod `n` (in bounds), increments the counter by one, and changes nothing else |
| ConnectionPool.AppState.GetStream | src/main.rs:66-69 | returns the connection at the selected index, always in bounds, and increments the counter by one |
| ConnectionPool.AppState.GetStreamIndices | src/main.rs:61-64 | `k` successive `get_stream_index` calls on the pool return exactly `Trace(counter, k, n)` and advance the counter by `k`, so the cyclic, periodic and window lemmas hold of the class |
| ConnectionPool.TwoConnectionScenario | src/main.rs:42-69 | a pool built with two connections gives its first three callers connections 0, 1 and 0 |
| HostExchange.ReadInto | src/main.rs:75-80 | the buffer is 8192 bytes: the first `min(len, 8192)` received bytes followed by the initial zeros |
| HostExchange.Exchange | src/main.rs:78-83 | the exchange returns a buffer exactly when write and read completed; every write, read or timeout failure is an `IoError`, never a partial buffer |
| HostExchange.Lift | src/main.rs:86 | a parse failure becomes `ParseError` with its detail; a parsed value passes through unchanged |
| HostExchange.DhiOutcome | src/main.rs:73-88 | DHI: an exchange error is returned as is; otherwise the parser receives the buffer from byte 5 on |
| HostExchange.WholeBufferOutcome | src/main.rs:91-105 | SP (and IPS): an exchange error is returned as is; otherwise the constructor receives all 8192 bytes and its result is `Ok` |
| HostExchange.ReadIntoKeepsChunk | src/main.rs:75-80 | a read of at most 8192 bytes is kept unaltered, followed by zeros |
| HostExchange.ReadIntoTruncates | src/main.rs:80 | of a longer response only the first 8192 bytes reach the buffer |
| HostExchange.DhiCodecReceivesPayload | src/main.rs:85-86 | the DHI parser gets exactly 8187 bytes: the read without its first 5 bytes, then zeros |
| HostExchange.DhiShortReadYieldsZeros | src/main.rs:85-86 | a read of 5 bytes or fewer leaves the DHI parser only zeros |
| HostExchange.DhiPrefixIgnored | src/main.rs:85-86 | responses that differ only in the 5-byte length prefix parse identically |
| HostExchange.WholeBufferCodecReceivesRead | src/main.rs:103 | the SP/IPS constructor receives the read bytes followed by zeros, 8192 bytes |
| HostExchange.ReadCountDiscarded | src/main.rs:98-103 | a read and the same read with an extra zero byte reach the constructor as the same buffer |
| HostExchange.WholeBufferRoundTrip | src/main.rs:123 | a response of at most 8192 bytes, under a codec that ignores trailing zero padding, comes back as the encoded response |
| HostExchange.PaddingReachesWholeBufferCodec | src/main.rs:103 | the zero padding does reach the SP/IPS constructor: with the identity codec a 3-byte response does not come back as itself |
| HostExchange.DhiRoundTrip | src/main.rs:86 | a 5-byte prefix plus an encoding of at most 8187 bytes, under a parser that ignores trailing zero padding, yields the encoded response |
| HostExchange.PaddingReachesDhiParser | src/main.rs:85-86 | the zero padding does reach the DHI parser: with the identity parser the payload does not come back as itself |
| Responses.ErrorReply | src/main.rs:150-175 | every error reply is `plain/text` with no header; 504 exactly for `IoError`, 500 otherwise; the body per kind, naming the host for communication and processing errors |
| Responses.SuccessReply | src/main.rs:145-148 | a success reply is 200 with `X-Hdr: sample`, JSON for DHI and XML otherwise, and the serialized response as its body, unchanged |
| Responses.ServeDhiResponse | src/main.rs:142-176 | the DHI handler's match agrees with the success reply and the error table on every outcome |
| Responses.ServeSpResponse | src/main.rs:199-234 | the SP handler's match agrees with the success reply and the error table on every outcome |
| Responses.ServeIpsResponse | src/main.rs:255-290 | the IPS handler's match agrees with the success reply and the error table on every outcome |
| Responses.ErrorKindIsRecoverable | src/main.rs:150-175 | reading an error reply back yields the error's kind: all four kinds are distinguishable from each other and from success |
| Responses.SuccessIsRecognised | src/main.rs:143-148 | a success reply is never read as an error |
| Responses.HandlersFollowTable | src/main.rs:150-290 | the three handlers classify every error identically, return the same status for every outcome, and give SP and IPS identical success replies |
| Responses.ErrorBodyNamesChannel | src/main.rs:150-290 | error replies of two channels differ exactly for communication and processing errors, whose bodies name the host |
| Handlers.TalkToDhiHost | src/main.rs:73-88 | takes the next pooled connection (counter +1) and returns the DHI outcome of that connection's exchange |
| Handlers.TalkToSpHost | src/main.rs:91-105 | takes the next pooled connection (counter +1) and returns the whole-buffer outcome of its exchange |
| Handlers.TalkToIpsHost | src/main.rs:108-125 | takes the next pooled connection (counter +1) and returns the whole-buffer outcome of its exchange |
| Handlers.ServeDhiRequest | src/main.rs:128-177 | the HTTP response is the DHI handler's match applied to the exchange on the next pooled connection |
| Handlers.ServeSpRequest | src/main.rs:180-235 | the HTTP response is the SP handler's match applied to the exchange on the next pooled connection |
| Handlers.ServeIpsRequest | src/main.rs:238-291 | the HTTP response is the IPS handler's match applied to the exchange on the next pooled connection |
| Handlers.SocketFailureIsGatewayTimeout | src/main.rs:150-290 | on every channel the reply is 504 exactly when the exchange did not deliver a buffer |
| Handlers.MalformedDhiResponseIsParseError | src/main.rs:157-162 | a DHI response the parser rejects yields the 500 "Error processing data from DHI host" reply |

## Left out

- Opening the connections: `TcpStream::connect`, `set_nodelay` and their `unwrap()` panics. The constructor takes `connect(host, x)` as the x-th connection. A failed connect aborts the process and is not modelled.
- The socket write and read and the 5-second `io::timeout`. These are I/O and time. `SocketStep` is the input that says whether the exchange delivered a chunk or failed, and a timeout is one way to fail. Each exchange reads once, so the tail of a response longer than 8192 bytes, or a reply that arrived after the timeout, stays on the socket and is read by the next request given that connection (`n` requests later); the per-exchange `SocketStep` input covers this, since its chunk may hold bytes left over from an earlier exchange on the same connection.
- Concurrency: the atomic `fetch_add` with `SeqCst` is one sequential step. Two requests that share one socket and interleave their bytes are not modelled. The lemmas show only which requests are given the same connection.
- ConnectionPool.AsUsize: the cast wraps modulo 2^64, which assumes a 64-bit `usize`; other widths are not modelled.
- ConnectionPool.AppState.GetStreamIndex: the counter is a `nat`, so the `usize` wrap-around of `fetch_add` after 2^64 requests is not modelled. Past that wrap the cycle restarts at 0, off-phase with `n` unless `n` divides 2^64.
- The codecs (`DHIRequest`/`DHIResponse`, `SPRequest`/`SPResponse` with `gen_message_id`, `SigmaRequest`/`SigmaResponse`, `serde_json`, `serde_xml_rs`). These are external libraries, so they appear only as function parameters. The SP request mutation happens before `msg` exists.
- The request side of each handler, which runs before the exchange, so the handlers start from the serialized `msg`, taken as bytes:
  - `body.next().await.unwrap()?` reads only the first chunk of the HTTP body. A missing chunk panics. A payload error is returned through `?` to actix, which answers with its own error response; that error is not an `AppError`.
  - UTF-8 and JSON decoding (DHI and IPS), `SigmaRequest::new(...).unwrap()` and the request's `serialize().unwrap()` are panics, not classified errors. `DHIRequest::new` and `SPRequest::new` cannot fail.
  - The `as_bytes()` conversion of a `String` is not modelled.
- The response-side `serialize().unwrap()` is the total function parameter `serialize`. Its panic is not modelled.
- Logging (`println!`), actix routing, `HttpServer` setup, configuration loading and argument parsing. These are I/O and framework code.
- src/errors.rs is not part of this model. The `AppError` cases other than the three named ones become `OtherError`. The conversions behind `?` are assumed to be these: socket and timeout errors become `IoError`, and parser errors become `ParseError`.
