# go-http-proxy: a Dafny model of the request core

This project models the parts of the forward HTTP/HTTPS proxy in `main.go` that can be stated precisely:

- the header copy that forwards an upstream response's headers to the client;
- the dispatch between CONNECT tunnelling and plain HTTP forwarding;
- the decision and ordering logic of the two handlers;
- the verbose-logging guard.

The model has three modules:

- `HeaderMultimap` (`multimap.dfy`). This is the value view of an `http.Header`: a map from keys to value lists. It has these parts:
  - the append performed by `Header.Add`;
  - `Copied`, the state after the key blocks of a source header set are appended in a given key order;
  - the lemmas about that copy.

  The key canonicaliser (`textproto.CanonicalMIMEHeaderKey`) is a parameter `canon: string -> string`. Nothing is assumed about it except where a member states it.
- `Headers` (`headers.dfy`). The mutable header set is a class `Header`, whose map field is updated in place by `Add`. `copyHeader` is the method `CopyHeader`, with the two nested loops of the source. The order of the outer loop is chosen nondeterministically, because Go leaves map iteration order unspecified. The method returns, as a ghost value, the order it took, and states its new state as `Copied` of the old state in that order. The lemma `CopyHeaderExample` proves that the scenario of the header-copy unit test holds for every iteration order.
- `Proxy` (`proxy.dfy`). The outcomes of the foreign calls are inputs:
  - dial success, or failure with its error text;
  - whether the writer is a `Hijacker`;
  - hijack success or failure;
  - round-trip response (with its status code) or failure;
  - body-copy success or failure.

  Each handler is a function from those outcomes to the ordered list of its observable actions: `WriteStatus`, `ErrorResponse`, `StartTransfer`, `CopyHeaders`, `CopyBody`, `CloseBody` and `LogLine`. `CloseUpstream` also exists, so that the model can state that the handler never closes the dialled connection.

The model follows the code as written. These consequences of the code are worth noting:

- A tunnel's 200 status is written right after the dial. This comes before the hijacker check, not after it.
- When the writer cannot be hijacked, the handler answers 500 and returns. It does not close the dialled connection: `CloseUpstream` is never emitted.
- When `Hijack` itself fails, the handler answers 503 but does not return, so both transfers are still started.
- Both handlers pass their diagnostic line to a logger built over `io.Discard`, so it is never seen. Verbosity changes nothing except the body-copy error line of the forwarding handler, which goes to the standard logger.
- The method comparison for CONNECT is exact and case-sensitive: `connect` is forwarded.
- The forwarding handler passes the upstream status code to `WriteHeader` unchecked. `net/http` accepts up to three digits, so a code below 100 can arrive, and `WriteHeader` panics on any code outside 100..999. The model follows that path: headers copied, the status call, then only the deferred body close. There is no body copy and no log line.

## Model

| member | source | states |
|---|---|---|
| `HeaderMultimap.AddValue` | main.go:86 | Adding a value appends it at the end of the list of the key's canonical form. The key set gains that canonical form and nothing else. |
| `HeaderMultimap.AddValueFrame` | main.go:86 | Adding a value leaves every other key's list as it was. |
| `HeaderMultimap.AddValues` | main.go:85-87 | Appending a block adds its values, in order, after the canonical key's old list, and leaves every other key's list alone. An empty block adds nothing, not even the key. A nonempty one adds exactly the canonical key. |
| `HeaderMultimap.AddValuesSnoc` | main.go:85-87 | Adding a key's values one `Add` at a time, in order, gives the same map as appending the whole block. |
| `HeaderMultimap.Copied` | main.go:84-88 | The state after the outer loop has visited the keys in a given order. Every old key is still present, and so is the canonical form of every visited key that has at least one value. |
| `HeaderMultimap.CopiedKeepsValues` | main.go:84-87 | In every iteration order, copying never removes a key or a value: each old list is a prefix of its new list. |
| `HeaderMultimap.CopiedUntouched` | main.go:84-87 | A key that no visited key canonicalises to keeps its list, and is present afterwards exactly when it was present before. |
| `HeaderMultimap.CopiedAt` | main.go:83-88 | When the visited keys have pairwise distinct canonical forms, each key's canonical list is its old list (or empty) followed by the source's values for that key, in their original order. |
| `HeaderMultimap.CopiedTotal` | main.go:84-88 | The number of values in the destination grows by exactly the number of values the visited keys hold in the source. |
| `HeaderMultimap.FirstValueAfterAdd` | main_test.go:15-20 | `Get` after `Add`: a key with the same canonical form reads the added value if it had none before, and its old first value otherwise. Every other key reads as before. |
| `HeaderMultimap.GetAfterCopy` | main_test.go:11-22 | After a copy in any key order, `Get` of a source key with values reads that key's first source value. This needs the destination to have no values under the key's canonical form, and no two source keys to share a canonical form. |
| `HeaderMultimap.KeyOrderSum` | main.go:84 | An iteration order that visits each source key exactly once counts every source value exactly once. |
| `HeaderMultimap.CopyProperties` | main.go:83-89 | For every iteration order of the source keys: no value is removed. Keys outside the source's canonical image are unchanged. The total grows by the source's total. When no two source keys share a canonical form, each canonical list is the old list followed by the source list. |
| `HeaderMultimap.CopiedEmptySource` | main.go:84 | Copying an empty source leaves the destination unchanged. |
| `Headers.Header.constructor` | main_test.go:12-13 | `make(http.Header)` gives an empty header set with the given canonicaliser. |
| `Headers.Header.Add` | main.go:86 | The header's map becomes `AddValue` of the old map: the value is appended under the canonical form of the key. |
| `Headers.CopyHeader` | main.go:83-89 | The outer loop visits each source key exactly once, in some order, and the inner loop adds that key's values one `Add` at a time. The final map is the copy of the old map in that order. It keeps every old value, leaves keys outside the canonical image of the source unchanged, and grows the total by the source's total. An empty source changes nothing. With distinct canonical forms (for instance, keys that are already canonical), each list is the old list followed by the source values in order. |
| `Headers.CopyHeaderExample` | main_test.go:11-22 | Copy `Content-Type: text/html` and `Content-Length: 123`, each built with `Add`, into an empty header, in either key order. `Get` then returns `text/html` and `123`. This holds for any canonicaliser that fixes the canonical forms of both keys and keeps them apart. |
| `Proxy.VerbosePrintln` | main.go:28-32 | A line is produced exactly when verbosity is on, and it is the message itself. |
| `Proxy.HandleTunneling` | main.go:34-55 | A failed dial gives only a 503 with the dial error: no 200 and no transfer. A successful dial writes 200 first, before the hijacker check. A writer that is not a hijacker gets exactly the 200 and then a 500 "Hijacking not supported", with no transfer. A failed hijack gets a 503 with its error, still followed by both transfers. A successful hijack gets no error and exactly the two transfers, upstream←client then client←upstream. Transfers start only if the dial succeeded and the writer is a hijacker. The dialled connection is never closed by the handler, and no response headers or body are touched. |
| `Proxy.HandleHTTP` | main.go:67-81 | A failed round trip gives only a 503 with its error text. A response with a status in 100..999 gives `CopyHeaders`, then `WriteStatus` with the response's code, then `CopyBody`, and ends with `CloseBody`. Nothing else happens except the body-copy error line, when there is one. A status outside 100..999 makes `WriteHeader` panic: exactly `CopyHeaders`, `WriteStatus`, `CloseBody`. The body is copied exactly when a response with an accepted status exists, and closed exactly when a response exists. A log line appears exactly when the body copy ran and failed with verbosity on, and it carries the error. No tunnel is started. |
| `Proxy.Dispatch` | main.go:126-130 | A CONNECT request gets exactly the tunnelling handler's actions, and any other method gets exactly the forwarding handler's. A CONNECT to a reachable host whose writer can be hijacked starts both transfers. Any other method whose round trip succeeded starts with `CopyHeaders` and closes the body. Only a CONNECT request can start a transfer. Only other methods copy headers or close a body. Once the upstream has answered, the first action is `WriteStatus(200)` exactly when the method is CONNECT. Lower-case `connect` is forwarded. |
| `Proxy.VerbosityOnlyLogsBodyCopyErrors` | main.go:34-80 | The handlers' diagnostic lines go through `Emit(Discard, …)`, a logger over `io.Discard`, so they are never seen. A CONNECT request, a forwarded request whose round trip failed or whose status `WriteHeader` refuses, and a forwarded request whose body copy succeeded all behave the same with verbosity on or off. |

## Left out

- `transfer` and its two goroutines (main.go:53-65): only the start of each transfer is recorded, with its destination and source. The model does not cover the byte copy, the closing of both ends, the error log or any concurrency.
- `net.DialTimeout` with its 10-second timeout, `http.DefaultTransport.RoundTrip`, `Hijacker.Hijack` and `io.Copy` are foreign network calls. Only their success or failure (with error text) enters the model, as an input.
- On the failed-hijack path the client connection Go passes to the transfers is whatever `Hijack` returned alongside the error. The model names it `Client` like any other and says nothing about its value. In `net/http` that connection is nil on error, so the started transfers would call `Close` and `io.Copy` on a nil connection, an unrecovered panic in a goroutine, which ends the process. That happens after the start of `transfer` and is not modelled.
- `genTlsCert` and the TLS loading and server start-up in `main` (main.go:91-118, 120-124, 134-156): the model has no key generation, certificate files, clock or listening socket.
- Flag parsing (main.go:20-26): verbosity is a parameter of each handler instead of a process-wide flag.
- Log line formatting (the date and time prefix of `log.LstdFlags`): a log line is only its text.
- What `http.Error` does on the wire after a status has already been written: the model records the call only.
- `Proxy.HandleHTTP`: for a status outside 100..999 the model stops the action list at the `WriteHeader` panic and the deferred close. The server recovering the panic and dropping the client connection is not modelled. Nor is the different wire effect of an informational 1xx status, after which the body copy sends an implicit 200.
- `textproto.CanonicalMIMEHeaderKey` is a standard-library function. It stays an uninterpreted parameter of the header set.
- Go's map iteration order: the model leaves it nondeterministic and states everything for every order.
- `Headers.CopyHeader`: the source header set is a value, so an alias between `dst` and `src` is not modelled. In the proxy they are always distinct maps.
- `Headers.CopyHeader`: the per-key "old list followed by the source list" promise is stated only when no two source keys share a canonical form. When two do, their blocks follow each other in the unspecified iteration order, and only the other promises hold.
- The rest of the inbound request (its header set and body travel through `RoundTrip` unchanged): the handlers read only the method, the host and the URL.
