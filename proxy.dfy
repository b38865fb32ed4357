/**
 The per-request control flow of the proxy (main.go:28-81, 126-130): the
 dispatch on the request method, the CONNECT tunnelling handler and the plain
 HTTP forwarding handler. The foreign calls they make (the TCP dial, the
 hijack, the forwarding round trip, the body copy) are not modelled; their
 outcomes are inputs, and each handler is a function from those outcomes to
 the sequence of observable actions it performs, in order.
 */
module Proxy {

  const MethodConnect: string := "CONNECT"
  const StatusOK: int := 200
  const StatusInternalServerError: int := 500
  const StatusServiceUnavailable: int := 503
  // the range `ResponseWriter.WriteHeader` accepts; any other code makes it panic
  const MinStatusCode: int := 100
  const MaxStatusCode: int := 999
  const HijackingNotSupported: string := "Hijacking not supported"
  const BodyCopyErrorPrefix: string := "Error while copying response body: "

  datatype Option<T> = None | Some(value: T)

  /** The outcome of a foreign call: success, or an error with its `Error()` text. */
  datatype Outcome = Ok | Err(text: string)

  /** The outcome of the forwarding round trip: a response with its status
      code, or the error text. */
  datatype RoundTrip = Responded(statusCode: int) | Failed(text: string)

  /** What a handler reads of the inbound request. */
  datatype Request = Request(verb: string, host: string, url: string)

  /** The outcomes the tunnelling handler depends on: the dial to the
      requested host, whether the response writer can be hijacked, and the
      hijack itself. */
  datatype TunnelOutcomes = TunnelOutcomes(dial: Outcome, isHijacker: bool, hijack: Outcome)

  /** The outcomes the forwarding handler depends on: the round trip and the
      copy of the response body to the client. */
  datatype ForwardOutcomes = ForwardOutcomes(roundTrip: RoundTrip, bodyCopy: Outcome)

  /** The two connections of a tunnel: the dialled one and the hijacked client one. */
  datatype Endpoint = Upstream | Client

  /** Where a log line goes: a logger writing into `io.Discard`, or the process's standard logger. */
  datatype Logger = Discard | Standard

  datatype Action =
    | WriteStatus(code: int)                                 // w.WriteHeader
    | ErrorResponse(code: int, text: string)                 // http.Error (the call, not its wire effect)
    | StartTransfer(destination: Endpoint, source: Endpoint) // go transfer(destination, source)
    | CopyHeaders                                            // copyHeader(w.Header(), resp.Header)
    | CopyBody                                               // io.Copy(w, resp.Body)
    | CloseBody                                              // resp.Body.Close()
    | CloseUpstream                                          // closing the dialled connection
    | LogLine(text: string)                                  // a line written to the standard logger

  /** `verbosePrintln`: the line to log, present exactly when verbosity is on. */
  function VerbosePrintln(verbose: bool, msg: string): (line: Option<string>)
    ensures line.Some? <==> verbose
    ensures line.Some? ==> line.value == msg
  {
    if verbose then Some(msg) else None
  }

  /** The observable effect of handing a line to a logger. */
  function Emit(logger: Logger, line: Option<string>): (r: seq<Action>)
    // a logger over `io.Discard` swallows every line
    ensures logger.Discard? ==> r == []
    // the standard logger shows exactly the line it is given
    ensures logger.Standard? && line.Some? ==> r == [LogLine(line.value)]
    ensures line.None? ==> r == []
  {
    match (logger, line)
    case (Standard, Some(text)) => [LogLine(text)]
    case _ => []
  }

  /** A status code `WriteHeader` writes rather than panicking on. */
  predicate ValidStatusCode(code: int)
  {
    MinStatusCode <= code <= MaxStatusCode
  }

  ghost predicate NoTransfer(r: seq<Action>)
  {
    forall i :: 0 <= i < |r| ==> !r[i].StartTransfer?
  }

  ghost predicate NoErrorResponse(r: seq<Action>)
  {
    forall i :: 0 <= i < |r| ==> !r[i].ErrorResponse?
  }

  ghost predicate NoLogLine(r: seq<Action>)
  {
    forall i :: 0 <= i < |r| ==> !r[i].LogLine?
  }

  /** `handleTunneling` (main.go:34-55). Its diagnostic goes to a logger over
      `io.Discard`, so verbosity changes nothing. */
  function HandleTunneling(host: string, verbose: bool, env: TunnelOutcomes): (r: seq<Action>)
    // a failed dial: only a 503 carrying the dial error, no 200, no transfer
    ensures env.dial.Err? ==> r == [ErrorResponse(StatusServiceUnavailable, env.dial.text)]
    // a 200 is written exactly when the dial succeeds, and then before anything else
    ensures WriteStatus(StatusOK) in r <==> env.dial.Ok?
    ensures env.dial.Ok? ==> |r| >= 2 && r[0] == WriteStatus(StatusOK)
    // a writer that cannot be hijacked: the 200, then a 500, and nothing more
    ensures env.dial.Ok? && !env.isHijacker ==>
              r == [WriteStatus(StatusOK), ErrorResponse(StatusInternalServerError, HijackingNotSupported)]
    // transfers start exactly when the dial succeeded and the writer is a hijacker,
    // whether or not the hijack itself failed; they are the last two actions
    ensures env.dial.Ok? && env.isHijacker ==>
              r[|r| - 2..] == [StartTransfer(Upstream, Client), StartTransfer(Client, Upstream)]
    ensures !(env.dial.Ok? && env.isHijacker) ==> NoTransfer(r)
    // a failed hijack: a 503 with its error, and the transfers are started after it
    ensures env.dial.Ok? && env.isHijacker && env.hijack.Err? ==>
              r[1] == ErrorResponse(StatusServiceUnavailable, env.hijack.text) && |r| == 4
    // a successful hijack: no error response at all
    ensures env.dial.Ok? && env.isHijacker && env.hijack.Ok? ==> NoErrorResponse(r) && |r| == 3
    // the handler never closes the dialled connection itself
    ensures CloseUpstream !in r
    // and never touches a forwarded response
    ensures CopyHeaders !in r && CloseBody !in r
  {
    match env.dial
    case Err(e) => [ErrorResponse(StatusServiceUnavailable, e)]
    case Ok =>
      var logged := Emit(Discard, VerbosePrintln(verbose, "Handling CONNECT request for " + host));
      var afterCheck :=
        if !env.isHijacker then
          [ErrorResponse(StatusInternalServerError, HijackingNotSupported)]
        else
          (if env.hijack.Err? then [ErrorResponse(StatusServiceUnavailable, env.hijack.text)] else [])
          + [StartTransfer(Upstream, Client), StartTransfer(Client, Upstream)];
      assert logged == [];
      logged + [WriteStatus(StatusOK)] + afterCheck
  }

  /** `handleHTTP` (main.go:67-81). Its diagnostic, like the tunnelling
      handler's, goes to a logger over `io.Discard`; a body copy error is
      logged to the standard logger when verbosity is on. A response status
      outside 100..999 makes `WriteHeader` panic: the body is not copied and
      only the deferred close runs. */
  function HandleHTTP(url: string, verbose: bool, env: ForwardOutcomes): (r: seq<Action>)
    // a failed round trip: only a 503 carrying its error text
    ensures env.roundTrip.Failed? ==> r == [ErrorResponse(StatusServiceUnavailable, env.roundTrip.text)]
    // a response: headers copied, then its status written, then the body copied ...
    ensures env.roundTrip.Responded? && ValidStatusCode(env.roundTrip.statusCode) ==>
              |r| >= 4 && r[..3] == [CopyHeaders, WriteStatus(env.roundTrip.statusCode), CopyBody]
    // ... except that a status `WriteHeader` refuses ends the handler there, with only the deferred close
    ensures env.roundTrip.Responded? && !ValidStatusCode(env.roundTrip.statusCode) ==>
              r == [CopyHeaders, WriteStatus(env.roundTrip.statusCode), CloseBody]
    ensures CopyBody in r <==> env.roundTrip.Responded? && ValidStatusCode(env.roundTrip.statusCode)
    // ... and the body closed as the very last action, on every path that has a body
    ensures CloseBody in r <==> env.roundTrip.Responded?
    ensures env.roundTrip.Responded? ==> r[|r| - 1] == CloseBody
    // and nothing else: a fourth action only for the body copy error line
    ensures env.roundTrip.Responded? && ValidStatusCode(env.roundTrip.statusCode) ==>
              |r| == if env.bodyCopy.Err? && verbose then 5 else 4
    // a log line appears only for a body copy that ran and failed, with verbosity on
    ensures env.roundTrip.Responded? && ValidStatusCode(env.roundTrip.statusCode) && env.bodyCopy.Err? && verbose ==>
              r[3] == LogLine(BodyCopyErrorPrefix + env.bodyCopy.text)
    ensures !(env.roundTrip.Responded? && ValidStatusCode(env.roundTrip.statusCode) && env.bodyCopy.Err? && verbose) ==>
              NoLogLine(r)
    // forwarding never tunnels
    ensures NoTransfer(r)
  {
    var logged := Emit(Discard, VerbosePrintln(verbose, "Handling HTTP request for " + url));
    assert logged == [];
    logged
    + match env.roundTrip
      case Failed(e) => [ErrorResponse(StatusServiceUnavailable, e)]
      case Responded(code) => Relay(code, verbose, env.bodyCopy)
  }

  /** What `handleHTTP` does once the upstream has answered with `code`
      (main.go:74-80): the headers, the status, the body, and the deferred
      close. A code `WriteHeader` refuses panics before the body is copied. */
  function Relay(code: int, verbose: bool, bodyCopy: Outcome): (r: seq<Action>)
    ensures !ValidStatusCode(code) ==> r == [CopyHeaders, WriteStatus(code), CloseBody]
    ensures ValidStatusCode(code) && bodyCopy.Err? && verbose ==>
              r == [CopyHeaders, WriteStatus(code), CopyBody, LogLine(BodyCopyErrorPrefix + bodyCopy.text), CloseBody]
    ensures ValidStatusCode(code) && !(bodyCopy.Err? && verbose) ==>
              r == [CopyHeaders, WriteStatus(code), CopyBody, CloseBody]
  {
    if !ValidStatusCode(code) then [CopyHeaders, WriteStatus(code), CloseBody]
    else
      var copyError :=
        if bodyCopy.Err? && verbose then Emit(Standard, Some(BodyCopyErrorPrefix + bodyCopy.text)) else [];
      [CopyHeaders, WriteStatus(code), CopyBody] + copyError + [CloseBody]
  }

  /** The handler installed on the server (main.go:125-131). Only a CONNECT
      request can start a tunnel and only any other method can touch a response
      body; once the upstream answered, the first action tells the two apart.
      The comparison is exact: "connect" is forwarded. */
  function Dispatch(req: Request, verbose: bool, tunnel: TunnelOutcomes, forward: ForwardOutcomes): (r: seq<Action>)
    ensures |r| > 0
    // CONNECT is tunnelled and every other method is forwarded
    ensures req.verb == MethodConnect ==> r == HandleTunneling(req.host, verbose, tunnel)
    ensures req.verb != MethodConnect ==> r == HandleHTTP(req.url, verbose, forward)
    ensures req.verb == MethodConnect && tunnel.dial.Ok? && tunnel.isHijacker ==>
              StartTransfer(Upstream, Client) in r && StartTransfer(Client, Upstream) in r
    ensures req.verb != MethodConnect && forward.roundTrip.Responded? ==>
              r[0] == CopyHeaders && CloseBody in r
    ensures req.verb != MethodConnect ==> NoTransfer(r)
    ensures req.verb == MethodConnect ==> CopyHeaders !in r && CloseBody !in r
    ensures tunnel.dial.Ok? && forward.roundTrip.Responded? ==>
              (r[0] == WriteStatus(StatusOK) <==> req.verb == MethodConnect)
    ensures req.verb == "connect" ==> r == HandleHTTP(req.url, verbose, forward)
  {
    if req.verb == MethodConnect then HandleTunneling(req.host, verbose, tunnel)
    else HandleHTTP(req.url, verbose, forward)
  }

  /** The diagnostics of both handlers are discarded: apart from the body copy
      error line, what either handler does does not depend on verbosity. */
  lemma VerbosityOnlyLogsBodyCopyErrors(req: Request, tunnel: TunnelOutcomes, forward: ForwardOutcomes)
    ensures req.verb == MethodConnect ==>
              Dispatch(req, true, tunnel, forward) == Dispatch(req, false, tunnel, forward)
    ensures forward.bodyCopy.Ok? ==>
              Dispatch(req, true, tunnel, forward) == Dispatch(req, false, tunnel, forward)
    ensures forward.roundTrip.Failed? ==>
              Dispatch(req, true, tunnel, forward) == Dispatch(req, false, tunnel, forward)
    ensures forward.roundTrip.Responded? && !ValidStatusCode(forward.roundTrip.statusCode) ==>
              Dispatch(req, true, tunnel, forward) == Dispatch(req, false, tunnel, forward)
  {
  }
}
