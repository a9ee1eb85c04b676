/**
  The serving side of lib/export.js: the export service keeps the exported
  handlers by method name and the inbound requests in flight under the key
  `requester#reqId`; each inbound request is a small state machine
  (Running, Interrupted, Resolved) with two output streams, and each stream
  numbers its frames with its own 16-bit counter. The socket the service
  talks to is replaced by `SockLog`, which records the calls made on it.
 */
module Exports {
  import opened Wire
  import opened Counters
  import opened Listeners
  import opened SessionFrames

  /** The calls the service, its requests and their streams make on the socket. */
  datatype SockCall =
    | SendExport(methodName: Frame)
    | SendReply(requester: Frame, reqId: int, code: int, value: Value)
    | SendProgress(requester: Frame, reqId: int)
    | SendStreamFrame(receiver: Frame, tag: int, seqNo: int, body: Frame)

  /** The socket seen from this file: only the calls made on it. */
  class SockLog {
    var calls: seq<SockCall>

    constructor()
      ensures calls == []
    {
      calls := [];
    }
  }

  /** `STATE_RUNNING`, `STATE_INTERRUPTED`, `STATE_RESOLVED`. */
  datatype RequestState = Running | Interrupted | Resolved

  /** An output stream of a request: the shared no-op `discardStream` when the
      requester asked for none, else a stream to the requester. */
  datatype StreamRef = Discard | ToPeer(stream: Stream)

  /** One call of an exported handler, with the request object it was given
      (None: `undefined`). */
  datatype Invocation = Invocation(handler: HandlerId, req: Option<Request>)

  /** A stream: frames go to `receiver` under `tag`, numbered by `seqNo`. */
  class Stream {
    const sock: SockLog
    const receiver: Frame
    const tag: int
    var seqNo: int

    ghost predicate Valid()
      reads this
    {
      0 <= seqNo < U16_MODULUS
    }

    /** `createStream(sock, receiver, tag)`: the counter starts at 0. */
    constructor(sock0: SockLog, receiver0: Frame, tag0: int)
      ensures Valid()
      ensures sock == sock0 && receiver == receiver0 && tag == tag0 && seqNo == 0
    {
      sock := sock0;
      receiver := receiver0;
      tag := tag0;
      seqNo := 0;
    }

    /** `write(frame)`: steps the counter, wrapping at 65536, and sends one
        STREAM_FRAME numbered with the new value, to the receiver and under
        the tag fixed at construction. The first frame is numbered 1. */
    method Write(frame: Frame)
      requires Valid()
      modifies this, sock
      ensures Valid()
      ensures seqNo == Successor(old(seqNo))
      ensures sock.calls == old(sock.calls) + [SendStreamFrame(receiver, tag, seqNo, frame)]
    {
      seqNo := (seqNo + 1) % U16_MODULUS;
      sock.calls := sock.calls + [SendStreamFrame(receiver, tag, seqNo, frame)];
    }
  }

  /** An inbound request being served. */
  class Request {
    const service: ExportService
    const requester: Frame
    const id: nat
    const methodName: Frame
    const args: Value
    const stdout: StreamRef
    const stderr: StreamRef
    var state: RequestState
    /** How many times `'interrupt'` was emitted on the request. */
    var interrupts: nat

    constructor(service0: ExportService, requester0: Frame, id0: nat, methodName0: Frame, args0: Value,
                stdout0: StreamRef, stderr0: StreamRef)
      ensures service == service0 && requester == requester0 && id == id0
      ensures methodName == methodName0 && args == args0 && stdout == stdout0 && stderr == stderr0
      ensures state == Running && interrupts == 0
    {
      service := service0;
      requester := requester0;
      id := id0;
      methodName := methodName0;
      args := args0;
      stdout := stdout0;
      stderr := stderr0;
      state := Running;
      interrupts := 0;
    }

    /** `signalProgress()`: sends PROGRESS only while Running. */
    method SignalProgress()
      modifies service.sock
      ensures state == Running ==> service.sock.calls == old(service.sock.calls) + [SendProgress(requester, id)]
      ensures state != Running ==> service.sock.calls == old(service.sock.calls)
    {
      if state != Running {
        return;
      }
      service.sock.calls := service.sock.calls + [SendProgress(requester, id)];
    }

    /** `resolve(code, value)`: a resolved request ignores it; otherwise
        (Running or Interrupted) it sends exactly one REPLY, leaves the
        service's table and becomes Resolved, so a second `resolve` does
        nothing. */
    method Resolve(code: int, value: Value)
      modifies this, service, service.sock
      ensures old(state) == Resolved ==> unchanged(this, service, service.sock)
      ensures old(state) != Resolved ==>
                && state == Resolved
                && service.sock.calls == old(service.sock.calls) + [SendReply(requester, id, code, value)]
                && service.requests == old(service.requests) - {RequestKey(requester, id)}
                && service.exports == old(service.exports)
                && service.invocations == old(service.invocations)
                && interrupts == old(interrupts)
    {
      if state == Resolved {
        return;
      }
      service.ResolveRequest(this, code, value);
      state := Resolved;
    }

    /** `_handleInterrupt()`: becomes Interrupted and emits `'interrupt'`. */
    method HandleInterrupt()
      modifies this
      ensures state == Interrupted && interrupts == old(interrupts) + 1
    {
      state := Interrupted;
      interrupts := interrupts + 1;
    }
  }

  /** `createRequest` with the `return req` its callers rely on and the
      service's socket for its streams: a new request is Running; a stdout
      or stderr option that is absent yields the discard stream, a present
      one a fresh stream to the requester under the tag the option holds,
      and a tag option shorter than two bytes makes the call return nothing. */
  method CreateRequest(service: ExportService, requester: Frame, reqId: nat, methodName: Frame, args: Value, opts: Options)
    returns (r: Option<Request>)
    ensures r.Some? <==> TagOptionsReadable(opts)
    ensures r.Some? ==>
              && fresh(r.value) && r.value.state == Running && r.value.interrupts == 0
              && r.value.service == service && r.value.requester == requester && r.value.id == reqId
              && r.value.methodName == methodName && r.value.args == args
    ensures r.Some? ==> StreamFor(r.value.stdout, opts, StdoutTagName(), service, requester)
    ensures r.Some? ==> StreamFor(r.value.stderr, opts, StderrTagName(), service, requester)
    ensures r.Some? && r.value.stdout.ToPeer? && r.value.stderr.ToPeer? ==> r.value.stdout.stream != r.value.stderr.stream
    ensures r.Some? && r.value.stdout.ToPeer? ==> fresh(r.value.stdout.stream) && r.value.stdout.stream.seqNo == 0
    ensures r.Some? && r.value.stderr.ToPeer? ==> fresh(r.value.stderr.stream) && r.value.stderr.stream.seqNo == 0
  {
    var stdout := Discard;
    var outOpt := Lookup(opts, StdoutTagName());
    if outOpt.Some? {
      var tag := ReadUInt16BE(outOpt.value);
      if tag.None? {
        return None;
      }
      var s := new Stream(service.sock, requester, tag.value);
      stdout := ToPeer(s);
    }
    var stderr := Discard;
    var errOpt := Lookup(opts, StderrTagName());
    if errOpt.Some? {
      var tag := ReadUInt16BE(errOpt.value);
      if tag.None? {
        return None;
      }
      var s := new Stream(service.sock, requester, tag.value);
      stderr := ToPeer(s);
    }
    var req := new Request(service, requester, reqId, methodName, args, stdout, stderr);
    r := Some(req);
  }

  /** Every tag option present holds at least the two bytes `readUInt16BE`
      needs. */
  predicate TagOptionsReadable(opts: Options)
  {
    var out, err := Lookup(opts, StdoutTagName()), Lookup(opts, StderrTagName());
    (out.None? || |out.value| >= 2) && (err.None? || |err.value| >= 2)
  }

  /** The stream a request gets for one tag option: the discard stream when
      the option is absent, else a stream to the requester over the
      service's socket under the tag the option names. */
  ghost predicate StreamFor(s: StreamRef, opts: Options, name: Frame, service: ExportService, requester: Frame)
    reads if s.ToPeer? then {s.stream} else {}
  {
    match TagOf(opts, name)
    case None => s == Discard
    case Some(tag) => s.ToPeer? && s.stream.sock == service.sock && s.stream.receiver == requester && s.stream.tag == tag
  }

  /** `createRequest` as written: it has no `return` statement, so every call
      yields `undefined` (and a stream option would also fail on the
      undefined `sock`). */
  method CreateRequestAsWritten(service: ExportService, requester: Frame, reqId: nat, methodName: Frame, args: Value, opts: Options)
    returns (r: Option<Request>)
    ensures r.None?
  {
    var req := new Request(service, requester, reqId, methodName, args, Discard, Discard);
    r := None;
  }

  class ExportService {
    const sock: SockLog
    var exports: map<Frame, HandlerId>
    var requests: map<Frame, Option<Request>>
    var invocations: seq<Invocation>

    /** `createExportService(socket)`. */
    constructor(sock0: SockLog)
      ensures sock == sock0 && exports == map[] && requests == map[] && invocations == []
    {
      sock := sock0;
      exports := map[];
      requests := map[];
      invocations := [];
    }

    /** `export(method, callback)`: files the handler (a later export of the
        same method replaces it) and announces the method to the broker. */
    method Export(methodName: Frame, h: HandlerId)
      modifies this, sock
      ensures exports == old(exports)[methodName := h] && exports[methodName] == h
      ensures forall m :: m in old(exports) && m != methodName ==> m in exports && exports[m] == old(exports)[m]
      ensures sock.calls == old(sock.calls) + [SendExport(methodName)]
      ensures requests == old(requests) && invocations == old(invocations)
    {
      exports := exports[methodName := h];
      sock.calls := sock.calls + [SendExport(methodName)];
    }

    /** `_handleRequest`, with the corrected `CreateRequest` that returns the
        request it builds: creates the request and files it under
        `requester#reqId`; for a method that is not exported it removes the
        entry again and calls nothing, otherwise it calls the method's handler
        with the request, whose streams follow the tag options. */
    method HandleRequest(requester: Frame, reqId: nat, methodName: Frame, args: Value, opts: Options)
      modifies this
      ensures exports == old(exports)
      ensures methodName !in exports ==> requests == old(requests) - {RequestKey(requester, reqId)} && invocations == old(invocations)
      ensures methodName in exports ==>
                && RequestKey(requester, reqId) in requests
                && requests == old(requests)[RequestKey(requester, reqId) := requests[RequestKey(requester, reqId)]]
                && invocations == old(invocations) + [Invocation(exports[methodName], requests[RequestKey(requester, reqId)])]
      ensures methodName in exports ==> (requests[RequestKey(requester, reqId)].Some? <==> TagOptionsReadable(opts))
      ensures methodName in exports && requests[RequestKey(requester, reqId)].Some? ==>
                var req := requests[RequestKey(requester, reqId)].value;
                && fresh(req) && req.state == Running && req.interrupts == 0
                && req.service == this && req.requester == requester && req.id == reqId
                && req.methodName == methodName && req.args == args
                && StreamFor(req.stdout, opts, StdoutTagName(), this, requester)
                && StreamFor(req.stderr, opts, StderrTagName(), this, requester)
    {
      var req := CreateRequest(this, requester, reqId, methodName, args, opts);
      var key := RequestKey(requester, reqId);
      requests := requests[key := req];
      if methodName !in exports {
        requests := requests - {key};
        return;
      }
      invocations := invocations + [Invocation(exports[methodName], req)];
    }

    /** `_handleInterrupt`: emits `'interrupt'` on the request filed under
        `requester#reqId`, without changing its state; an unknown key (or an
        `undefined` entry) is ignored. */
    method HandleInterrupt(requester: Frame, reqId: nat)
      modifies if RequestKey(requester, reqId) in requests && requests[RequestKey(requester, reqId)].Some?
               then {requests[RequestKey(requester, reqId)].value} else {}
      ensures var key := RequestKey(requester, reqId);
              key in requests && requests[key].Some? ==>
                requests[key].value.interrupts == old(requests[key].value.interrupts) + 1
                && requests[key].value.state == old(requests[key].value.state)
    {
      var key := RequestKey(requester, reqId);
      if key !in requests || requests[key].None? {
        return;
      }
      var req := requests[key].value;
      req.interrupts := req.interrupts + 1;
    }

    /** `_resolveRequest(req, code, value)`: sends the REPLY and forgets the
        request. */
    method ResolveRequest(req: Request, code: int, value: Value)
      modifies this, sock
      ensures sock.calls == old(sock.calls) + [SendReply(req.requester, req.id, code, value)]
      ensures requests == old(requests) - {RequestKey(req.requester, req.id)}
      ensures exports == old(exports) && invocations == old(invocations)
    {
      sock.calls := sock.calls + [SendReply(req.requester, req.id, code, value)];
      requests := requests - {RequestKey(req.requester, req.id)};
    }
  }
}
