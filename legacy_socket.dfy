/**
  The socket object of the older client draft, lib/old/socket.js. It uses
  the CDR01 constants of lib/old/constants.js, and its two validators are
  the same code as those of lib/index.js. What this module adds is the
  `connect` argument checks, the guarded `_send`, the `_sendRequest` frame
  layout (stream tags are minted but filed nowhere) and `_handleOhai`.
 */
module LegacySocket {
  import opened Wire
  import opened Constants
  import opened Counters
  import opened SessionFrames
  import opened Handshake
  import ClientSession

  /** What a socket method that may throw reports. */
  datatype Status = Ok | InvalidState | NoRequestId | Thrown

  datatype SockOp = CloseRpc | CloseSub

  class Socket {
    /** `this._next` has been assigned by `connect`. */
    var hasNext: bool
    /** `this._state === STATE_CONNECTED`. */
    var connected: bool
    var seqNo: int
    var codec: Option<Codec>
    var rpcSent: seq<Frames>
    var sockOps: seq<SockOp>
    /** The calls of `this._next`: `next(err)` or `next(null, session)`. */
    var callbacks: seq<Option<string>>

    ghost predicate Valid()
      reads this
    {
      0 <= seqNo < U16_MODULUS
    }

    /** `createSocket()`: no state, no codec, no connect callback. */
    constructor()
      ensures Valid()
      ensures !hasNext && !connected && seqNo == 0 && codec == None
      ensures rpcSent == [] && sockOps == [] && callbacks == []
    {
      hasNext := false;
      connected := false;
      seqNo := 0;
      codec := None;
      rpcSent := [];
      sockOps := [];
      callbacks := [];
    }

    /** `connect(opts, next)` as written: stores the callback and reports a
        missing argument; with all three set it creates both sockets, but
        connecting the SUB socket reads the undeclared `subEndpoint`, so the
        `catch` closes both sockets and reports that error. No call can
        succeed. */
    method ConnectAsWritten(identity: Option<string>, rpcEndpoint: Option<string>, pubEndpoint: Option<string>)
      modifies this
      ensures hasNext
      ensures |callbacks| == |old(callbacks)| + 1 && callbacks[|callbacks| - 1].Some?
      ensures ClientSession.MissingArgument(identity, rpcEndpoint, pubEndpoint, ClientSession.PubEndpoint).Some? ==>
                callbacks == old(callbacks) + [ClientSession.MissingArgument(identity, rpcEndpoint, pubEndpoint, ClientSession.PubEndpoint)] && sockOps == old(sockOps)
      ensures ClientSession.MissingArgument(identity, rpcEndpoint, pubEndpoint, ClientSession.PubEndpoint).None? ==>
                callbacks == old(callbacks) + [Some("subEndpoint is not defined")] && sockOps == old(sockOps) + [CloseRpc, CloseSub]
      ensures rpcSent == old(rpcSent) && connected == old(connected) && seqNo == old(seqNo) && codec == old(codec)
    {
      hasNext := true;
      var missing := ClientSession.MissingArgument(identity, rpcEndpoint, pubEndpoint, ClientSession.PubEndpoint);
      if missing.Some? {
        callbacks := callbacks + [missing];
        return;
      }
      sockOps := sockOps + [CloseRpc, CloseSub];
      callbacks := callbacks + [Some("subEndpoint is not defined")];
    }

    /** `connect` with the SUB socket connected to `pubEndpoint`: a missing
        argument is reported as before; otherwise nothing is reported yet,
        HELLO is sent and the callback waits for the OHAI. */
    method Connect(identity: Option<string>, rpcEndpoint: Option<string>, pubEndpoint: Option<string>)
      modifies this
      ensures hasNext
      ensures ClientSession.MissingArgument(identity, rpcEndpoint, pubEndpoint, ClientSession.PubEndpoint).Some? ==>
                callbacks == old(callbacks) + [ClientSession.MissingArgument(identity, rpcEndpoint, pubEndpoint, ClientSession.PubEndpoint)] && rpcSent == old(rpcSent)
      ensures ClientSession.MissingArgument(identity, rpcEndpoint, pubEndpoint, ClientSession.PubEndpoint).None? ==>
                callbacks == old(callbacks) && rpcSent == old(rpcSent) + [ControlFrames(Hello)]
      ensures sockOps == old(sockOps) && connected == old(connected) && seqNo == old(seqNo) && codec == old(codec)
    {
      hasNext := true;
      var missing := ClientSession.MissingArgument(identity, rpcEndpoint, pubEndpoint, ClientSession.PubEndpoint);
      if missing.Some? {
        callbacks := callbacks + [missing];
        return;
      }
      rpcSent := rpcSent + [ControlFrames(Hello)];
    }

    /** `_nextSeq`: the same wrapping counter as the canonical client. */
    method NextSeq() returns (s: int)
      requires Valid()
      modifies this
      ensures Valid()
      ensures s == Successor(old(seqNo)) && seqNo == s
      ensures hasNext == old(hasNext) && connected == old(connected) && codec == old(codec)
      ensures rpcSent == old(rpcSent) && sockOps == old(sockOps) && callbacks == old(callbacks)
    {
      seqNo := (seqNo + 1) % U16_MODULUS;
      s := seqNo;
    }

    /** `_send`: throws unless Connected. */
    method Send(frames: Frames) returns (r: Status)
      modifies this
      ensures r == Ok <==> old(connected)
      ensures r != Ok ==> r == InvalidState
      ensures rpcSent == if r == Ok then old(rpcSent) + [frames] else old(rpcSent)
      ensures hasNext == old(hasNext) && connected == old(connected) && seqNo == old(seqNo) && codec == old(codec)
      ensures sockOps == old(sockOps) && callbacks == old(callbacks)
    {
      if !connected {
        return InvalidState;
      }
      rpcSent := rpcSent + [frames];
      r := Ok;
    }

    /** `_sendRequest(req)`, with the request read through its fields: throws
        without an id (and on an id `writeUInt16BE` refuses); encoding the
        arguments throws before OHAI installs a codec or when the codec
        refuses them, before any tag is minted; otherwise it mints a tag for each stream that has `'frame'`
        listeners, Stdout-Tag first, and sends `6 + 2k` frames. The tags are
        not filed anywhere. */
    method SendRequest(id: Option<int>, methodName: Frame, args: Value, out: bool, err: bool)
      returns (r: Status)
      requires Valid()
      modifies this
      ensures Valid()
      ensures id.None? ==> r == NoRequestId && unchanged(this)
      ensures id.Some? && !(0 <= id.value < U16_MODULUS) ==> r == Thrown && unchanged(this)
      ensures id.Some? && 0 <= id.value < U16_MODULUS && EncodeWith(old(codec), args).None? ==> r == Thrown && unchanged(this)
      ensures id.Some? && 0 <= id.value < U16_MODULUS && EncodeWith(old(codec), args).Some? ==>
                var outTag, errTag := ClientSession.StdoutTag(old(seqNo), out), ClientSession.StderrTag(old(seqNo), out, err);
                && seqNo == ClientSession.SeqAfterRequest(old(seqNo), out, err)
                && (r == Ok <==> old(connected))
                && (r != Ok ==> r == InvalidState && rpcSent == old(rpcSent))
                && (r == Ok ==> && rpcSent == old(rpcSent) + [RequestFrames(id.value, methodName, EncodeWith(old(codec), args).value, outTag, errTag)]
                                && |rpcSent[|rpcSent| - 1]| == 6 + (if out then 2 else 0) + (if err then 2 else 0))
      ensures hasNext == old(hasNext) && connected == old(connected) && codec == old(codec)
      ensures sockOps == old(sockOps) && callbacks == old(callbacks)
    {
      if id.None? {
        return NoRequestId;
      }
      if !(0 <= id.value < U16_MODULUS) {
        return Thrown;
      }
      var encodedArgs := EncodeWith(codec, args);
      if encodedArgs.None? {
        return Thrown;
      }
      var encoded := encodedArgs.value;
      var outTag: Option<int> := None;
      var errTag: Option<int> := None;
      if out {
        var tag := NextSeq();
        outTag := Some(tag);
      }
      if err {
        var tag := NextSeq();
        errTag := Some(tag);
      }
      assert outTag == ClientSession.StdoutTag(old(seqNo), out);
      assert errTag == ClientSession.StderrTag(old(seqNo), out, err);
      var msg := ClientSession.Session.RequestMessage(id.value, methodName, encoded, outTag, errTag);
      r := Send(msg);
    }

    /** `_sendInterrupt(reqId)`: an INTERRUPT through `_send`. */
    method SendInterrupt(reqId: int) returns (r: Status)
      requires 0 <= reqId < U16_MODULUS
      modifies this
      ensures r == Ok <==> old(connected)
      ensures r != Ok ==> r == InvalidState
      ensures rpcSent == if r == Ok then old(rpcSent) + [InterruptFrames(reqId)] else old(rpcSent)
      ensures hasNext == old(hasNext) && connected == old(connected) && seqNo == old(seqNo) && codec == old(codec)
      ensures sockOps == old(sockOps) && callbacks == old(callbacks)
    {
      r := Send(InterruptFrames(reqId));
    }

    /** `_handleOhai(opts)`: for an unknown encoding it throws on the
        undefined `this._close` and changes nothing; otherwise it installs
        the codec, becomes Connected and calls `this._next(null, session)`,
        which throws when `connect` never stored a callback. */
    method HandleOhai(opts: Options, codecs: Codecs) returns (r: Status)
      modifies this
      ensures NegotiatedEncoding(opts) !in codecs ==> r == Thrown && unchanged(this)
      ensures NegotiatedEncoding(opts) in codecs ==>
                && connected && codec == Some(codecs[NegotiatedEncoding(opts)])
                && (r == Ok <==> hasNext)
                && callbacks == (if hasNext then old(callbacks) + [None] else old(callbacks))
      ensures hasNext == old(hasNext) && seqNo == old(seqNo) && rpcSent == old(rpcSent) && sockOps == old(sockOps)
    {
      var encoding := NegotiatedEncoding(opts);
      if encoding !in codecs {
        return Thrown;
      }
      codec := Some(codecs[encoding]);
      connected := true;
      if !hasNext {
        return Thrown;
      }
      callbacks := callbacks + [None];
      r := Ok;
    }
  }
}
