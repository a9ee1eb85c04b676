/**
  The RPC service draft of lib/services/rpc.js. Its messages put the header
  first (`CDR#RPC@01`, then a one-byte type, then the payload). Only OHAI
  is acted on; REQUEST, INTERRUPT, PROGRESS and STREAM_FRAME are accepted
  and ignored; every other type is dropped.
 */
module BrokerRpc {
  import opened Wire
  import opened Constants
  import opened Handshake
  import opened RpcDrafts

  /** A message `_handleMessage` accepts. */
  datatype ServiceMessage = ServiceOhai(opts: Options) | Ignored(t: MsgType)

  /** The types with an empty `case` in `_handleMessage`. */
  function IgnoredTypes(): set<MsgType> { {Request, Interrupt, Progress, StreamFrame} }

  /** `_handleMessage` with the OHAI option loop starting at `optStart`: at
      least two frames, the header at frame 0 and a one-byte type at frame 1;
      an OHAI needs an even frame count. Any other type without its own
      `case` (HELLO, REPLY, a byte above 0x09, ...) is dropped. */
  function ParseServiceFrom(msg: Frames, optStart: nat): (r: Option<ServiceMessage>)
    ensures r.Some? ==> |msg| >= 2 && msg[0] == RpcHeader() && |msg[1]| == 1
    ensures r.Some? && r.value.ServiceOhai? <==>
              |msg| >= 2 && msg[0] == RpcHeader() && |msg[1]| == 1 && msg[1][0] == Code(Ohai) && |msg| % 2 == 0
    ensures r.Some? && r.value.ServiceOhai? ==> r.value.opts == PairsFrom(msg, optStart)
    ensures r.Some? && r.value.Ignored? <==>
              && |msg| >= 2 && msg[0] == RpcHeader() && |msg[1]| == 1
              && TypeOf(msg[1][0]).Some? && TypeOf(msg[1][0]).value in IgnoredTypes()
    ensures r.Some? && r.value.Ignored? ==> Code(r.value.t) == msg[1][0]
  {
    if |msg| < 2 || msg[0] != RpcHeader() || |msg[1]| != 1 then None
    else match TypeOf(msg[1][0])
      case Some(Ohai) =>
        if |msg| % 2 != 0 then None else Some(ServiceOhai(PairsFrom(msg, optStart)))
      case Some(t) =>
        if t in IgnoredTypes() then Some(Ignored(t)) else None
      case None => None
  }

  /** The validator as written: the option loop starts at index 3. */
  function ParseServiceMessageAsWritten(msg: Frames): Option<ServiceMessage>
  {
    ParseServiceFrom(msg, 3)
  }

  /** The validator with the option loop at index 2, the first payload frame
      of a header-first message and the position the even-length check
      leaves for the first option name. */
  function ParseServiceMessage(msg: Frames): Option<ServiceMessage>
  {
    ParseServiceFrom(msg, 2)
  }

  /** An OHAI announcing an encoding: as written, the loop takes the encoding
      name for an option name, so the announced encoding is never seen and
      `'json'` is chosen. */
  lemma EncodingMissedAsWritten(enc: Frame)
    ensures var msg := [RpcHeader(), [Code(Ohai)], EncodingOption(), enc];
            && ParseServiceMessageAsWritten(msg) == Some(ServiceOhai(map[enc := None]))
            && NegotiatedEncoding(map[enc := None]) == Json()
  {
    var msg := [RpcHeader(), [Code(Ohai)], EncodingOption(), enc];
    assert PairsFrom(msg, 3) == OptionsFrom(map[enc := None], msg, 5);
  }

  /** With the loop at index 2, the same OHAI selects the announced encoding. */
  lemma EncodingFound(enc: Frame)
    ensures var msg := [RpcHeader(), [Code(Ohai)], EncodingOption(), enc];
            && ParseServiceMessage(msg) == Some(ServiceOhai(map[EncodingOption() := Some(enc)]))
            && NegotiatedEncoding(map[EncodingOption() := Some(enc)]) == enc
  {
    var msg := [RpcHeader(), [Code(Ohai)], EncodingOption(), enc];
    assert PairsFrom(msg, 2) == OptionsFrom(map[EncodingOption() := Some(enc)], msg, 4);
  }

  /** How `createRPCService` ends: rejected for missing configuration or a
      socket that could not be set up, otherwise by an exception: registering
      the undefined `_handleError` as the socket's error listener throws, and
      the `_sendHello` after it would throw on the never assigned `_rpcSock`. */
  datatype Startup = Rejected(reason: StartError) | Throws

  function CreateService(identity: Option<string>, endpoint: Option<string>, socketOk: bool): (r: Startup)
    ensures r.Rejected? <==> identity.None? || endpoint.None? || !socketOk
    ensures identity.None? ==> r == Rejected(IdentityNotSet)
    ensures identity.Some? && endpoint.None? ==> r == Rejected(EndpointNotSet)
    ensures identity.Some? && endpoint.Some? && !socketOk ==> r == Rejected(SocketFailed)
  {
    match MissingSetting(identity, endpoint)
    case Some(e) => Rejected(e)
    case None => if socketOk then Throws else Rejected(SocketFailed)
  }

  datatype Status = Ok | Thrown

  class RpcService {
    var codec: Option<Codec>

    constructor()
      ensures codec == None
    {
      codec := None;
    }

    /** `_handleOhai(opts)`: installs the codec of the negotiated encoding
        when one exists; either way it then throws, on the undefined
        `this._close` when the codec is unknown and on the `next` argument
        `_handleMessage` never passes when it is known. */
    method HandleOhai(opts: Options, codecs: Codecs) returns (r: Status)
      modifies this
      ensures r == Thrown
      ensures NegotiatedEncoding(opts) in codecs ==> codec == Some(codecs[NegotiatedEncoding(opts)])
      ensures NegotiatedEncoding(opts) !in codecs ==> codec == old(codec)
    {
      var encoding := NegotiatedEncoding(opts);
      if encoding in codecs {
        codec := Some(codecs[encoding]);
      }
      r := Thrown;
    }

    /** `_handleMessage` with the corrected option loop: a dropped or an
        ignored message changes nothing; an OHAI goes to `_handleOhai`. */
    method HandleMessage(msg: Frames, codecs: Codecs) returns (r: Status)
      modifies this
      ensures ParseServiceMessage(msg).None? ==> r == Ok && unchanged(this)
      ensures ParseServiceMessage(msg).Some? && ParseServiceMessage(msg).value.Ignored? ==> r == Ok && unchanged(this)
      ensures ParseServiceMessage(msg).Some? && ParseServiceMessage(msg).value.ServiceOhai? ==>
                var opts := ParseServiceMessage(msg).value.opts;
                && r == Thrown
                && codec == (if NegotiatedEncoding(opts) in codecs then Some(codecs[NegotiatedEncoding(opts)]) else old(codec))
    {
      var m := ParseServiceMessage(msg);
      if m.None? {
        return Ok;
      }
      match m.value
      case ServiceOhai(opts) =>
        r := HandleOhai(opts, codecs);
      case Ignored(_) =>
        r := Ok;
    }
  }
}
