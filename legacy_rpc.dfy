/**
  The first RPC service draft, lib/old/rpc.js. Its messages use the routed
  layout `[empty, header, type, ...]` with the `CDR#RPC@01` header; only OHAI
  is handled. The connect callback is a one-shot: the first OHAI takes it,
  so any later OHAI is ignored as a duplicate.
 */
module LegacyRpc {
  import opened Wire
  import opened Constants
  import opened Handshake
  import opened RpcDrafts

  /** An OHAI that passed the header checks: well formed (odd frame count)
      with its options, or malformed. */
  datatype LegacyMessage = LegacyOhai(opts: Options) | LegacyOhaiMalformed

  /** `_handleMessage`'s checks: at least three frames, the header at frame 1,
      a one-byte type at frame 2 that is OHAI; every other type is dropped.
      The options are the pairs from frame 3 on. */
  function ParseLegacy(msg: Frames): (r: Option<LegacyMessage>)
    ensures r.Some? <==> |msg| >= 3 && msg[1] == RpcHeader() && |msg[2]| == 1 && msg[2][0] == Code(Ohai)
    ensures r.Some? ==> (r.value.LegacyOhai? <==> |msg| % 2 == 1)
    ensures r.Some? && r.value.LegacyOhai? ==> r.value.opts == PairsFrom(msg, 3)
  {
    if |msg| < 3 || msg[1] != RpcHeader() || |msg[2]| != 1 then None
    else if msg[2][0] != Code(Ohai) then None
    else if |msg| % 2 != 1 then Some(LegacyOhaiMalformed)
    else Some(LegacyOhai(PairsFrom(msg, 3)))
  }

  /** In this routed layout, starting the option loop at frame 3 is right:
      an OHAI announcing an encoding selects it. */
  lemma AnnouncedEncodingChosen(enc: Frame)
    ensures var msg := [[], RpcHeader(), [Code(Ohai)], EncodingOption(), enc];
            && ParseLegacy(msg) == Some(LegacyOhai(map[EncodingOption() := Some(enc)]))
            && NegotiatedEncoding(map[EncodingOption() := Some(enc)]) == enc
  {
    var msg := [[], RpcHeader(), [Code(Ohai)], EncodingOption(), enc];
    assert PairsFrom(msg, 3) == OptionsFrom(map[EncodingOption() := Some(enc)], msg, 5);
  }

  type CallbackId = nat

  /** One call of a connect callback: `next(err)`, or `next(null)` on success. */
  datatype Callback = Callback(cb: CallbackId, err: Option<string>)

  datatype Status = Ok | Thrown

  class LegacyRpcService {
    var onConnected: Option<CallbackId>
    var codec: Option<Codec>
    var calls: seq<Callback>

    constructor()
      ensures onConnected == None && codec == None && calls == []
    {
      onConnected := None;
      codec := None;
      calls := [];
    }

    /** `connect(next)`: stores the callback, then `_sendHello` throws on the
        never assigned `_rpcSock`; the callback stays stored. */
    method Connect(next: CallbackId) returns (r: Status)
      modifies this
      ensures onConnected == Some(next) && r == Thrown
      ensures codec == old(codec) && calls == old(calls)
    {
      onConnected := Some(next);
      r := Thrown;
    }

    /** `_handleOhai(opts, next)`: installs the codec of the negotiated
        encoding and calls `next(null)`; for an unknown encoding it throws on
        the undefined `this._close` before calling anything. */
    method HandleOhai(opts: Options, next: CallbackId, codecs: Codecs) returns (r: Status)
      modifies this
      ensures NegotiatedEncoding(opts) in codecs ==>
                r == Ok && codec == Some(codecs[NegotiatedEncoding(opts)]) && calls == old(calls) + [Callback(next, None)]
      ensures NegotiatedEncoding(opts) !in codecs ==> r == Thrown && codec == old(codec) && calls == old(calls)
      ensures onConnected == old(onConnected)
    {
      var encoding := NegotiatedEncoding(opts);
      if encoding !in codecs {
        return Thrown;
      }
      codec := Some(codecs[encoding]);
      calls := calls + [Callback(next, None)];
      r := Ok;
    }

    /** `_handleMessage`: a dropped message changes nothing. An OHAI always
        clears the stored callback; without one it is a duplicate and nothing
        else happens; a malformed OHAI reports an error to the callback; a
        well-formed one goes to `_handleOhai`. */
    method HandleMessage(msg: Frames, codecs: Codecs) returns (r: Status)
      modifies this
      ensures ParseLegacy(msg).None? ==> r == Ok && unchanged(this)
      ensures ParseLegacy(msg).Some? ==> onConnected == None
      ensures ParseLegacy(msg).Some? && old(onConnected).None? ==> r == Ok && codec == old(codec) && calls == old(calls)
      ensures ParseLegacy(msg).Some? && old(onConnected).Some? && ParseLegacy(msg).value.LegacyOhaiMalformed? ==>
                && r == Ok && codec == old(codec)
                && calls == old(calls) + [Callback(old(onConnected).value, Some("Invalid OHAI message received"))]
      ensures ParseLegacy(msg).Some? && old(onConnected).Some? && ParseLegacy(msg).value.LegacyOhai? ==>
                var enc := NegotiatedEncoding(ParseLegacy(msg).value.opts);
                && (enc in codecs ==> r == Ok && codec == Some(codecs[enc]) && calls == old(calls) + [Callback(old(onConnected).value, None)])
                && (enc !in codecs ==> r == Thrown && codec == old(codec) && calls == old(calls))
    {
      var m := ParseLegacy(msg);
      if m.None? {
        return Ok;
      }
      var next := onConnected;
      onConnected := None;
      if next.None? {
        return Ok;
      }
      match m.value
      case LegacyOhaiMalformed =>
        calls := calls + [Callback(next.value, Some("Invalid OHAI message received"))];
        r := Ok;
      case LegacyOhai(opts) =>
        r := HandleOhai(opts, next.value, codecs);
    }
  }
}
