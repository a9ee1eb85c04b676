/**
  Frame layouts of the canonical client (lib/index.js): the validator of the
  RPC (DEALER) channel, the validator of the event (SUB) channel, and the
  layouts the session writes with its `_send*` helpers. A message that fails
  validation is dropped: the validators return None and nothing else happens.
 */
module SessionFrames {
  import opened Wire
  import opened Constants

  /** A validated message of the RPC channel. `OhaiMalformed` is the OHAI with
      an even number of frames, which the source reports to the connect
      callback instead of dropping. */
  datatype RpcMessage =
    | OhaiMsg(opts: Options)
    | OhaiMalformed
    | RequestMsg(requester: Frame, reqId: int, methodName: Frame, args: Value, opts: Options)
    | InterruptMsg(requester: Frame, reqId: int)
    | ProgressMsg(reqId: int)
    | StreamFrameMsg(tag: int, seqNo: int, body: Frame)
    | ReplyMsg(reqId: int, code: int, value: Value)
    | SubscribeAckMsg(kind: Frame, seqNo: int)
    | PingMsg

  /** A validated message of the event channel. */
  datatype EventMessage = EventMsg(kind: Frame, seqNo: int, body: Value)

  /** The message type each validated message came with. */
  function TypeOfMessage(m: RpcMessage): MsgType
  {
    match m
    case OhaiMsg(_) => Ohai
    case OhaiMalformed => Ohai
    case RequestMsg(_, _, _, _, _) => Request
    case InterruptMsg(_, _) => Interrupt
    case ProgressMsg(_) => Progress
    case StreamFrameMsg(_, _, _) => StreamFrame
    case ReplyMsg(_, _, _) => Reply
    case SubscribeAckMsg(_, _) => SubscribeAck
    case PingMsg => Ping
  }

  /** The per-type frame count a message of this kind must have had. */
  predicate ArityOk(m: RpcMessage, n: nat)
  {
    match m
    case OhaiMsg(_) => n % 2 == 1
    case OhaiMalformed => n % 2 == 0
    case RequestMsg(_, _, _, _, _) => n >= 6 && n % 2 == 0
    case InterruptMsg(_, _) => n == 4
    case ProgressMsg(_) => n == 4
    case StreamFrameMsg(_, _, _) => n == 6
    case ReplyMsg(_, _, _) => n == 6
    case SubscribeAckMsg(_, _) => n == 5
    case PingMsg => true
  }

  /** The common envelope check: at least three frames, the header token at
      frame 1 and a one-byte type frame at frame 2. */
  predicate Enveloped(msg: Frames)
  {
    |msg| >= 3 && msg[1] == FRAME_HEADER && |msg[2]| == 1
  }

  /** The types the RPC handler has a `case` for; every other type is dropped. */
  predicate HandledType(t: MsgType)
  {
    t in {Ohai, Request, Interrupt, Progress, StreamFrame, Reply, SubscribeAck, Ping}
  }

  /** The validator of `rpcSock.on('message')`. Payloads are decoded with
      the session's codec, which is `None` until an OHAI installed one:
      reading `decode` of the missing codec throws inside the handler's `try`,
      so a REQUEST or REPLY is then dropped. */
  function ParseRpc(msg: Frames, codec: Option<Codec>): (r: Option<RpcMessage>)
    ensures r.Some? ==> Enveloped(msg) && TypeOf(msg[2][0]) == Some(TypeOfMessage(r.value))
    ensures r.Some? ==> ArityOk(r.value, |msg|) && HandledType(TypeOfMessage(r.value))
    // What each accepted message carries.
    ensures r.Some? && r.value.OhaiMsg? ==> r.value.opts == PairsFrom(msg, 3)
    ensures r.Some? && r.value.RequestMsg? ==>
              && r.value.requester == msg[0] && ReadUInt16BE(msg[3]) == Some(r.value.reqId)
              && r.value.methodName == msg[4] && codec.Some? && codec.value.decode(msg[5]) == Some(r.value.args)
              && r.value.opts == PairsFrom(msg, 6)
    ensures r.Some? && r.value.InterruptMsg? ==> r.value.requester == msg[0] && ReadUInt16BE(msg[3]) == Some(r.value.reqId)
    ensures r.Some? && r.value.ProgressMsg? ==> ReadUInt16BE(msg[3]) == Some(r.value.reqId)
    ensures r.Some? && r.value.StreamFrameMsg? ==>
              ReadUInt16BE(msg[3]) == Some(r.value.tag) && ReadUInt16BE(msg[4]) == Some(r.value.seqNo) && r.value.body == msg[5]
    ensures r.Some? && r.value.ReplyMsg? ==>
              && ReadUInt16BE(msg[3]) == Some(r.value.reqId) && ReadUInt8(msg[4]) == Some(r.value.code)
              && codec.Some? && codec.value.decode(msg[5]) == Some(r.value.value)
    ensures r.Some? && r.value.SubscribeAckMsg? ==> r.value.kind == msg[3] && ReadUInt16BE(msg[4]) == Some(r.value.seqNo)
    // Which enveloped messages are accepted, type by type.
    ensures Enveloped(msg) && TypeOf(msg[2][0]) in {Some(Ohai), Some(Ping)} ==> r.Some?
    ensures Enveloped(msg) && TypeOf(msg[2][0]) == Some(Request) ==>
              (r.Some? <==> && |msg| >= 6 && |msg| % 2 == 0 && |msg[3]| >= 2
                            && codec.Some? && codec.value.decode(msg[5]).Some?)
    ensures Enveloped(msg) && TypeOf(msg[2][0]) in {Some(Interrupt), Some(Progress)} ==>
              (r.Some? <==> |msg| == 4 && |msg[3]| >= 2)
    ensures Enveloped(msg) && TypeOf(msg[2][0]) == Some(StreamFrame) ==>
              (r.Some? <==> |msg| == 6 && |msg[3]| >= 2 && |msg[4]| >= 2)
    ensures Enveloped(msg) && TypeOf(msg[2][0]) == Some(Reply) ==>
              (r.Some? <==> && |msg| == 6 && |msg[3]| >= 2 && |msg[4]| >= 1
                            && codec.Some? && codec.value.decode(msg[5]).Some?)
    ensures Enveloped(msg) && TypeOf(msg[2][0]) == Some(SubscribeAck) ==>
              (r.Some? <==> |msg| == 5 && |msg[4]| >= 2)
  {
    if |msg| < 3 || msg[1] != FRAME_HEADER || |msg[2]| != 1 then None
    else match TypeOf(msg[2][0])
      case Some(Ohai) =>
        if |msg| % 2 != 1 then Some(OhaiMalformed)
        else Some(OhaiMsg(PairsFrom(msg, 3)))
      case Some(Request) =>
        if |msg| < 6 || |msg| % 2 != 0 then None
        else
          var reqId := ReadUInt16BE(msg[3]);
          var args := DecodeWith(codec, msg[5]);
          if reqId.None? || args.None? then None
          else Some(RequestMsg(msg[0], reqId.value, msg[4], args.value, PairsFrom(msg, 6)))
      case Some(Interrupt) =>
        if |msg| != 4 then None
        else
          var reqId := ReadUInt16BE(msg[3]);
          if reqId.None? then None else Some(InterruptMsg(msg[0], reqId.value))
      case Some(Progress) =>
        if |msg| != 4 then None
        else
          var reqId := ReadUInt16BE(msg[3]);
          if reqId.None? then None else Some(ProgressMsg(reqId.value))
      case Some(StreamFrame) =>
        if |msg| != 6 then None
        else
          var tag := ReadUInt16BE(msg[3]);
          var seqNo := ReadUInt16BE(msg[4]);
          if tag.None? || seqNo.None? then None
          else Some(StreamFrameMsg(tag.value, seqNo.value, msg[5]))
      case Some(Reply) =>
        if |msg| != 6 then None
        else
          var reqId := ReadUInt16BE(msg[3]);
          var code := ReadUInt8(msg[4]);
          var value := DecodeWith(codec, msg[5]);
          if reqId.None? || code.None? || value.None? then None
          else Some(ReplyMsg(reqId.value, code.value, value.value))
      case Some(SubscribeAck) =>
        if |msg| != 5 then None
        else
          var seqNo := ReadUInt16BE(msg[4]);
          if seqNo.None? then None else Some(SubscribeAckMsg(msg[3], seqNo.value))
      case Some(Ping) => Some(PingMsg)
      case _ => None
  }

  /** A message whose type has no `case` in the handler is dropped, whatever
      else it holds. */
  lemma UnhandledTypeDropped(msg: Frames, codec: Option<Codec>)
    requires Enveloped(msg)
    requires TypeOf(msg[2][0]).None? || !HandledType(TypeOf(msg[2][0]).value)
    ensures ParseRpc(msg, codec).None?
  {
  }

  /** A truncated 16-bit field drops the message: an INTERRUPT, PROGRESS or
      REPLY whose id frame is shorter than two bytes is never accepted. */
  lemma TruncatedIdDropped(msg: Frames, codec: Option<Codec>)
    requires Enveloped(msg) && |msg| >= 4 && |msg[3]| < 2
    requires TypeOf(msg[2][0]) in {Some(Request), Some(Interrupt), Some(Progress), Some(Reply)}
    ensures ParseRpc(msg, codec).None?
  {
  }

  /** The validator of `evtSock.on('message')`: exactly six frames, the header
      at frame 2, the one-byte EVENT code at frame 3; an empty body frame
      stands for `{}`, any other body must decode with the session's codec
      (so without one only empty bodies pass); the sequence number is the
      16-bit field of frame 5. */
  function ParseEvent(msg: Frames, codec: Option<Codec>): (r: Option<EventMessage>)
    ensures r.Some? <==>
              && |msg| == 6 && msg[2] == FRAME_HEADER && msg[3] == TypeFrame(Event)
              && (|msg[4]| == 0 || (codec.Some? && codec.value.decode(msg[4]).Some?)) && |msg[5]| >= 2
    ensures r.Some? ==> r.value.kind == msg[0] && ReadUInt16BE(msg[5]) == Some(r.value.seqNo)
    ensures r.Some? && |msg[4]| == 0 ==> r.value.body == EmptyObject
    ensures r.Some? && |msg[4]| != 0 ==> codec.Some? && codec.value.decode(msg[4]) == Some(r.value.body)
  {
    if |msg| != 6 || msg[2] != FRAME_HEADER then None
    else if |msg[3]| != 1 || msg[3][0] != Code(Event) then None
    else
      var body := if |msg[4]| != 0 then DecodeWith(codec, msg[4]) else Some(EmptyObject);
      var seqNo := ReadUInt16BE(msg[5]);
      if body.None? || seqNo.None? then None
      else Some(EventMsg(msg[0], seqNo.value, body.value))
  }

  /** Before OHAI installed a codec, no REQUEST or REPLY is accepted and only
      events with an empty body are. */
  lemma NoCodecDropsPayloads(msg: Frames)
    ensures ParseRpc(msg, None).Some? ==> !ParseRpc(msg, None).value.RequestMsg? && !ParseRpc(msg, None).value.ReplyMsg?
    ensures ParseEvent(msg, None).Some? ==> |msg[4]| == 0
  {
  }

  // ---------------------------------------------------------------------------
  // Layouts written by the session's send helpers
  // ---------------------------------------------------------------------------

  /** The option names of the per-request output streams. */
  function StdoutTagName(): Frame { Ascii("Stdout-Tag") }
  function StderrTagName(): Frame { Ascii("Stderr-Tag") }

  lemma TagNamesDistinct()
    ensures StdoutTagName() != StderrTagName()
  {
    assert StdoutTagName()[3] != StderrTagName()[3];
  }

  /** `[FRAME_EMPTY, FRAME_HEADER, FRAME_MSGTYPE_X]`, the bare broker messages. */
  function ControlFrames(t: MsgType): (f: Frames)
    ensures |f| == 3 && Enveloped(f) && f[0] == FRAME_EMPTY && TypeOf(f[2][0]) == Some(t)
  {
    [FRAME_EMPTY, FRAME_HEADER, TypeFrame(t)]
  }

  /** `_sendExport`: EXPORT is code 0x03, called REGISTER in the constants table. */
  function ExportFrames(methodName: Frame): (f: Frames)
    ensures |f| == 4 && Enveloped(f) && f[0] == FRAME_EMPTY && TypeOf(f[2][0]) == Some(Register)
    ensures f[3] == methodName
  {
    ControlFrames(Register) + [methodName]
  }

  /** The option pairs a REQUEST carries: Stdout-Tag first, then Stderr-Tag. */
  function TagOptions(stdoutTag: Option<int>, stderrTag: Option<int>): (f: Frames)
    requires stdoutTag.Some? ==> 0 <= stdoutTag.value < U16_MODULUS
    requires stderrTag.Some? ==> 0 <= stderrTag.value < U16_MODULUS
    ensures |f| == (if stdoutTag.Some? then 2 else 0) + (if stderrTag.Some? then 2 else 0)
  {
    (if stdoutTag.Some? then [StdoutTagName(), WriteUInt16BE(stdoutTag.value)] else [])
    + (if stderrTag.Some? then [StderrTagName(), WriteUInt16BE(stderrTag.value)] else [])
  }

  /** `_sendRequest`: six fixed frames, then the stream tag options. */
  function RequestFrames(reqId: int, methodName: Frame, args: Frame, stdoutTag: Option<int>, stderrTag: Option<int>): (f: Frames)
    requires 0 <= reqId < U16_MODULUS
    requires stdoutTag.Some? ==> 0 <= stdoutTag.value < U16_MODULUS
    requires stderrTag.Some? ==> 0 <= stderrTag.value < U16_MODULUS
    ensures |f| == 6 + |TagOptions(stdoutTag, stderrTag)|
  {
    [FRAME_EMPTY, FRAME_HEADER, TypeFrame(Request), WriteUInt16BE(reqId), methodName, args]
    + TagOptions(stdoutTag, stderrTag)
  }

  function InterruptFrames(reqId: int): (f: Frames)
    requires 0 <= reqId < U16_MODULUS
    ensures |f| == 4
  {
    ControlFrames(Interrupt) + [WriteUInt16BE(reqId)]
  }

  function ProgressFrames(requester: Frame, reqId: int): (f: Frames)
    requires 0 <= reqId < U16_MODULUS
    ensures |f| == 4
  {
    [requester, FRAME_HEADER, TypeFrame(Progress), WriteUInt16BE(reqId)]
  }

  function StreamFrameFrames(receiver: Frame, tag: int, seqNo: int, body: Frame): (f: Frames)
    requires 0 <= tag < U16_MODULUS && 0 <= seqNo < U16_MODULUS
    ensures |f| == 6
  {
    [receiver, FRAME_HEADER, TypeFrame(StreamFrame), WriteUInt16BE(tag), WriteUInt16BE(seqNo), body]
  }

  function ReplyFrames(requester: Frame, reqId: int, code: int, value: Frame): (f: Frames)
    requires 0 <= reqId < U16_MODULUS && 0 <= code < 256
    ensures |f| == 6
  {
    [requester, FRAME_HEADER, TypeFrame(Reply), WriteUInt16BE(reqId), WriteUInt8(code), value]
  }

  function SubscribeFrames(kind: Frame): (f: Frames)
    ensures |f| == 3 && Enveloped(f) && f[0] == kind && TypeOf(f[2][0]) == Some(Subscribe)
  {
    [kind, FRAME_HEADER, TypeFrame(Subscribe)]
  }

  function UnsubscribeFrames(kind: Frame): (f: Frames)
    ensures |f| == 3 && Enveloped(f) && f[0] == kind && TypeOf(f[2][0]) == Some(Unsubscribe)
  {
    [kind, FRAME_HEADER, TypeFrame(Unsubscribe)]
  }

  function EventFrames(kind: Frame, body: Frame): (f: Frames)
    ensures |f| == 4 && Enveloped(f) && f[0] == kind && TypeOf(f[2][0]) == Some(Event) && f[3] == body
  {
    [kind, FRAME_HEADER, TypeFrame(Event), body]
  }

  // ---------------------------------------------------------------------------
  // What the session writes, its peer's validator reads back
  // ---------------------------------------------------------------------------

  /** A PROGRESS as written is accepted with the same id. */
  lemma ProgressRoundTrip(requester: Frame, reqId: int, codec: Option<Codec>)
    requires 0 <= reqId < U16_MODULUS
    ensures ParseRpc(ProgressFrames(requester, reqId), codec) == Some(ProgressMsg(reqId))
  {
    UInt16RoundTrip(reqId);
  }

  /** An INTERRUPT as written is accepted with the same id, from the routing
      frame it carries. */
  lemma InterruptRoundTrip(reqId: int, codec: Option<Codec>)
    requires 0 <= reqId < U16_MODULUS
    ensures ParseRpc(InterruptFrames(reqId), codec) == Some(InterruptMsg(FRAME_EMPTY, reqId))
  {
    UInt16RoundTrip(reqId);
  }

  /** A STREAM_FRAME as written is accepted with the same tag, sequence number
      and body. */
  lemma StreamFrameRoundTrip(receiver: Frame, tag: int, seqNo: int, body: Frame, codec: Option<Codec>)
    requires 0 <= tag < U16_MODULUS && 0 <= seqNo < U16_MODULUS
    ensures ParseRpc(StreamFrameFrames(receiver, tag, seqNo, body), codec) == Some(StreamFrameMsg(tag, seqNo, body))
  {
    UInt16RoundTrip(tag);
    UInt16RoundTrip(seqNo);
  }

  /** A REPLY as written is accepted with the same id, return code and value,
      provided the codec decodes what it encodes. */
  lemma ReplyRoundTrip(requester: Frame, reqId: int, code: int, v: Value, c: Codec, e: Frame)
    requires 0 <= reqId < U16_MODULUS && 0 <= code < 256
    requires c.encode(v) == Some(e) && c.decode(e) == Some(v)
    ensures ParseRpc(ReplyFrames(requester, reqId, code, e), Some(c)) == Some(ReplyMsg(reqId, code, v))
  {
    UInt16RoundTrip(reqId);
  }

  /** The value of a tag option as the receiving side reads it. */
  function TagOf(opts: Options, name: Frame): Option<int>
  {
    match Lookup(opts, name)
    case Some(f) => ReadUInt16BE(f)
    case None => None
  }

  /** A REQUEST as written is accepted with the same id, methodName and arguments,
      and its option dictionary yields exactly the stream tags it was written
      with: a tag option is present iff the stream was wired. */
  lemma {:induction false} RequestRoundTrip(reqId: int, methodName: Frame, v: Value, stdoutTag: Option<int>, stderrTag: Option<int>,
                                            c: Codec, e: Frame)
    requires 0 <= reqId < U16_MODULUS
    requires stdoutTag.Some? ==> 0 <= stdoutTag.value < U16_MODULUS
    requires stderrTag.Some? ==> 0 <= stderrTag.value < U16_MODULUS
    requires c.encode(v) == Some(e) && c.decode(e) == Some(v)
    ensures var r := ParseRpc(RequestFrames(reqId, methodName, e, stdoutTag, stderrTag), Some(c));
            && r.Some? && r.value.RequestMsg?
            && r.value.requester == FRAME_EMPTY && r.value.reqId == reqId
            && r.value.methodName == methodName && r.value.args == v
            && TagOf(r.value.opts, StdoutTagName()) == stdoutTag
            && TagOf(r.value.opts, StderrTagName()) == stderrTag
  {
    var msg := RequestFrames(reqId, methodName, e, stdoutTag, stderrTag);
    UInt16RoundTrip(reqId);
    assert msg[1] == FRAME_HEADER && msg[2] == TypeFrame(Request);
    assert msg[3] == WriteUInt16BE(reqId) && msg[4] == methodName && msg[5] == e;
    var opts := PairsFrom(msg, 6);
    TagNamesDistinct();
    var outName, errName := StdoutTagName(), StderrTagName();
    if stdoutTag.Some? {
      UInt16RoundTrip(stdoutTag.value);
      assert msg[6] == outName && msg[7] == WriteUInt16BE(stdoutTag.value);
      if stderrTag.Some? {
        assert |msg| == 10 && msg[8] == errName;
      } else {
        assert |msg| == 8;
      }
      LookupPairs(msg, 6, 6);
      assert Lookup(opts, outName) == Some(WriteUInt16BE(stdoutTag.value));
    } else {
      assert forall l :: 6 <= l < |msg| && (l - 6) % 2 == 0 ==> l == 6 && msg[l] != outName;
      LookupAbsent(msg, 6, outName);
    }
    if stderrTag.Some? {
      UInt16RoundTrip(stderrTag.value);
      var j := if stdoutTag.Some? then 8 else 6;
      assert |msg| == j + 2 && msg[j] == errName && msg[j + 1] == WriteUInt16BE(stderrTag.value);
      LookupPairs(msg, 6, j);
    } else {
      assert stdoutTag.Some? ==> |msg| == 8 && msg[6] == outName;
      assert forall l :: 6 <= l < |msg| && (l - 6) % 2 == 0 ==> l == 6 && msg[l] != errName;
      LookupAbsent(msg, 6, errName);
    }
  }
}
