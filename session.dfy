/**
  The canonical client session of lib/index.js, together with the OHAI
  handler of lib/socket.js that the session's RPC channel calls. The session
  keeps a 16-bit counter for request ids and stream tags, the table of
  outbound requests awaiting a REPLY, the table of inbound stream tags, the
  export and subscription listener tables, and a state field that guards
  every send. Sockets are replaced by logs: `rpcSent` holds every multi-part
  message written to the DEALER socket, `sockOps` the subscription options
  and closes applied to the sockets.
 */
module ClientSession {
  import opened Wire
  import opened Constants
  import opened Counters
  import opened Listeners
  import opened SessionFrames
  import opened Handshake

  /** `STATE_INITIALISED`, `STATE_CONNECTED`, `STATE_CLOSED`. */
  datatype State = Initialised | Connected | Closed

  /** What a session method that may throw reports. */
  datatype Status = Ok | InvalidState | AlreadyExported | EncodeThrew

  /** Socket operations other than sends. */
  datatype SockOp = SubscribeOpt(kind: Frame) | UnsubscribeOpt(kind: Frame) | CloseSocket

  /** Events emitted on request and stream objects. */
  datatype Note =
    | ProgressNote(req: OutboundRequest)
    | FrameNote(stream: OutputStream, seqNo: int, body: Frame)
    | ReplyNote(req: OutboundRequest, code: int, value: Value)

  /** Messages handed to the inbound-request service (REQUEST, INTERRUPT) and
      to the event service (SUBSCRIBE_ACK and events), which are not part of
      lib/index.js. */
  datatype Forward = ToRequests(m: RpcMessage) | AckToEvents(m: RpcMessage) | ToEvents(e: EventMessage)

  /** The third endpoint `connect` requires: `evtEndpoint` in lib/index.js,
      `pubEndpoint` in the socket of lib/old/socket.js. */
  datatype EndpointArgument = EvtEndpoint | PubEndpoint

  function NotSetMessage(arg: EndpointArgument): string
  {
    match arg
    case EvtEndpoint => "argument 'evtEndpoint' is not set"
    case PubEndpoint => "argument 'pubEndpoint' is not set"
  }

  /** The error `connect` reports for the first required argument that is not
      set, checked in the order identity, `rpcEndpoint`, then the endpoint
      named by `arg`. */
  function MissingArgument(identity: Option<string>, rpcEndpoint: Option<string>, endpoint: Option<string>,
                           arg: EndpointArgument): (r: Option<string>)
    ensures r.None? <==> identity.Some? && rpcEndpoint.Some? && endpoint.Some?
    ensures r == Some("argument 'identity' is not set") <==> identity.None?
    ensures r == Some("argument 'rpcEndpoint' is not set") <==> identity.Some? && rpcEndpoint.None?
    ensures r == Some(NotSetMessage(arg)) <==> identity.Some? && rpcEndpoint.Some? && endpoint.None?
  {
    if identity.None? then Some("argument 'identity' is not set")
    else if rpcEndpoint.None? then Some("argument 'rpcEndpoint' is not set")
    else if endpoint.None? then Some(NotSetMessage(arg))
    else None
  }

  /** `a || b` over a setting: an explicit value wins unless it is undefined or
      the empty string, else the environment variable (possibly undefined). */
  function Setting(explicit: Option<string>, env: Option<string>): (r: Option<string>)
    ensures explicit.Some? && explicit.value != "" ==> r == explicit
    ensures (explicit.None? || explicit.value == "") ==> r == env
  {
    if explicit.Some? && explicit.value != "" then explicit else env
  }

  /** A setting is supplied when its explicit value is a non-empty string or
      its environment variable is defined. */
  predicate Supplied(explicit: Option<string>, env: Option<string>)
  {
    (explicit.Some? && explicit.value != "") || env.Some?
  }

  /** `connect` resolves identity, `rpcEndpoint` and `evtEndpoint` through
      `||` and then checks them: the call goes ahead iff every one is supplied
      by its option or its environment variable, and otherwise it reports the
      first one supplied by neither, in that order. */
  lemma ConnectSettingsResolved(idOpt: Option<string>, idEnv: Option<string>, rpcOpt: Option<string>, rpcEnv: Option<string>,
                                evtOpt: Option<string>, evtEnv: Option<string>)
    ensures var r := MissingArgument(Setting(idOpt, idEnv), Setting(rpcOpt, rpcEnv), Setting(evtOpt, evtEnv), EvtEndpoint);
            && (r.None? <==> Supplied(idOpt, idEnv) && Supplied(rpcOpt, rpcEnv) && Supplied(evtOpt, evtEnv))
            && (r == Some("argument 'identity' is not set") <==> !Supplied(idOpt, idEnv))
            && (r == Some("argument 'rpcEndpoint' is not set") <==> Supplied(idOpt, idEnv) && !Supplied(rpcOpt, rpcEnv))
            && (r == Some("argument 'evtEndpoint' is not set") <==>
                  Supplied(idOpt, idEnv) && Supplied(rpcOpt, rpcEnv) && !Supplied(evtOpt, evtEnv))
  {
  }

  /** The stream tags `_sendRequest` mints after the request id, in the order
      Stdout-Tag, Stderr-Tag, for the streams that have `'frame'` listeners. */
  function StdoutTag(id: int, out: bool): (t: Option<int>)
    requires 0 <= id < U16_MODULUS
    ensures t.Some? ==> 0 <= t.value < U16_MODULUS
  {
    if out then Some(Successor(id)) else None
  }

  function StderrTag(id: int, out: bool, err: bool): (t: Option<int>)
    requires 0 <= id < U16_MODULUS
    ensures t.Some? ==> 0 <= t.value < U16_MODULUS
  {
    if !err then None else if out then Some(Successor(Successor(id))) else Some(Successor(id))
  }

  /** The counter after `_sendRequest` minted the id and the tags: the last
      value minted. */
  function SeqAfterRequest(id: int, out: bool, err: bool): (s: int)
    requires 0 <= id < U16_MODULUS
    ensures 0 <= s < U16_MODULUS
  {
    if out && err then Successor(Successor(id)) else if out || err then Successor(id) else id
  }

  /** The id and the (up to two) tags of one request are pairwise distinct,
      so neither tag shadows the other in `_inboundStreams`. */
  lemma TagsDistinct(id: int, out: bool, err: bool)
    requires 0 <= id < U16_MODULUS
    ensures StdoutTag(id, out).Some? ==> StdoutTag(id, out).value != id
    ensures StderrTag(id, out, err).Some? ==> StderrTag(id, out, err).value != id
    ensures StdoutTag(id, out).Some? && StderrTag(id, out, err).Some? ==>
              StdoutTag(id, out).value != StderrTag(id, out, err).value
  {
    AdvanceDistinct(id, 0, 1);
    AdvanceDistinct(id, 0, 2);
    AdvanceDistinct(id, 1, 2);
  }

  /** `_inboundStreams[tag] = stream` when a tag was minted. */
  function Filed(streams: map<int, OutputStream>, tag: Option<int>, s: OutputStream): (r: map<int, OutputStream>)
    ensures tag.Some? ==> r == streams[tag.value := s]
    ensures tag.None? ==> r == streams
  {
    if tag.Some? then streams[tag.value := s] else streams
  }

  /** Filing a request's two streams under the tags minted after its id: each
      minted tag maps to its own stream (the Stderr-Tag does not shadow the
      Stdout-Tag), the table grows by exactly the minted tags, and every other
      entry keeps its stream. */
  lemma FiledTags(streams: map<int, OutputStream>, id: int, out: bool, err: bool, so: OutputStream, se: OutputStream)
    requires 0 <= id < U16_MODULUS
    ensures var m := Filed(Filed(streams, StdoutTag(id, out), so), StderrTag(id, out, err), se);
            && (StdoutTag(id, out).Some? ==> StdoutTag(id, out).value in m && m[StdoutTag(id, out).value] == so)
            && (StderrTag(id, out, err).Some? ==> StderrTag(id, out, err).value in m && m[StderrTag(id, out, err).value] == se)
            && (forall k :: k in m <==> k in streams || StdoutTag(id, out) == Some(k) || StderrTag(id, out, err) == Some(k))
            && (forall k :: k in streams && StdoutTag(id, out) != Some(k) && StderrTag(id, out, err) != Some(k) ==>
                  m[k] == streams[k])
  {
    TagsDistinct(id, out, err);
  }

  /** `req.stdout` / `req.stderr`: an output stream of an outbound request,
      with its `'frame'` listeners. Its `_id` is read by the REPLY handler
      but set by no code of lib/index.js. */
  class OutputStream {
    var frameListeners: seq<HandlerId>
    var id: Option<int>

    constructor()
      ensures frameListeners == [] && id == None
    {
      frameListeners := [];
      id := None;
    }

    /** `stream.on('frame', h)`. */
    method OnFrame(h: HandlerId)
      modifies this
      ensures frameListeners == old(frameListeners) + [h]
      ensures id == old(id)
    {
      frameListeners := frameListeners + [h];
    }
  }

  /** An outbound request object: the method called, its arguments, its `_id`
      and its two output streams. */
  class OutboundRequest {
    var id: Option<int>
    const methodName: Frame
    const args: Value
    const stdout: OutputStream
    const stderr: OutputStream

    constructor(id0: int, methodName0: Frame, args0: Value)
      ensures id == Some(id0) && methodName == methodName0 && args == args0
      ensures fresh(stdout) && fresh(stderr) && stdout != stderr
      ensures stdout.frameListeners == [] && stderr.frameListeners == []
      ensures stdout.id == None && stderr.id == None
    {
      id := Some(id0);
      methodName := methodName0;
      args := args0;
      stdout := new OutputStream();
      stderr := new OutputStream();
    }
  }

  /** The `_inboundStreams` entries the REPLY handler frees for a request:
      those under its streams' `_id`s, when set. */
  function Freed(req: OutboundRequest): set<int>
    reads req, req.stdout, req.stderr
  {
    (if req.stdout.id.Some? then {req.stdout.id.value} else {})
    + (if req.stderr.id.Some? then {req.stderr.id.value} else {})
  }

  class Session {
    const identity: Frame
    var state: State
    var seqNo: int
    var exports: Table<Frame>
    var events: Table<Frame>
    var eventSeqs: map<Frame, int>
    var inboundRequests: set<Frame>
    var inboundStreams: map<int, OutputStream>
    var outboundRequests: map<int, OutboundRequest>
    var codec: Option<Codec>
    var rpcSent: seq<Frames>
    var sockOps: seq<SockOp>
    var notes: seq<Note>
    var callbacks: seq<Option<string>>
    var forwarded: seq<Forward>

    /** The counter is a 16-bit value and no listener table keeps an empty list. */
    ghost predicate Valid()
      reads this
    {
      0 <= seqNo < U16_MODULUS && NoEmpty(exports) && NoEmpty(events)
    }

    /** `newSession(identity)`. */
    constructor(identity0: Frame)
      ensures Valid()
      ensures identity == identity0 && state == Initialised && seqNo == 0
      ensures exports == map[] && events == map[] && eventSeqs == map[]
      ensures inboundRequests == {} && inboundStreams == map[] && outboundRequests == map[]
      ensures codec == None && rpcSent == [] && sockOps == [] && notes == [] && callbacks == [] && forwarded == []
    {
      identity := identity0;
      state := Initialised;
      seqNo := 0;
      exports := map[];
      events := map[];
      eventSeqs := map[];
      inboundRequests := {};
      inboundStreams := map[];
      outboundRequests := map[];
      codec := None;
      rpcSent := [];
      sockOps := [];
      notes := [];
      callbacks := [];
      forwarded := [];
    }

    /** `_nextSeq`: increments the counter, wrapping at 65536, and returns the
        new value; the first value of a fresh session is 1. */
    method NextSeq() returns (s: int)
      requires Valid()
      modifies this
      ensures Valid()
      ensures s == Successor(old(seqNo)) && seqNo == s
      ensures old(seqNo) == 0 ==> s == 1
      ensures old(seqNo) == U16_MODULUS - 1 ==> s == 0
      ensures state == old(state) && exports == old(exports) && events == old(events)
      ensures eventSeqs == old(eventSeqs) && inboundRequests == old(inboundRequests)
      ensures inboundStreams == old(inboundStreams) && outboundRequests == old(outboundRequests)
      ensures codec == old(codec) && rpcSent == old(rpcSent) && sockOps == old(sockOps)
      ensures notes == old(notes) && callbacks == old(callbacks) && forwarded == old(forwarded)
    {
      seqNo := (seqNo + 1) % U16_MODULUS;
      s := seqNo;
    }

    /** `_send`: writes to the DEALER socket only in the Connected state and
        throws otherwise. */
    method Send(frames: Frames) returns (r: Status)
      modifies this
      ensures r == Ok <==> old(state) == Connected
      ensures r != Ok ==> r == InvalidState
      ensures rpcSent == if r == Ok then old(rpcSent) + [frames] else old(rpcSent)
      ensures state == old(state) && seqNo == old(seqNo) && exports == old(exports) && events == old(events)
      ensures eventSeqs == old(eventSeqs) && inboundRequests == old(inboundRequests)
      ensures inboundStreams == old(inboundStreams) && outboundRequests == old(outboundRequests)
      ensures codec == old(codec) && sockOps == old(sockOps)
      ensures notes == old(notes) && callbacks == old(callbacks) && forwarded == old(forwarded)
    {
      if state != Connected {
        return InvalidState;
      }
      rpcSent := rpcSent + [frames];
      r := Ok;
    }

    /** `_sendHello` and `_sendPong` write to the socket directly, without the
        state check of `_send`. */
    method SendUnguarded(t: MsgType)
      requires t == Hello || t == Pong
      modifies this
      ensures rpcSent == old(rpcSent) + [ControlFrames(t)]
      ensures state == old(state) && seqNo == old(seqNo) && exports == old(exports) && events == old(events)
      ensures eventSeqs == old(eventSeqs) && inboundRequests == old(inboundRequests)
      ensures inboundStreams == old(inboundStreams) && outboundRequests == old(outboundRequests)
      ensures codec == old(codec) && sockOps == old(sockOps)
      ensures notes == old(notes) && callbacks == old(callbacks) && forwarded == old(forwarded)
    {
      rpcSent := rpcSent + [ControlFrames(t)];
    }

    /** `close`: throws unless Connected; otherwise sends KTHXBYE and moves to
        Closed at once (the delayed socket teardown is not modelled), so a
        second `close` throws. */
    method Close() returns (r: Status)
      modifies this
      ensures r == Ok <==> old(state) == Connected
      ensures r != Ok ==> r == InvalidState && state == old(state) && rpcSent == old(rpcSent)
      ensures r == Ok ==> state == Closed && rpcSent == old(rpcSent) + [ControlFrames(Kthxbye)]
      ensures seqNo == old(seqNo) && exports == old(exports) && events == old(events)
      ensures eventSeqs == old(eventSeqs) && inboundRequests == old(inboundRequests)
      ensures inboundStreams == old(inboundStreams) && outboundRequests == old(outboundRequests)
      ensures codec == old(codec) && sockOps == old(sockOps)
      ensures notes == old(notes) && callbacks == old(callbacks) && forwarded == old(forwarded)
    {
      if state != Connected {
        return InvalidState;
      }
      r := Send(ControlFrames(Kthxbye));
      state := Closed;
    }

    /** `export(method, callback)`: throws if the method already has a
        handler, leaving that handler the only one; otherwise registers the
        handler and then sends EXPORT, which throws outside Connected after
        the handler is already registered. */
    method Export(methodName: Frame, h: HandlerId) returns (r: Status)
      requires Valid()
      modifies this
      ensures Valid()
      ensures old(ListenersOf(exports, methodName)) != [] ==>
                r == AlreadyExported && exports == old(exports) && rpcSent == old(rpcSent)
      ensures old(ListenersOf(exports, methodName)) == [] ==>
                && exports == On(old(exports), methodName, h)
                && ListenersOf(exports, methodName) == [h]
                && (r == Ok <==> old(state) == Connected)
                && (r != Ok ==> r == InvalidState)
                && rpcSent == (if r == Ok then old(rpcSent) + [ExportFrames(methodName)] else old(rpcSent))
      ensures state == old(state) && seqNo == old(seqNo) && events == old(events)
      ensures eventSeqs == old(eventSeqs) && inboundRequests == old(inboundRequests)
      ensures inboundStreams == old(inboundStreams) && outboundRequests == old(outboundRequests)
      ensures codec == old(codec) && sockOps == old(sockOps)
      ensures notes == old(notes) && callbacks == old(callbacks) && forwarded == old(forwarded)
    {
      if ListenersOf(exports, methodName) != [] {
        return AlreadyExported;
      }
      exports := On(exports, methodName, h);
      r := Send(ExportFrames(methodName));
    }

    /** `request(method, args)`: mints an id and creates the request object
        with it. The request is not sent yet. */
    method Request(methodName: Frame, args: Value) returns (req: OutboundRequest)
      requires Valid()
      modifies this
      ensures Valid()
      ensures fresh(req) && fresh(req.stdout) && fresh(req.stderr) && req.stdout != req.stderr
      ensures seqNo == Successor(old(seqNo)) && req.id == Some(seqNo)
      ensures req.methodName == methodName && req.args == args
      ensures req.stdout.frameListeners == [] && req.stderr.frameListeners == []
      ensures req.stdout.id == None && req.stderr.id == None
      ensures state == old(state) && exports == old(exports) && events == old(events)
      ensures eventSeqs == old(eventSeqs) && inboundRequests == old(inboundRequests)
      ensures inboundStreams == old(inboundStreams) && outboundRequests == old(outboundRequests)
      ensures codec == old(codec) && rpcSent == old(rpcSent) && sockOps == old(sockOps)
      ensures notes == old(notes) && callbacks == old(callbacks) && forwarded == old(forwarded)
    {
      var id := NextSeq();
      req := new OutboundRequest(id, methodName, args);
    }

    /** `_sendRequest(req)`: overwrites `req._id` with a fresh counter value,
        then encodes the arguments with the session's codec, which throws
        when none is installed or when the codec refuses them. Otherwise it mints a tag for each output
        stream that has `'frame'` listeners (Stdout-Tag first) and files the
        stream under it, fills the message array with a running index, sends
        it and only then files the request under its new id. When `_send`
        throws, the id and the tags are already taken and the tags stay
        filed. */
    method SendRequest(req: OutboundRequest) returns (r: Status)
      requires Valid()
      modifies this, req
      ensures Valid()
      ensures req.id == Some(Successor(old(seqNo)))
      ensures EncodeWith(old(codec), req.args).None? ==>
                && r == EncodeThrew && seqNo == Successor(old(seqNo))
                && inboundStreams == old(inboundStreams) && rpcSent == old(rpcSent)
                && outboundRequests == old(outboundRequests)
      ensures EncodeWith(old(codec), req.args).Some? ==>
                var id := Successor(old(seqNo));
                var out, err := |req.stdout.frameListeners| != 0, |req.stderr.frameListeners| != 0;
                var outTag, errTag := StdoutTag(id, out), StderrTag(id, out, err);
                && seqNo == SeqAfterRequest(id, out, err)
                && inboundStreams == Filed(Filed(old(inboundStreams), outTag, req.stdout), errTag, req.stderr)
                && (r == Ok <==> old(state) == Connected)
                && (r != Ok ==> r == InvalidState && rpcSent == old(rpcSent) && outboundRequests == old(outboundRequests))
                && (r == Ok ==> rpcSent == old(rpcSent) + [RequestFrames(id, req.methodName, EncodeWith(old(codec), req.args).value, outTag, errTag)]
                                && outboundRequests == old(outboundRequests)[id := req])
      ensures req.stdout.frameListeners == old(req.stdout.frameListeners)
      ensures req.stderr.frameListeners == old(req.stderr.frameListeners)
      ensures state == old(state) && exports == old(exports) && events == old(events)
      ensures eventSeqs == old(eventSeqs) && inboundRequests == old(inboundRequests)
      ensures codec == old(codec) && sockOps == old(sockOps)
      ensures notes == old(notes) && callbacks == old(callbacks) && forwarded == old(forwarded)
    {
      var id := NextSeq();
      req.id := Some(id);
      var encoded := EncodeWith(codec, req.args);
      if encoded.None? {
        return EncodeThrew;
      }
      var args := encoded.value;
      var out := |req.stdout.frameListeners| != 0;
      var err := |req.stderr.frameListeners| != 0;
      var outTag: Option<int> := None;
      var errTag: Option<int> := None;
      if out {
        var tag := FileStream(req.stdout);
        outTag := Some(tag);
      }
      if err {
        var tag := FileStream(req.stderr);
        errTag := Some(tag);
      }
      assert outTag == StdoutTag(id, out) && errTag == StderrTag(id, out, err);
      assert seqNo == SeqAfterRequest(id, out, err);
      var msg := RequestMessage(id, req.methodName, args, outTag, errTag);
      r := Send(msg);
      if r == Ok {
        outboundRequests := outboundRequests[id := req];
      }
    }

    /** One stream tag of `_sendRequest`: a fresh counter value under which
        the stream is filed in `_inboundStreams`. */
    method FileStream(stream: OutputStream) returns (tag: int)
      requires Valid()
      modifies this
      ensures Valid()
      ensures tag == Successor(old(seqNo)) && seqNo == tag
      ensures inboundStreams == old(inboundStreams)[tag := stream]
      ensures state == old(state) && exports == old(exports) && events == old(events)
      ensures eventSeqs == old(eventSeqs) && inboundRequests == old(inboundRequests)
      ensures outboundRequests == old(outboundRequests)
      ensures codec == old(codec) && rpcSent == old(rpcSent) && sockOps == old(sockOps)
      ensures notes == old(notes) && callbacks == old(callbacks) && forwarded == old(forwarded)
    {
      tag := NextSeq();
      inboundStreams := inboundStreams[tag := stream];
    }

    /** The message array of `_sendRequest`: `6 + 2k` slots for `k` wired
        streams, the six fixed frames, then each tag option at the running
        index, Stdout-Tag first. */
    static method RequestMessage(id: int, methodName: Frame, args: Frame, outTag: Option<int>, errTag: Option<int>)
      returns (msg: Frames)
      requires 0 <= id < U16_MODULUS
      requires outTag.Some? ==> 0 <= outTag.value < U16_MODULUS
      requires errTag.Some? ==> 0 <= errTag.value < U16_MODULUS
      ensures msg == RequestFrames(id, methodName, args, outTag, errTag)
      ensures |msg| == 6 + (if outTag.Some? then 2 else 0) + (if errTag.Some? then 2 else 0)
    {
      var msgLength := 6;
      if outTag.Some? { msgLength := msgLength + 2; }
      if errTag.Some? { msgLength := msgLength + 2; }
      var a := new Frame[msgLength];
      a[0] := FRAME_EMPTY;
      a[1] := FRAME_HEADER;
      a[2] := TypeFrame(MsgType.Request);
      a[3] := WriteUInt16BE(id);
      a[4] := methodName;
      a[5] := args;
      var i := 6;
      if outTag.Some? {
        a[i] := StdoutTagName();
        a[i + 1] := WriteUInt16BE(outTag.value);
        i := i + 2;
      }
      if errTag.Some? {
        a[i] := StderrTagName();
        a[i + 1] := WriteUInt16BE(errTag.value);
      }
      msg := a[..];
    }

    /** `_sendReply`: encodes the value with the session's codec (throwing
        when none is installed or the codec refuses the value), sends the REPLY and, once it is sent, forgets
        the inbound request filed under `requester#reqId`. */
    method SendReply(requester: Frame, reqId: int, code: int, value: Value) returns (r: Status)
      requires 0 <= reqId < U16_MODULUS && 0 <= code < 256
      modifies this
      ensures EncodeWith(old(codec), value).None? ==> r == EncodeThrew && rpcSent == old(rpcSent) && inboundRequests == old(inboundRequests)
      ensures EncodeWith(old(codec), value).Some? ==>
                && (r == Ok <==> old(state) == Connected)
                && (r != Ok ==> r == InvalidState && rpcSent == old(rpcSent) && inboundRequests == old(inboundRequests))
                && (r == Ok ==> && rpcSent == old(rpcSent) + [ReplyFrames(requester, reqId, code, EncodeWith(old(codec), value).value)]
                                && inboundRequests == old(inboundRequests) - {RequestKey(requester, reqId)})
      ensures state == old(state) && seqNo == old(seqNo) && exports == old(exports) && events == old(events)
      ensures eventSeqs == old(eventSeqs)
      ensures inboundStreams == old(inboundStreams) && outboundRequests == old(outboundRequests)
      ensures codec == old(codec) && sockOps == old(sockOps)
      ensures notes == old(notes) && callbacks == old(callbacks) && forwarded == old(forwarded)
    {
      var encoded := EncodeWith(codec, value);
      if encoded.None? {
        return EncodeThrew;
      }
      r := Send(ReplyFrames(requester, reqId, code, encoded.value));
      if r == Ok {
        inboundRequests := inboundRequests - {RequestKey(requester, reqId)};
      }
    }

    /** `subscribe(kind, callback)`: registers the handler, subscribes the event
        socket and sends SUBSCRIBE, which throws outside Connected. */
    method Subscribe(kind: Frame, h: HandlerId) returns (r: Status)
      requires Valid()
      modifies this
      ensures Valid()
      ensures events == On(old(events), kind, h)
      ensures sockOps == old(sockOps) + [SubscribeOpt(kind)]
      ensures r == Ok <==> old(state) == Connected
      ensures r != Ok ==> r == InvalidState
      ensures rpcSent == if r == Ok then old(rpcSent) + [SubscribeFrames(kind)] else old(rpcSent)
      ensures state == old(state) && seqNo == old(seqNo) && exports == old(exports)
      ensures eventSeqs == old(eventSeqs) && inboundRequests == old(inboundRequests)
      ensures inboundStreams == old(inboundStreams) && outboundRequests == old(outboundRequests)
      ensures codec == old(codec)
      ensures notes == old(notes) && callbacks == old(callbacks) && forwarded == old(forwarded)
    {
      events := On(events, kind, h);
      sockOps := sockOps + [SubscribeOpt(kind)];
      r := Send(SubscribeFrames(kind));
    }

    /** `unsubscribe(kind)`: unsubscribes the event socket, drops every
        handler of the kind, sends UNSUBSCRIBE and then forgets the kind's
        sequence number. When the send throws, the sequence number is kept. */
    method Unsubscribe(kind: Frame) returns (r: Status)
      requires Valid()
      modifies this
      ensures Valid()
      ensures sockOps == old(sockOps) + [UnsubscribeOpt(kind)]
      ensures events == RemoveAll(old(events), kind) && ListenersOf(events, kind) == []
      ensures r == Ok <==> old(state) == Connected
      ensures r != Ok ==> r == InvalidState && rpcSent == old(rpcSent) && eventSeqs == old(eventSeqs)
      ensures r == Ok ==> rpcSent == old(rpcSent) + [UnsubscribeFrames(kind)] && eventSeqs == old(eventSeqs) - {kind}
      ensures state == old(state) && seqNo == old(seqNo) && exports == old(exports)
      ensures inboundRequests == old(inboundRequests)
      ensures inboundStreams == old(inboundStreams) && outboundRequests == old(outboundRequests)
      ensures codec == old(codec)
      ensures notes == old(notes) && callbacks == old(callbacks) && forwarded == old(forwarded)
    {
      sockOps := sockOps + [UnsubscribeOpt(kind)];
      events := RemoveAll(events, kind);
      r := Send(UnsubscribeFrames(kind));
      if r == Ok {
        eventSeqs := eventSeqs - {kind};
      }
    }

    /** `publish(kind, body)`: `_sendEvent` encodes the body with the
        session's codec, which throws when none is installed or when the
        codec refuses the body, then sends. */
    method Publish(kind: Frame, body: Value) returns (r: Status)
      modifies this
      ensures EncodeWith(old(codec), body).None? ==> r == EncodeThrew && rpcSent == old(rpcSent)
      ensures EncodeWith(old(codec), body).Some? ==>
                && (r == Ok <==> old(state) == Connected)
                && (r != Ok ==> r == InvalidState)
                && rpcSent == if r == Ok then old(rpcSent) + [EventFrames(kind, EncodeWith(old(codec), body).value)] else old(rpcSent)
      ensures state == old(state) && seqNo == old(seqNo) && exports == old(exports) && events == old(events)
      ensures eventSeqs == old(eventSeqs) && inboundRequests == old(inboundRequests)
      ensures inboundStreams == old(inboundStreams) && outboundRequests == old(outboundRequests)
      ensures codec == old(codec) && sockOps == old(sockOps)
      ensures notes == old(notes) && callbacks == old(callbacks) && forwarded == old(forwarded)
    {
      var encoded := EncodeWith(codec, body);
      if encoded.None? {
        return EncodeThrew;
      }
      r := Send(EventFrames(kind, encoded.value));
    }

    /** The PROGRESS handler: emits `'progress'` on the outbound request with
        that id; an unknown id is ignored. */
    method HandleProgress(reqId: int)
      modifies this
      ensures reqId in old(outboundRequests) ==> notes == old(notes) + [ProgressNote(old(outboundRequests)[reqId])]
      ensures reqId !in old(outboundRequests) ==> notes == old(notes)
      ensures state == old(state) && seqNo == old(seqNo) && exports == old(exports) && events == old(events)
      ensures eventSeqs == old(eventSeqs) && inboundRequests == old(inboundRequests)
      ensures inboundStreams == old(inboundStreams) && outboundRequests == old(outboundRequests)
      ensures codec == old(codec) && rpcSent == old(rpcSent) && sockOps == old(sockOps)
      ensures callbacks == old(callbacks) && forwarded == old(forwarded)
    {
      if reqId in outboundRequests {
        notes := notes + [ProgressNote(outboundRequests[reqId])];
      }
    }

    /** The STREAM_FRAME handler: emits `'frame'` with the sequence number and
        body on the stream filed under the tag; an unknown tag is ignored. */
    method HandleStreamFrame(tag: int, frameSeq: int, body: Frame)
      modifies this
      ensures tag in old(inboundStreams) ==> notes == old(notes) + [FrameNote(old(inboundStreams)[tag], frameSeq, body)]
      ensures tag !in old(inboundStreams) ==> notes == old(notes)
      ensures state == old(state) && seqNo == old(seqNo) && exports == old(exports) && events == old(events)
      ensures eventSeqs == old(eventSeqs) && inboundRequests == old(inboundRequests)
      ensures inboundStreams == old(inboundStreams) && outboundRequests == old(outboundRequests)
      ensures codec == old(codec) && rpcSent == old(rpcSent) && sockOps == old(sockOps)
      ensures callbacks == old(callbacks) && forwarded == old(forwarded)
    {
      if tag in inboundStreams {
        notes := notes + [FrameNote(inboundStreams[tag], frameSeq, body)];
      }
    }

    /** The REPLY handler: for a known id, frees the stream entries filed under
        the streams' `_id`s (when set), frees the request and emits `'reply'`
        on it; an unknown id changes nothing. Since no code of this file sets a
        stream's `_id`, the tags minted by `_sendRequest` stay filed. */
    method HandleReply(reqId: int, code: int, value: Value)
      modifies this
      ensures reqId !in old(outboundRequests) ==> unchanged(this)
      ensures reqId in old(outboundRequests) ==>
                var req := old(outboundRequests)[reqId];
                && inboundStreams == old(inboundStreams) - Freed(req)
                && outboundRequests == old(outboundRequests) - {reqId}
                && notes == old(notes) + [ReplyNote(req, code, value)]
      ensures (reqId in old(outboundRequests) && old(outboundRequests)[reqId].stdout.id.None?
               && old(outboundRequests)[reqId].stderr.id.None?) ==> inboundStreams == old(inboundStreams)
      ensures state == old(state) && seqNo == old(seqNo) && exports == old(exports) && events == old(events)
      ensures eventSeqs == old(eventSeqs) && inboundRequests == old(inboundRequests)
      ensures codec == old(codec) && rpcSent == old(rpcSent) && sockOps == old(sockOps)
      ensures callbacks == old(callbacks) && forwarded == old(forwarded)
    {
      if reqId !in outboundRequests {
        return;
      }
      var req := outboundRequests[reqId];
      if req.stdout.id.Some? {
        inboundStreams := inboundStreams - {req.stdout.id.value};
      }
      if req.stderr.id.Some? {
        inboundStreams := inboundStreams - {req.stderr.id.value};
      }
      outboundRequests := outboundRequests - {reqId};
      notes := notes + [ReplyNote(req, code, value)];
    }

    /** `handleOhai` of lib/socket.js as written: on an unknown encoding it
        closes the socket and reports the error, but does not return, so it
        then also switches to Connected and reports success. */
    method HandleOhaiAsWritten(opts: Options, codecs: Codecs)
      modifies this
      ensures NegotiatedEncoding(opts) in codecs ==>
                codec == Some(codecs[NegotiatedEncoding(opts)]) && sockOps == old(sockOps)
                && callbacks == old(callbacks) + [None]
      ensures NegotiatedEncoding(opts) !in codecs ==>
                codec == old(codec) && sockOps == old(sockOps) + [CloseSocket]
                && callbacks == old(callbacks) + [Some("unknown encoding"), None]
      ensures state == Connected
      ensures seqNo == old(seqNo) && exports == old(exports) && events == old(events)
      ensures eventSeqs == old(eventSeqs) && inboundRequests == old(inboundRequests)
      ensures inboundStreams == old(inboundStreams) && outboundRequests == old(outboundRequests)
      ensures rpcSent == old(rpcSent) && notes == old(notes) && forwarded == old(forwarded)
    {
      var encoding := NegotiatedEncoding(opts);
      if encoding in codecs {
        codec := Some(codecs[encoding]);
      } else {
        sockOps := sockOps + [CloseSocket];
        callbacks := callbacks + [Some("unknown encoding")];
      }
      state := Connected;
      callbacks := callbacks + [None];
    }

    /** `handleOhai` with the evidently intended `return` after the error
        callback: the callback runs exactly once, and the session becomes
        Connected exactly when the negotiated codec exists. `this.sock` is
        read as the session, and its `close()` as a close of the RPC socket
        that returns. */
    method HandleOhai(opts: Options, codecs: Codecs)
      modifies this
      ensures |callbacks| == |old(callbacks)| + 1
      ensures state == Connected <==> NegotiatedEncoding(opts) in codecs || old(state) == Connected
      ensures NegotiatedEncoding(opts) in codecs ==>
                state == Connected && codec == Some(codecs[NegotiatedEncoding(opts)])
                && sockOps == old(sockOps) && callbacks == old(callbacks) + [None]
      ensures NegotiatedEncoding(opts) !in codecs ==>
                state == old(state) && codec == old(codec) && sockOps == old(sockOps) + [CloseSocket]
                && callbacks == old(callbacks) + [Some("unknown encoding")]
      ensures seqNo == old(seqNo) && exports == old(exports) && events == old(events)
      ensures eventSeqs == old(eventSeqs) && inboundRequests == old(inboundRequests)
      ensures inboundStreams == old(inboundStreams) && outboundRequests == old(outboundRequests)
      ensures rpcSent == old(rpcSent) && notes == old(notes) && forwarded == old(forwarded)
    {
      var encoding := NegotiatedEncoding(opts);
      if encoding !in codecs {
        sockOps := sockOps + [CloseSocket];
        callbacks := callbacks + [Some("unknown encoding")];
        return;
      }
      codec := Some(codecs[encoding]);
      state := Connected;
      callbacks := callbacks + [None];
    }

    /** `rpcSock.on('message')`: the message is validated with the session's
        current codec; a message the validator rejects changes nothing. An
        OHAI goes to `handleOhai` (with its `return` after the error
        callback), a malformed OHAI is reported to the connect callback,
        PROGRESS, STREAM_FRAME and REPLY go to the table handlers, PING is
        answered with PONG, REQUEST and INTERRUPT are handed to the
        inbound-request service and SUBSCRIBE_ACK to the event service. */
    method HandleRpcMessage(msg: Frames, codecs: Codecs)
      requires Valid()
      modifies this
      ensures Valid()
      ensures ParseRpc(msg, old(codec)).None? ==> unchanged(this)
      ensures var m := ParseRpc(msg, old(codec));
              m.Some? && m.value.OhaiMsg? ==>
                var enc := NegotiatedEncoding(m.value.opts);
                && (enc in codecs ==> && state == Connected && codec == Some(codecs[enc])
                                      && sockOps == old(sockOps) && callbacks == old(callbacks) + [None])
                && (enc !in codecs ==> && state == old(state) && codec == old(codec)
                                       && sockOps == old(sockOps) + [CloseSocket]
                                       && callbacks == old(callbacks) + [Some("unknown encoding")])
      ensures var m := ParseRpc(msg, old(codec));
              m.Some? && m.value.OhaiMalformed? ==> callbacks == old(callbacks) + [Some("invalid OHAI message received")]
      ensures var m := ParseRpc(msg, old(codec));
              m.Some? && (m.value.RequestMsg? || m.value.InterruptMsg?) ==> forwarded == old(forwarded) + [ToRequests(m.value)]
      ensures var m := ParseRpc(msg, old(codec));
              m.Some? && m.value.SubscribeAckMsg? ==> forwarded == old(forwarded) + [AckToEvents(m.value)]
      ensures var m := ParseRpc(msg, old(codec));
              m.Some? && m.value.ProgressMsg? ==>
                notes == old(notes) + (if m.value.reqId in old(outboundRequests)
                                       then [ProgressNote(old(outboundRequests)[m.value.reqId])] else [])
      ensures var m := ParseRpc(msg, old(codec));
              m.Some? && m.value.StreamFrameMsg? ==>
                notes == old(notes) + (if m.value.tag in old(inboundStreams)
                                       then [FrameNote(old(inboundStreams)[m.value.tag], m.value.seqNo, m.value.body)] else [])
      ensures var m := ParseRpc(msg, old(codec));
              m.Some? && m.value.ReplyMsg? && m.value.reqId in old(outboundRequests) ==>
                var req := old(outboundRequests)[m.value.reqId];
                && outboundRequests == old(outboundRequests) - {m.value.reqId}
                && inboundStreams == old(inboundStreams) - Freed(req)
                && notes == old(notes) + [ReplyNote(req, m.value.code, m.value.value)]
      ensures var m := ParseRpc(msg, old(codec));
              m.Some? && m.value.PingMsg? ==> rpcSent == old(rpcSent) + [ControlFrames(Pong)]
      // What each type leaves alone.
      ensures var m := ParseRpc(msg, old(codec));
              m.Some? && !m.value.OhaiMsg? ==> state == old(state) && codec == old(codec) && sockOps == old(sockOps)
      ensures var m := ParseRpc(msg, old(codec));
              m.Some? && !m.value.OhaiMsg? && !m.value.OhaiMalformed? ==> callbacks == old(callbacks)
      ensures var m := ParseRpc(msg, old(codec));
              m.Some? && !m.value.RequestMsg? && !m.value.InterruptMsg? && !m.value.SubscribeAckMsg? ==> forwarded == old(forwarded)
      ensures var m := ParseRpc(msg, old(codec));
              m.Some? && !m.value.ProgressMsg? && !m.value.StreamFrameMsg? && !(m.value.ReplyMsg? && m.value.reqId in old(outboundRequests)) ==>
                notes == old(notes)
      ensures var m := ParseRpc(msg, old(codec));
              m.Some? && !(m.value.ReplyMsg? && m.value.reqId in old(outboundRequests)) ==>
                outboundRequests == old(outboundRequests) && inboundStreams == old(inboundStreams)
      ensures var m := ParseRpc(msg, old(codec));
              m.Some? && !m.value.PingMsg? ==> rpcSent == old(rpcSent)
      ensures seqNo == old(seqNo) && exports == old(exports) && events == old(events)
      ensures eventSeqs == old(eventSeqs) && inboundRequests == old(inboundRequests)
    {
      var m := ParseRpc(msg, codec);
      if m.None? {
        return;
      }
      match m.value
      case OhaiMsg(opts) =>
        HandleOhai(opts, codecs);
      case OhaiMalformed =>
        callbacks := callbacks + [Some("invalid OHAI message received")];
      case RequestMsg(_, _, _, _, _) =>
        forwarded := forwarded + [ToRequests(m.value)];
      case InterruptMsg(_, _) =>
        forwarded := forwarded + [ToRequests(m.value)];
      case ProgressMsg(reqId) =>
        HandleProgress(reqId);
      case StreamFrameMsg(tag, s, body) =>
        HandleStreamFrame(tag, s, body);
      case ReplyMsg(reqId, code, value) =>
        HandleReply(reqId, code, value);
      case SubscribeAckMsg(_, _) =>
        forwarded := forwarded + [AckToEvents(m.value)];
      case PingMsg =>
        SendUnguarded(Pong);
    }

    /** `evtSock.on('message')`: the message is validated with the session's
        codec; a rejected message changes nothing, an accepted one is handed
        to the event service. */
    method HandleEventMessage(msg: Frames)
      modifies this
      ensures ParseEvent(msg, old(codec)).None? ==> unchanged(this)
      ensures ParseEvent(msg, old(codec)).Some? ==> forwarded == old(forwarded) + [ToEvents(ParseEvent(msg, old(codec)).value)]
      ensures state == old(state) && seqNo == old(seqNo) && exports == old(exports) && events == old(events)
      ensures eventSeqs == old(eventSeqs) && inboundRequests == old(inboundRequests)
      ensures inboundStreams == old(inboundStreams) && outboundRequests == old(outboundRequests)
      ensures codec == old(codec) && rpcSent == old(rpcSent) && sockOps == old(sockOps)
      ensures notes == old(notes) && callbacks == old(callbacks)
    {
      var e := ParseEvent(msg, codec);
      if e.Some? {
        forwarded := forwarded + [ToEvents(e.value)];
      }
    }
  }
}
