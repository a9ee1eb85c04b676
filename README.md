# node-cider-zmq, modelled in Dafny

node-cider-zmq is a Node.js client for the Cider broker. It speaks a small
multi-part-message protocol over ZeroMQ, with three parts:

- RPC: export a method, call a remote method, stream output frames back, reply.
- Pub/sub events with 16-bit sequence numbers.
- A HELLO/OHAI handshake that negotiates the payload encoding.

The repository holds one canonical client (`lib/index.js`) and several drafts
of the same protocol. The drafts use other layouts, and some of them cannot
run as written. The drafts are:

- `lib/old/socket.js`, `lib/old/call.js`, `lib/old/rpc.js`, `lib/old/constants.js`;
- `lib/services/rpc.js`, `lib/services/pubsub.js`;
- `lib/session.js`, `lib/socket.js`, `lib/export.js`, `lib/events_in.js`, `lib/pubsub.js`.

This project is a model of the protocol logic of all of these files: frame
validators and builders, the session tables and counters, the state machines,
and the subscription registries with gap detection.

How the model is built:

- **Frames.** A frame is a `seq<byte>` and a message is a `seq<Frame>`.
  A JavaScript comparison `buf.toString() === LIT` becomes byte equality with
  the ASCII bytes of `LIT`. `readUInt16BE` and `readUInt8` return `None` where
  Node throws.
- **Validators.** Every validator is a total function from a frame list to an
  `Option` of a message datatype. A rejected message changes no state; each
  handler method says so with `unchanged(this)`.
- **Objects as classes.** Objects whose fields the source updates (sessions,
  requests, streams, calls, services) are classes. Their methods state the
  whole new state.
- **Sockets as logs.** A send is appended to an outbox field (`rpcSent`,
  `dealerSent`, `calls`). Socket options and closes go to an operation log.
  The connect callback's calls go to `callbacks`. Handler invocations by an
  emitter are recorded as `Delivery` values.
- **Listener tables.** An `EventEmitter` table is a `map<K, seq<HandlerId>>`,
  as Node implements it:
  - `on` appends;
  - `removeListener` removes the most recent occurrence;
  - a key disappears with its last handler.
- **The payload codec.** The codec module is foreign. A `Codec` is an
  encoder/decoder pair, and the codecs that exist are a `Codecs` map from
  encoding name to codec. Each session, socket and service keeps the codec
  that OHAI installed as an `Option<Codec>` field. Both directions may fail:
  encoding yields `None` where the codec throws (a value it cannot encode),
  and decoding yields `None` where it rejects a frame. Using the field while
  it is empty throws as well, as `undefined.encode(...)` does. A send reports
  either throw (`Wire.EncodeWith` is `None`), and a validator whose `try`
  catches it drops the message (`Wire.DecodeWith` is `None`).
- **Counters.** Every 16-bit counter is written out explicitly as
  `(n + 1) % 65536`.
- **Shared definitions.** Each concept is defined once and reused:
  - `Counters.Successor`;
  - `Handshake.NegotiatedEncoding`, the `'json'` default;
  - `Wire.PairsFrom`, the dictionary the option loop
    `opts[msg[i]] = msg[i+1]` builds;
  - `SessionFrames.ParseRpc`/`ParseEvent`. The two validators of
    `lib/old/socket.js` are the same code as those of `lib/index.js`, so the
    same functions model both.
- **Drafts as written.** Drafts are modelled as they are written, with the
  exceptions named member by member under "## Left out". Some reads of an
  undeclared name are replaced by the value the other files give that name:
  `zmq`, `EventEmitter`, `STATE_CONNECTED`, `maxUInt16` and the CDR01
  constants of lib/old/constants.js; the undeclared `sock` of lib/export.js
  is read as the service's socket. Some handlers are treated as bound to
  their object. Where the model keeps a throwing read, the member reports it
  as a `Thrown` status. Where a draft is evidently wrong and the model proves
  it, the two versions are listed under "## Findings".

Modules and files:

| module | file | models |
|---|---|---|
| `Wire` | wire.dfy | bytes, 16-bit fields, the option loop, the `requester#id` key |
| `Constants` | constants.dfy | lib/old/constants.js |
| `Counters` | counters.dfy | the wrapping 16-bit counters |
| `Handshake` | handshake.dfy | the OHAI encoding choice |
| `Listeners` | listeners.dfy | EventEmitter tables |
| `SeqTracker` | seq_tracker.dfy | sequence-number gap detection |
| `SessionFrames` | session_frames.dfy | validators and frame layouts of lib/index.js |
| `ClientSession` | session.dfy | lib/index.js and lib/socket.js |
| `Exports` | export_service.dfy | lib/export.js |
| `Subscriptions` | subscriptions.dfy | lib/events_in.js and lib/pubsub.js |
| `BrokerPubsub` | broker_pubsub.dfy | lib/services/pubsub.js |
| `RpcDrafts` | rpc_drafts.dfy | parts shared by lib/old/rpc.js and lib/services/rpc.js |
| `BrokerRpc` | broker_rpc.dfy | lib/services/rpc.js |
| `LegacyRpc` | legacy_rpc.dfy | lib/old/rpc.js |
| `LegacySocket` | legacy_socket.dfy | lib/old/socket.js |
| `Calls` | calls.dfy | lib/old/call.js |
| `DraftSession` | draft_session.dfy | lib/session.js |

## Model

| member | source | states |
|---|---|---|
| Wire.Ascii | lib/old/constants.js:24 | `new Buffer(s)` for an ASCII literal has the string's length and one byte per character |
| Wire.ReadUInt16BE | lib/index.js:147 | a 16-bit read succeeds exactly when the frame has at least two bytes, and its value is in [0, 65535] |
| Wire.ReadUInt8 | lib/index.js:206 | a return-code read succeeds exactly on a non-empty frame and yields its first byte |
| Wire.WriteUInt16BE | lib/index.js:408 | a written 16-bit field is two bytes long |
| Wire.WriteUInt8 | lib/index.js:493 | a written return code is one byte holding the code |
| Wire.UInt16RoundTrip | lib/index.js:404-505 | every 16-bit id, tag or sequence number the client writes is read back unchanged |
| Wire.UInt16Injective | lib/index.js:147 | two two-byte frames that read as the same value are equal |
| Wire.CollectOptions | lib/index.js:131-134 | the `while` loop over option pairs builds exactly the dictionary `PairsFrom` describes |
| Wire.OptionsFromKeys | lib/index.js:131-134 | a key is in the option dictionary iff it sits at a key position the loop visits |
| Wire.OptionsFromLastWins | lib/index.js:131-134 | for a repeated option name, the last occurrence wins |
| Wire.OptionsFromUntouched | lib/index.js:131-134 | a name at no later key position keeps the value it already had |
| Wire.LookupPairs | lib/index.js:131-134 | looking up a name gives the frame after its last key position, or undefined past the end |
| Wire.LookupAbsent | lib/index.js:131-134 | a name at no key position is undefined in the dictionary |
| Wire.Decimal | lib/export.js:62 | the decimal form of an id is non-empty and contains no `#` |
| Wire.DecimalInjective | lib/export.js:62 | distinct ids print differently |
| Wire.RequestKey | lib/export.js:62 | the key `requester + '#' + reqId` has the combined length |
| Wire.LastHash | lib/export.js:62 | the last `#` of a key is the one after the requester |
| Wire.KeyInjective | lib/export.js:62 | two inbound requests share a table key only if they have the same requester and the same id |
| Constants.Code | lib/old/constants.js:5-21 | every message-type code is below 0x10 |
| Constants.TypeOf | lib/old/constants.js:5-21 | a byte names a type iff it is below 0x10, and that type's code is the byte |
| Constants.CodeRoundTrip | lib/old/constants.js:5-21 | reading a type's code back recovers the type |
| Constants.CodesDistinct | lib/old/constants.js:5-21 | the sixteen codes are pairwise distinct |
| Constants.CodesCover | lib/old/constants.js:5-21 | every byte 0x00..0x0F is the code of some type |
| Constants.TypeFrame | lib/old/constants.js:25-40 | each `FRAME_MSGTYPE_X` is one byte that reads back as type X |
| Constants.HeaderFrame | lib/old/constants.js:5 | `FRAME_HEADER` is the bytes of `'CDR01'` |
| Counters.Successor | lib/index.js:551-556 | a counter step stays in [0, 65535] and wraps 65535 to 0 |
| Counters.Advance | lib/index.js:551-556 | any number of steps stays in [0, 65535] |
| Counters.AdvanceIsModular | lib/index.js:551-556 | n steps move the counter by n modulo 65536 |
| Counters.AdvanceDistinct | lib/index.js:404-445 | fewer than 65536 consecutive steps never repeat a value, so the ids and tags minted in one burst differ |
| Counters.AdvanceFullCycle | lib/index.js:551-556 | 65536 steps return the counter to its start |
| Handshake.DefaultEncoding | lib/socket.js:38-41 | an OHAI with no `Encoding` option selects `'json'` |
| Handshake.ChosenEncoding | lib/socket.js:38-41 | an OHAI whose last `Encoding` option is followed by a frame selects that frame |
| Listeners.On | lib/events_in.js:43-49 | `on` appends the handler under its key and changes no other key |
| Listeners.RemoveListener | lib/events_in.js:55-65 | `removeListener` removes the last occurrence under its key only, and an emptied key is deleted |
| Listeners.RemoveAll | lib/events_in.js:55-65 | `removeAllListeners` leaves the key with no handlers and other keys untouched |
| Listeners.RemoveLastMultiset | lib/events_in.js:55-65 | removing a handler takes exactly one copy of it out and keeps every other handler |
| Listeners.RemoveLastUndoesAppend | lib/services/pubsub.js:121-127 | removing a handler just added restores the list |
| Listeners.OnThenRemove | lib/services/pubsub.js:119-130 | registering and then removing a handler leaves the table exactly as it was |
| Listeners.Fanout | lib/events_in.js:110 | `emit` calls every handler of the list, in order, with the same arguments |
| SeqTracker.Run | lib/events_in.js:95-111 | a run of events yields one gap flag per event |
| SeqTracker.RecordedIsLast | lib/events_in.js:99 | after a run, the number the tracker holds is the last one received, gap or not |
| SeqTracker.RunStep | lib/events_in.js:95-111 | one more event is checked against the number the run recorded, and is then the recorded number, as `HandleEvent` does on each call |
| SeqTracker.RunSplit | lib/events_in.js:95-111 | a run split anywhere is the first part's flags followed by the second part's, checked from the number the first part recorded |
| SeqTracker.RunAt | lib/events_in.js:95-111 | each event of a run is checked against the number received just before it |
| SeqTracker.InOrderRunHasNoGaps | lib/events_in.js:101-107 | consecutively numbered events from any start, wrap included, are never flagged |
| SeqTracker.SingleLossReportedOnce | lib/events_in.js:99-107 | one lost event is reported once, with `prevSeq` and `seq`, and the events after it are not flagged |
| SeqTracker.WrapIsInOrder | lib/events_in.js:101 | 0 after 65535 is in order, and a repeated number is a gap |
| SessionFrames.ParseRpc | lib/index.js:117-231 | an accepted RPC message has at least three frames, the header at frame 1, a one-byte handled type and its type's frame count; each type is accepted exactly when its fields read (a two-byte id, tag or sequence number, a non-empty code frame) and carries those fields; a REQUEST or REPLY is accepted only when the installed codec decodes its payload; lines 346-461 of lib/old/socket.js are the same validator, taken with no codec because the `session` they decode with is undeclared |
| SessionFrames.UnhandledTypeDropped | lib/index.js:124-230 | a type with no `case` is dropped |
| SessionFrames.TruncatedIdDropped | lib/index.js:146-151 | a REQUEST, INTERRUPT, PROGRESS or REPLY whose id frame is shorter than two bytes is dropped |
| SessionFrames.ParseEvent | lib/index.js:236-255 | an event is accepted iff it has six frames, the header at frame 2, the EVENT byte at frame 3, a 16-bit sequence number and a body that is empty or that the installed codec decodes; an empty body is `{}`, any other is the codec's value; lines 475-495 of lib/old/socket.js are the same validator, taken with no codec |
| SessionFrames.NoCodecDropsPayloads | lib/index.js:146-255 | with no codec installed, no REQUEST or REPLY is accepted and only an event with an empty body is |
| SessionFrames.TagNamesDistinct | lib/index.js:425-440 | the `Stdout-Tag` and `Stderr-Tag` option names differ |
| SessionFrames.ControlFrames | lib/index.js:379-393 | HELLO, KTHXBYE and PONG are three frames: the empty routing frame, the header and the one type byte |
| SessionFrames.ExportFrames | lib/index.js:395-402 | EXPORT is four frames, with the REGISTER type byte and the method name last |
| SessionFrames.TagOptions | lib/index.js:424-441 | the tag options are two frames per wired stream |
| SessionFrames.RequestFrames | lib/index.js:404-445 | a REQUEST is six frames plus its tag options |
| SessionFrames.InterruptFrames | lib/index.js:447-457 | an INTERRUPT is four frames |
| SessionFrames.ProgressFrames | lib/index.js:459-469 | a PROGRESS is four frames |
| SessionFrames.StreamFrameFrames | lib/index.js:471-486 | a STREAM_FRAME is six frames |
| SessionFrames.ReplyFrames | lib/index.js:488-505 | a REPLY is six frames |
| SessionFrames.SubscribeFrames | lib/index.js:507-513 | a SUBSCRIBE is three frames, routed by the event kind, under the header, with the SUBSCRIBE type byte |
| SessionFrames.UnsubscribeFrames | lib/index.js:515-521 | an UNSUBSCRIBE is three frames, routed by the event kind, under the header, with the UNSUBSCRIBE type byte |
| SessionFrames.EventFrames | lib/index.js:523-530 | an EVENT is four frames, routed by the event kind, with the EVENT type byte and the encoded body last |
| SessionFrames.ProgressRoundTrip | lib/index.js:171-180 | a PROGRESS as written is accepted with the same id |
| SessionFrames.InterruptRoundTrip | lib/index.js:159-168 | an INTERRUPT as written is accepted with the same id |
| SessionFrames.StreamFrameRoundTrip | lib/index.js:183-197 | a STREAM_FRAME as written is accepted with the same tag, sequence number and body |
| SessionFrames.ReplyRoundTrip | lib/index.js:199-213 | a REPLY as written is accepted with the same id, code and value, given a codec that encodes the value and decodes the result back |
| SessionFrames.RequestRoundTrip | lib/index.js:138-157 | a REQUEST as written is accepted with the same id, method and arguments, and carries exactly the stream tags it was written with |
| ClientSession.MissingArgument | lib/index.js:48-61 | `connect` reports the first unset argument, in the order identity, `rpcEndpoint`, then the third endpoint (`evtEndpoint` here, `pubEndpoint` in lines 61-74 of lib/old/socket.js), and reports none iff all three are set |
| ClientSession.ConnectSettingsResolved | lib/index.js:39-61 | with each argument resolved as its option or, when that is empty or unset, its environment variable, `connect` goes ahead iff every one of identity, `rpcEndpoint` and `evtEndpoint` is supplied by a non-empty option or a defined variable, and otherwise reports the first one supplied by neither |
| ClientSession.FiledTags | lib/index.js:425-441 | filing a request's streams under its minted tags maps each tag to its own stream, adds exactly the minted tags and keeps every other entry |
| ClientSession.StdoutTag | lib/index.js:425-433 | the Stdout-Tag is a 16-bit value |
| ClientSession.StderrTag | lib/index.js:434-441 | the Stderr-Tag is a 16-bit value |
| ClientSession.SeqAfterRequest | lib/index.js:404-445 | the counter after a request is a 16-bit value |
| ClientSession.TagsDistinct | lib/index.js:404-445 | a request's id and its tags are pairwise distinct |
| ClientSession.OutputStream.constructor | lib/index.js:316-319 | a new stream has no `'frame'` listener and no `_id` |
| ClientSession.OutputStream.OnFrame | lib/index.js:411-413 | `on('frame')` adds one listener, which `_sendRequest` then counts |
| ClientSession.OutboundRequest.constructor | lib/index.js:316-319 | a new request carries the minted id and two distinct fresh streams |
| ClientSession.Session.constructor | lib/index.js:284-298 | a new session is Initialised, with the counter at 0 and empty tables |
| ClientSession.Session.NextSeq | lib/index.js:551-556 | `_nextSeq` increments and then wraps at 65536, so a fresh session's first value is 1; nothing else changes |
| ClientSession.Session.Send | lib/index.js:540-545 | `_send` writes iff the state is Connected and throws otherwise |
| ClientSession.Session.SendUnguarded | lib/index.js:379-385 | HELLO and PONG are written without the state check |
| ClientSession.Session.Close | lib/index.js:357-373 | `close` throws unless Connected; otherwise it sends KTHXBYE and the state is Closed, so a second `close` throws |
| ClientSession.Session.Export | lib/index.js:304-310 | a second export of a method throws and leaves the first handler the only one; otherwise the handler is registered and EXPORT is sent when Connected |
| ClientSession.Session.Request | lib/index.js:316-319 | `request` mints a counter value as the request's id and does not send |
| ClientSession.Session.SendRequest | lib/index.js:404-445 | `_sendRequest` overwrites the id with a fresh counter value; with no codec installed, or a codec that cannot encode the arguments, encoding then throws before any tag is minted; otherwise it files a fresh tag for each stream with listeners, sends six frames plus the tags, Stdout-Tag first, with the arguments encoded by the installed codec, and files the request under its new id when Connected |
| ClientSession.Session.FileStream | lib/index.js:425-440 | a minted tag is the next counter value and the stream is filed under it |
| ClientSession.Session.RequestMessage | lib/index.js:410-443 | the message array filled with a running index equals the REQUEST layout and has 6 + 2k frames |
| ClientSession.Session.SendReply | lib/index.js:488-505 | with no codec installed, or a codec that cannot encode the value, `_sendReply` throws, nothing is sent and the inbound request is kept; otherwise a REPLY with the encoded value is sent when Connected, and the inbound request is then forgotten |
| ClientSession.Session.Subscribe | lib/index.js:333-340 | `subscribe` registers the handler, subscribes the event socket and sends SUBSCRIBE when Connected |
| ClientSession.Session.Unsubscribe | lib/index.js:346-351 | `unsubscribe` drops every handler of the kind and, once UNSUBSCRIBE is sent, forgets the kind's sequence number |
| ClientSession.Session.Publish | lib/index.js:325-327 | with no codec installed, or a codec that cannot encode the body, `publish` throws and nothing is sent; otherwise it sends the EVENT with the body encoded by the installed codec when Connected |
| ClientSession.Session.HandleProgress | lib/index.js:73-77 | PROGRESS for a known id notifies that request; for an unknown id it changes nothing |
| ClientSession.Session.HandleStreamFrame | lib/index.js:79-83 | STREAM_FRAME for a known tag notifies that stream; for an unknown tag it changes nothing |
| ClientSession.Session.HandleReply | lib/index.js:85-99 | REPLY for a known id removes the request and the stream entries whose `_id` is set; an unknown id changes nothing; with no `_id` set, the tags stay filed |
| ClientSession.Session.HandleRpcMessage | lib/index.js:117-231 | a rejected message changes nothing; OHAI goes to the corrected `HandleOhai` and installs the codec of a known encoding or closes the socket; a malformed OHAI reports an error; REQUEST and INTERRUPT are forwarded to the inbound requests and SUBSCRIBE_ACK to the events; PROGRESS and STREAM_FRAME notify a known request or stream; a REPLY for a known id frees it; PING answers PONG; each type leaves everything else alone |
| ClientSession.Session.HandleEventMessage | lib/index.js:236-255 | a rejected event changes nothing; an accepted one, its body decoded by the installed codec, is handed on |
| ClientSession.Session.HandleOhaiAsWritten | lib/socket.js:37-52 | as written: a known encoding installs the codec the map holds for it, moves to Connected and calls `next(null)`; an unknown one closes the socket, calls `next(err)` and then still moves to Connected and calls `next(null)` |
| ClientSession.Session.HandleOhai | lib/socket.js:37-52 | corrected, with the missing `return`: the callback runs exactly once, and the state becomes Connected and the codec is installed iff one exists for the encoding |
| Exports.Stream.constructor | lib/export.js:196-205 | a new stream's counter is 0 |
| Exports.Stream.Write | lib/export.js:211-223 | `write` steps the counter modulo 65536 and sends one STREAM_FRAME to the fixed receiver and tag, numbered with the new value |
| Exports.Request.constructor | lib/export.js:119-130 | a new request is Running |
| Exports.Request.SignalProgress | lib/export.js:158-161 | PROGRESS is sent only while Running |
| Exports.Request.Resolve | lib/export.js:167-171 | `resolve` on a Resolved request does nothing; otherwise it sends exactly one REPLY, the table entry is deleted and the state is Resolved |
| Exports.Request.HandleInterrupt | lib/export.js:177-180 | an interrupt sets Interrupted and emits `'interrupt'` |
| Exports.CreateRequest | lib/export.js:119-152 | corrected, returning `req` and opening streams on the service's socket in place of the undeclared `sock`: a new Running request whose streams are the discard stream for an absent tag option and a fresh stream under the named tag otherwise; a tag shorter than two bytes yields nothing |
| Exports.CreateRequestAsWritten | lib/export.js:119-152 | as written: no call returns a request |
| Exports.ExportService.constructor | lib/export.js:33-39 | a new service has no exports and no requests |
| Exports.ExportService.Export | lib/export.js:45-51 | after `export(m, h)` the method maps to `h`, a later export overwrites it, and EXPORT is sent |
| Exports.ExportService.HandleRequest | lib/export.js:57-73 | with the corrected `CreateRequest`: a request for a method that is not exported leaves no `requester#reqId` entry and calls nothing; otherwise the entry is filed and the handler is called once with it, and the entry is a request iff every tag option is readable, a fresh Running request with the given requester, id, method and arguments whose streams are the discard stream or a stream under the tag each option names |
| Exports.ExportService.HandleInterrupt | lib/export.js:83-87 | an interrupt for an unknown key is a no-op; otherwise `'interrupt'` is emitted on the request |
| Exports.ExportService.ResolveRequest | lib/export.js:93-96 | the REPLY is sent and the table entry is deleted |
| Subscriptions.AckDeliveries | lib/events_in.js:73-89 | an acknowledgement reports nothing without a previous number or for its successor, and otherwise reports the gap to every handler |
| Subscriptions.SubscriptionService.constructor | lib/events_in.js:31-37 | a new registry is empty |
| Subscriptions.SubscriptionService.Subscribe | lib/events_in.js:43-49 | `subscribe` registers the handler and then subscribes the socket; lines 69-75 of lib/pubsub.js are the same code |
| Subscriptions.SubscriptionService.Unsubscribe | lib/events_in.js:55-65 | without a handler, all handlers go; with one, only that one; once none remain, the socket unsubscribes and the sequence number is deleted; lines 81-91 of lib/pubsub.js are the same code |
| Subscriptions.SubscriptionService.HandleSubscribeAck | lib/events_in.js:73-89 | the number is recorded as received, and a gap is reported only when a previous number exists and differs from its successor; lines 97-115 of lib/pubsub.js are the same code |
| Subscriptions.SubscriptionService.HandleEvent | lib/events_in.js:95-111 | the number is recorded as received, and every handler gets `(err, seq, body)`, where `err` is null for the first event and for the successor; lines 121-137 of lib/pubsub.js are the same code |
| BrokerPubsub.PubsubCode | lib/services/pubsub.js:40-44 | the codes HELLO..EVENT are 1..4 |
| BrokerPubsub.PubsubCodesDistinct | lib/services/pubsub.js:40-44 | the four codes are distinct |
| BrokerPubsub.ParseDealerFrom | lib/services/pubsub.js:201-252 | a DEALER message is rejected unless it has at least two frames, the header at frame 0 and a one-byte type; an OHAI is accepted iff its frame count is even; a SYNC iff it has four frames and a 16-bit number; other types are dropped |
| BrokerPubsub.SubEndpointMissedAsWritten | lib/services/pubsub.js:226-231 | as written, an OHAI announcing its SUB endpoint yields no `Sub-Endpoint` option |
| BrokerPubsub.SubEndpointFound | lib/services/pubsub.js:226-231 | with the loop at frame 2, the same OHAI yields the endpoint |
| BrokerPubsub.OhaiOptionsRead | lib/services/pubsub.js:219-231 | with the loop at frame 2, each option name is read with the frame after it, and an unnamed option is absent |
| BrokerPubsub.ParsePubMessage | lib/services/pubsub.js:269-296 | an event is accepted iff it has four frames, the header at frame 1, a two-byte sequence number and a payload the installed codec decodes, so every event before OHAI is dropped |
| BrokerPubsub.Settle | lib/services/pubsub.js:305-346 | a promise settles once, and later settlements are ignored |
| BrokerPubsub.PubsubService.constructor | lib/services/pubsub.js:57-100 | after setup the promise is pending and HELLO has been sent |
| BrokerPubsub.PubsubService.Subscribe | lib/services/pubsub.js:119-133 | if the subscription option fails, the handler is removed again and the table is unchanged; otherwise the handler is added and SYNC is sent |
| BrokerPubsub.PubsubService.Unsubscribe | lib/services/pubsub.js:143-153 | without a handler, all go; with one, only that one; the cancel runs when handlers remain, which is the inverted guard as written; a cancel that throws propagates and keeps the sequence number, and the handlers stay removed |
| BrokerPubsub.PubsubService.HandleEvent | lib/services/pubsub.js:368-384 | the number is always recorded, and the error is set iff a previous number exists and the new one is not its successor |
| BrokerPubsub.PubsubService.SettlePromise | lib/services/pubsub.js:343-345 | settling a cleared promise throws |
| BrokerPubsub.PubsubService.HandleOhai | lib/services/pubsub.js:305-346 | corrected, with the SUB handlers bound to `_handlePubMessage` and `_handlePubError`: with no `Sub-Endpoint` the promise is rejected; if the SUB socket cannot be created the DEALER is closed and the promise rejected; an unknown encoding (`'json'` by default) closes both sockets and rejects; a known one installs its codec and resolves and clears the promise; settling a cleared promise throws |
| BrokerPubsub.PubsubService.HandleOhaiAsWritten | lib/services/pubsub.js:305-346 | as written: once the SUB socket exists, registering the undefined `_handleSubMessage` throws, and nothing changes, so the promise stays pending; the two earlier rejections are as in `HandleOhai`: no `Sub-Endpoint` rejects the promise and closes nothing, a SUB socket that cannot be created closes the DEALER and rejects, and a cleared promise throws |
| BrokerPubsub.PubsubService.Publish | lib/services/pubsub.js:109-181 | `publish` throws before OHAI installs a codec and when the codec cannot encode the body, and nothing changes; otherwise it sends `[kind, header, EVENT, encoded body]` on the DEALER socket |
| BrokerPubsub.PubsubService.HandleDealerMessage | lib/services/pubsub.js:201-252 | with the corrected option loop and OHAI routed to the corrected `HandleOhai`: a rejected message changes nothing; a SYNC throws in `_handleSync` without changing anything; an OHAI has the effect of `HandleOhai` on each of its four paths: the SUB socket, codec, close log, promise and settlements |
| BrokerPubsub.PubsubService.HandlePubMessage | lib/services/pubsub.js:269-299 | a rejected event changes nothing, and every event before OHAI is rejected; an accepted one records its number and calls every handler of its kind with the gap check against the previous number; the handlers, codec, SUB socket, promise and sent messages are unchanged |
| RpcDrafts.RpcHeader | lib/services/rpc.js:39 | the RPC draft header `'CDR#RPC@01'` is ten bytes |
| RpcDrafts.DraftCodesAreFirstTen | lib/old/rpc.js:35-45 | the RPC drafts' ten codes are exactly 0x00..0x09 of the full table; lines 39-49 of lib/services/rpc.js declare the same ten |
| RpcDrafts.MissingSetting | lib/old/rpc.js:72-73 | the constructor rejects a missing identity, then a missing endpoint, and accepts iff both are set; lines 77-78 of lib/services/rpc.js make the same checks |
| BrokerRpc.ParseServiceFrom | lib/services/rpc.js:158-205 | a message is accepted only with at least two frames, `'CDR#RPC@01'` at frame 0 and a one-byte type; an OHAI iff its frame count is even; REQUEST, INTERRUPT, PROGRESS and STREAM_FRAME are accepted and ignored; other types are dropped |
| BrokerRpc.EncodingMissedAsWritten | lib/services/rpc.js:183-186 | as written, an OHAI announcing an encoding selects `'json'` |
| BrokerRpc.EncodingFound | lib/services/rpc.js:183-186 | with the loop at frame 2, the same OHAI selects the announced encoding |
| BrokerRpc.CreateService | lib/services/rpc.js:68-100 | creation is rejected iff identity or endpoint is missing or the socket fails; otherwise it throws when the undefined `_handleError` is registered |
| BrokerRpc.RpcService.constructor | lib/services/rpc.js:68-100 | a new service has no codec |
| BrokerRpc.RpcService.HandleOhai | lib/services/rpc.js:211-226 | the codec the map holds for the negotiated encoding is installed when it exists, and the handler then throws either way |
| BrokerRpc.RpcService.HandleMessage | lib/services/rpc.js:158-205 | with the corrected option loop from frame 2: a dropped or ignored message changes nothing; an OHAI goes to `_handleOhai`, installs the codec of a known encoding and throws |
| LegacyRpc.ParseLegacy | lib/old/rpc.js:118-150 | an accepted message has at least three frames, the header at frame 1 and a one-byte OHAI type; it is well formed iff its frame count is odd; options are read from frame 3 |
| LegacyRpc.AnnouncedEncodingChosen | lib/old/rpc.js:141-143 | in this routed layout, an OHAI announcing an encoding selects it |
| LegacyRpc.LegacyRpcService.constructor | lib/old/rpc.js:64-86 | a new service has no callback and no codec |
| LegacyRpc.LegacyRpcService.Connect | lib/old/rpc.js:92-95 | `connect` stores the callback, then `_sendHello` throws |
| LegacyRpc.LegacyRpcService.HandleOhai | lib/old/rpc.js:156-171 | a known encoding installs the codec the map holds for it and calls `next(null)`; an unknown one throws before calling anything |
| LegacyRpc.LegacyRpcService.HandleMessage | lib/old/rpc.js:118-150 | the first OHAI consumes the callback, and a later one is ignored; a malformed OHAI reports an error to the callback |
| LegacySocket.Socket.constructor | lib/old/socket.js:33-35 | a new socket is not connected |
| LegacySocket.Socket.ConnectAsWritten | lib/old/socket.js:41-116 | as written, every call ends with exactly one error callback, and with all arguments set both sockets are closed |
| LegacySocket.Socket.Connect | lib/old/socket.js:41-116 | corrected: with all arguments set, HELLO is sent and the callback waits for OHAI |
| LegacySocket.Socket.NextSeq | lib/old/socket.js:192-203 | a tag is the next value of the wrapping counter |
| LegacySocket.Socket.Send | lib/old/socket.js:337-340 | `_send` writes iff Connected and throws otherwise |
| LegacySocket.Socket.SendRequest | lib/old/socket.js:172-208 | a request without an id throws; with no codec installed, or a codec that cannot encode the arguments, encoding throws before any tag is minted; otherwise it sends 6 + 2k frames with the arguments encoded by the installed codec, Stdout-Tag first, each tag a fresh counter value |
| LegacySocket.Socket.SendInterrupt | lib/old/socket.js:214-224 | an INTERRUPT goes through `_send` |
| LegacySocket.Socket.HandleOhai | lib/old/socket.js:510-528 | an unknown encoding throws and changes nothing; a known one (`'json'` by default) installs the codec the map holds for it, moves to Connected and calls the stored callback |
| Calls.Call.constructor | lib/old/call.js:118-132 | a new call is Initialised, with two fresh streams |
| Calls.Call.Send | lib/old/call.js:138-143 | `send` throws unless Initialised; it succeeds iff the new id is unfiled, the socket has a codec that encodes the arguments, and the socket is Connected; a success sends the REQUEST with the call's encoded arguments and tags and advances the socket counter by the tags minted; after it the state is Sent, so a second `send` throws |
| Calls.Call.Interrupt | lib/old/call.js:149-154 | `interrupt` throws unless Sent; otherwise it sends an INTERRUPT for the call's id when the socket is Connected, and the state is then Interrupted; the socket's counter, codec, callback and close log are unchanged |
| Calls.Call.HandleProgress | lib/old/call.js:160-162 | progress does not change the state |
| Calls.Call.HandleReply | lib/old/call.js:168-171 | a reply sets Resolved from any state |
| Calls.CallService.constructor | lib/old/call.js:33-41 | a new service has no calls and its counter at 0 |
| Calls.CallService.NextId | lib/old/call.js:88-94 | `_nextId` returns the current counter and then advances it modulo 65536, so the first id is 0 |
| Calls.CallService.ExecuteCall | lib/old/call.js:55-62 | `_executeCall` throws if the new id is already filed; otherwise it hands the call to the socket, which throws without a codec or when the codec cannot encode the arguments, and otherwise sends the REQUEST with the call's encoded arguments when Connected |
| Calls.CallService.HandleProgress | lib/old/call.js:68-72 | progress for an unfiled id is a no-op; for a filed one the call counts one more progress event and keeps its state, id and replies |
| Calls.CallService.HandleReply | lib/old/call.js:78-82 | a reply for an unfiled id is a no-op; for a filed one the call is Resolved with the reply appended, and keeps its id and progress count |
| DraftSession.Session.constructor | lib/session.js:37-44 | a new session is Initialised |
| DraftSession.Session.Close | lib/session.js:90-106 | `close` throws unless Connected; otherwise it sends KTHXBYE and sets Closed at once |
| DraftSession.CloseTwice | lib/session.js:90-106 | a second `close` throws |

## Left out

- ZeroMQ I/O is not modelled: socket creation, `setsockopt`, `connect`, `send`, `close` and the `'error'` handlers. Sends are appends to outbox fields, and socket options and closes are appended to operation logs.
- Session wiring in lib/index.js `connect` is left out: the socket setup and the handler registration (lib/index.js:63-115, 260-276). Only its argument checks are modelled.
- Timers are not modelled. The `setTimeout` grace delay in every `close` is explicit timing; only the immediate state change is modelled.
- The payload codec module is foreign, and lib/codec.js is not part of this model. It appears as a `Codec` pair and a `Codecs` map. lib/services/pubsub.js:334 looks codecs up with `codec.getCodec` and the other files with `require('./codec').codec`; both are taken as the same lookup.
- `zmq` and `EventEmitter` are taken to be in scope in every file. lib/old/socket.js never requires `zmq`, so as written its `zmq.socket` at line 79 throws, and its `catch` then throws again on `rpcSock.close()` at line 112. lib/index.js requires neither module (lines 71, 282). lib/export.js (lines 110, 113, 190) and lib/old/call.js (lines 112, 128-129) use `EventEmitter` without requiring it.
- `process.env` lookups and `parseInt` of the high-water marks are configuration inputs. `ClientSession.Setting` models the `||` fallback, and high-water marks only tune sockets.
- ClientSession.ConnectSettingsResolved: a setting is a string or undefined. Other falsy values of an option, such as `0`, `null` or `false`, also fall back to the environment variable under `||`; the model cannot express them.
- String keys are modelled as bytes. Option names (lib/index.js:133, lib/services/pubsub.js:228), event kinds in `_seqNums`, `_eventSeqs` and `_events`, and method names in `_exports` are JavaScript object keys, made from the frames by UTF-8 decoding. Two distinct invalid byte sequences decode to the same key there, while the model keeps them apart.
- Q promises are reduced to a `Promise` value, and `EventEmitter` internals to listener tables.
- Logging (lib/logging.js, lib/services/logging.js and the `_logger.warning` calls) is output only. A warning is modelled as dropping the message.
- `_handleSync` of lib/services/pubsub.js:350-366 reads the undeclared name `kind` and cannot run. The model reports a SYNC as throwing.
- Four pieces of module code cannot run. lib/services/rpc.js:53-62 uses undefined `MSGTYPE_*` names. The constructor in lib/pubsub.js:52-60 returns an undefined `socket`. The draft session's `registerMethod`/`publish`/`subscribe`/`unsubscribe` are empty stubs. The send helpers at lib/services/rpc.js:129-143 are empty.
- In lib/index.js, `msgHandler` is a bare emitter without a `handleOhai` method. The model routes OHAI to the `handleOhai` of lib/socket.js, which is written for that call.
- lib/index.js and lib/old/socket.js declare none of the constants they use (`HEADER`, `MSGTYPE_*`, `FRAME_*`), and lib/old/constants.js exports nothing and is required by no file. The model takes the values from lib/old/constants.js. As written, lib/old/socket.js throws a ReferenceError in `_handleRPCMessage` at line 350 on every message of three or more frames, in `_sendHello` at line 124, in `_sendRequest` at line 183 (before the codec read at line 188 and before any tag is minted) and in `_sendInterrupt` at line 219.
- SessionFrames.ParseRpc: stands for the validator of lib/old/socket.js too, reading its undeclared `HEADER` and `MSGTYPE_*` as lib/old/constants.js gives them.
- LegacySocket.Socket.Connect: the HELLO is built from the undeclared `FRAME_*` constants read as lib/old/constants.js gives them.
- LegacySocket.Socket.SendRequest: the frames are built from the undeclared `FRAME_*` constants read as lib/old/constants.js gives them; as written line 183 throws first.
- LegacySocket.Socket.SendInterrupt: the frames are built from the undeclared `FRAME_*` constants read as lib/old/constants.js gives them; as written line 219 throws first.
- lib/index.js does not define `inboundRequestsService`, `eventService` or `newOutboundRequest`. REQUEST, INTERRUPT and SUBSCRIBE_ACK messages and accepted events are recorded as forwarded. `newOutboundRequest` is the `OutboundRequest` constructor.
- ClientSession.Session.SendReply: `_inboundRequests` is modelled as the set of its keys. lib/index.js only ever deletes from it.
- `FRAME_MSGTYPE_EXPORT` is defined nowhere. The model sends code 0x03, which lib/old/constants.js calls REGISTER and which the older socket's `_sendRegister` sends for the same purpose.
- lib/old/socket.js `_handleRPCMessage` dispatches to `msgHandler`, `inboundRequestsService`, `eventService`, `session` and `next`, none of which the file declares. Only its validator is modelled.
- lib/old/socket.js `_handleOhai` creates a session with `require('./session')`. lib/old/session.js is not part of this model, so the session object is left out.
- LegacySocket.Socket.NextSeq: lib/old/socket.js calls `this._nextSeq` without defining it. The model uses the wrapping counter of lib/index.js, including the 0 start the file never sets.
- lib/old/socket.js's other send helpers are not modelled: `_sendKthxbye`, `_sendRegister`, `_sendUnregister`, `_sendProgress`, `_sendStreamFrame`, `_sendReply`, `_sendSubscribe`, `_sendUnsubscribe`, `_sendEvent`, `_sendPong`. They are not among its protocol decisions, and their layouts equal those of `SessionFrames`.
- LegacySocket.Socket.ConnectAsWritten: socket creation is taken to succeed. If creating the DEALER socket threw, `rpcSock` would be undefined, and the `catch` would throw on `rpcSock.close()` without calling `next`.
- Calls.CallService: `call(method, args)` passes its arguments shifted into `createCall(service, sock, id, method, args)`. The model's constructor takes them by name. `_calls` is never filled, so the progress and reply handlers only ever see unfiled ids.
- BrokerPubsub.PubsubService.Subscribe: `_subSocket` is never assigned, because OHAI stores the socket in `_sub`. Whether the subscribe option succeeds is a parameter.
- BrokerPubsub.PubsubService.HandleOhai: the promise rejection messages for socket creation and codec failure stand for the exceptions, which come from foreign code.
- DraftSession.Session.Close: `createSession` stores only `_state` (lib/session.js:41); line 40 is the bare expression `session._`, so `sock` is never kept. `_sendKthxbye` is not defined on the draft session, so as written a `close` from Connected throws a TypeError at line 96, before line 100 sets Closed, and the session stays Connected. The model sends KTHXBYE to the session's outbox and sets Closed.
- DraftSession.CloseTwice: relies on the `Close` above; as written the first `close` already throws.
- lib/socket.js `Socket.publish`/`subscribe`/`handlePing` are empty stubs.
- Wire.KeyInjective: holds for the model's byte keys only. In JavaScript, `requester + '#' + reqId` turns the requester buffer into a string by UTF-8 decoding (lib/export.js:62, lib/index.js:133, 140). Distinct invalid byte sequences decode to the same replacement characters, so two requesters can share a key there.
- Exports.Stream.Write: lib/export.js:221 reads `maxUInt16`, which that file never declares, so `write` throws as written. The model wraps at 65536, the value lib/services/pubsub.js:348 gives the same name.
- Exports.ExportService.HandleRequest: uses the corrected `CreateRequest`; `CreateRequestAsWritten` states that the handler receives `undefined`. `this._exports` is a plain object (lib/export.js:63), so a method named after an `Object.prototype` property such as `toString` finds an inherited function and counts as exported. The model's `exports` map holds only the exported names.
- LegacyRpc.LegacyRpcService.constructor: lib/old/rpc.js:81 registers the undefined `_handleError` as the socket's error listener. `sock.on` throws, so `createRPCService` never returns a service. The constructor builds the state lines 83-85 would leave, so that the handlers can be stated.
- LegacyRpc.LegacyRpcService.HandleMessage: lib/old/rpc.js:80 registers the handler unbound, so it runs with `this` set to the ZeroMQ socket. The model runs it on the service.
- BrokerRpc.RpcService.HandleMessage: lib/services/rpc.js:91 registers the handler unbound, so it runs with `this` set to the ZeroMQ socket, where `_logger` and `_handleOhai` are undefined. The model runs it on the service.
- BrokerPubsub.PubsubService.HandleDealerMessage: lib/services/pubsub.js:86 registers the handler unbound, so it runs with `this` set to the DEALER socket. The model runs it on the service, and routes OHAI to the corrected `HandleOhai`; `HandleOhaiAsWritten` states the handler as written.
- BrokerPubsub.PubsubService.HandlePubMessage: it stands for the SUB handler that the corrected `HandleOhai` binds. As written, lib/services/pubsub.js:323 names `_handleSubMessage`, which does not exist, so no SUB handler is ever registered.
- ClientSession.Session.HandleRpcMessage: routes OHAI to the corrected `HandleOhai`; `HandleOhaiAsWritten` states the handler as written.
- ClientSession.Session.HandleOhai: lib/socket.js never declares `messageHandler` (line 37) or `STATE_CONNECTED` (line 50). The model takes the first to be the handler object lib/index.js routes OHAI to. It takes the second to be 1, its value in lib/index.js:279.
- ClientSession.Session.HandleOhaiAsWritten: reads `messageHandler` and `STATE_CONNECTED` as `HandleOhai` does, and reads `this.sock` the same way.
- ClientSession.Session.HandleOhai: `this.sock` (lib/socket.js:44-50) is read as the session, and `this.sock.close()` at line 46 as a plain close of its RPC socket that returns, logged as `CloseSocket`. Neither object the source offers works so: the `EventEmitter` of lib/index.js:71 has no `sock`, and the session's own `close` (lib/index.js:357-361) throws "invalid state" before Connected. On either reading, line 46 throws and no callback runs.
- ClientSession.Session.HandleOhaiAsWritten: the double callback on an unknown encoding needs that reading of `this.sock.close()`; otherwise line 46 throws before `next(err)`.
- Exports.CreateRequest: lib/export.js:134 and 145 pass `sock`, which the file never declares. As written, a present tag option throws a ReferenceError inside the `try`, and the call returns `undefined`. The model opens the streams on the service's socket.
- BrokerPubsub.PubsubService.Unsubscribe: the cancel at lib/services/pubsub.js:150 sets `ZMQ_UNSUBSCRIBE` on the DEALER socket, an option only SUB sockets accept, so libzmq refuses it and the binding throws before line 151. Whether the cancel succeeds is a parameter; `unsubscribed` false is the outcome as written.
- lib/old/socket.js never declares `STATE_CONNECTED` (lines 338, 526). As written, every `_send` and every `_handleOhai` that reaches line 526 throws a ReferenceError. The members below take the value 1 from lib/index.js:279.
- LegacySocket.Socket.Send: the connected check reads `STATE_CONNECTED` as 1; as written, `_send` always throws.
- LegacySocket.Socket.SendRequest: sends through `_send`, which reads `STATE_CONNECTED` as 1.
- LegacySocket.Socket.SendInterrupt: sends through `_send`, which reads `STATE_CONNECTED` as 1.
- LegacySocket.Socket.HandleOhai: sets the state from `STATE_CONNECTED` read as 1. As written, line 526 throws after the codec is installed and before the callback runs.
- Calls.Call.Send: sends through the socket's `_send`, which reads `STATE_CONNECTED` as 1.
- Calls.CallService.ExecuteCall: sends through the socket's `_send`, which reads `STATE_CONNECTED` as 1.
- LegacySocket.Socket.ConnectAsWritten: the handlers at lib/old/socket.js:97-101 are registered unbound, so they would run with `this` set to a ZeroMQ socket. The model runs the handlers on the socket object.
- Subscriptions.SubscriptionService.HandleEvent: for an event kind named `'error'` with no handler, Node's `emit` throws instead of calling no one (lib/events_in.js:110). The model calls no one.
- Subscriptions.SubscriptionService.HandleSubscribeAck: the gap report is an `emit` too, so an `'error'` kind with no handler would throw there.
- BrokerPubsub.PubsubService.HandleEvent: the same `'error'` case at lib/services/pubsub.js:383 throws in Node. The model calls no one.

## Findings

| source | as written | input that shows it | evidently intended | confidence | as-written member | corrected member |
|---|---|---|---|---|---|---|
| lib/socket.js:45-51 | `catch` calls `next(err)` with no `return` | an OHAI naming an encoding without a codec, reading `this.sock` as the session and its `close()` as a close that returns (see "## Left out") | return after the error, so the callback runs once and the state stays | not executed | ClientSession.Session.HandleOhaiAsWritten | ClientSession.Session.HandleOhai |
| lib/export.js:119-152 | `createRequest` builds `req` but never returns it, and passes the undeclared `sock` to `createStream` (lines 134, 145) | every REQUEST: the handler receives `undefined`; with a tag option the ReferenceError is caught and the call returns `undefined` too | `return req`, with the streams on `service._sock` | not executed | Exports.CreateRequestAsWritten | Exports.CreateRequest |
| lib/services/pubsub.js:227 | OHAI option loop starts at frame 3 in a header-first layout | `[header, OHAI, 'Sub-Endpoint', endpoint]` | loop from frame 2 | not executed | BrokerPubsub.SubEndpointMissedAsWritten | BrokerPubsub.SubEndpointFound |
| lib/services/rpc.js:184 | OHAI option loop starts at frame 3 in a header-first layout | `[header, OHAI, 'Encoding', enc]` selects `'json'` | loop from frame 2 | not executed | BrokerRpc.EncodingMissedAsWritten | BrokerRpc.EncodingFound |
| lib/old/socket.js:105 | `subSock.connect(subEndpoint)` reads an undeclared name | `connect` with identity, `rpcEndpoint` and `pubEndpoint` all set, with `zmq` in scope | connect to `pubEndpoint` | not executed | LegacySocket.Socket.ConnectAsWritten | LegacySocket.Socket.Connect |
| lib/services/pubsub.js:323-324 | `sub.on('message', this._handleSubMessage)` registers a listener the service does not define, and `on` throws | an OHAI with a `Sub-Endpoint` option once the SUB socket is created | bind the SUB socket to `_handlePubMessage` and `_handlePubError` | not executed | BrokerPubsub.PubsubService.HandleOhaiAsWritten | BrokerPubsub.PubsubService.HandleOhai |
