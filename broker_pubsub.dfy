/**
  The pub/sub service draft of lib/services/pubsub.js. It talks to the broker
  over a DEALER socket whose messages put the header first (`CDR#PUBSUB@01`,
  then a one-byte type, then the payload) and receives events on a SUB socket
  as `[kind, header, seq, payload]`. The service keeps handlers and the last
  sequence number per kind, and a connection promise that the OHAI handler
  settles.
 */
module BrokerPubsub {
  import opened Wire
  import opened Counters
  import opened Listeners
  import opened SeqTracker
  import opened Handshake
  import Subscriptions

  /** `HELLO`, `OHAI`, `SYNC`, `EVENT`. */
  datatype PubsubType = PHello | POhai | PSync | PEvent

  function PubsubCode(t: PubsubType): (b: byte)
    ensures 1 <= b <= 4
  {
    match t
    case PHello => 0x01
    case POhai => 0x02
    case PSync => 0x03
    case PEvent => 0x04
  }

  /** The four codes are pairwise distinct. */
  lemma PubsubCodesDistinct(s: PubsubType, t: PubsubType)
    requires s != t
    ensures PubsubCode(s) != PubsubCode(t)
  {
  }

  /** `FRAME_HEADER`: the bytes of `'CDR#PUBSUB@01'`. */
  function PubsubHeader(): Frame { Ascii("CDR#PUBSUB@01") }

  function SubEndpointOption(): Frame { Ascii("Sub-Endpoint") }

  /** A control message accepted on the DEALER socket. */
  datatype DealerMessage = DealerOhai(opts: Options) | DealerSync(kind: Frame, seqNo: int)

  /** `_handleDealerMessage` with the OHAI option loop starting at `optStart`:
      at least two frames, the header at frame 0, a one-byte type at frame 1;
      an OHAI needs an even frame count, a SYNC exactly four frames and a
      16-bit sequence number; any other type is dropped. */
  function ParseDealerFrom(msg: Frames, optStart: nat): (r: Option<DealerMessage>)
    ensures r.Some? ==> |msg| >= 2 && msg[0] == PubsubHeader() && |msg[1]| == 1
    ensures r.Some? && r.value.DealerOhai? <==>
              |msg| >= 2 && msg[0] == PubsubHeader() && |msg[1]| == 1 && msg[1][0] == PubsubCode(POhai) && |msg| % 2 == 0
    ensures r.Some? && r.value.DealerOhai? ==> r.value.opts == PairsFrom(msg, optStart)
    ensures r.Some? && r.value.DealerSync? <==>
              |msg| == 4 && msg[0] == PubsubHeader() && |msg[1]| == 1 && msg[1][0] == PubsubCode(PSync) && |msg[3]| >= 2
    ensures r.Some? && r.value.DealerSync? ==> r.value.kind == msg[2] && ReadUInt16BE(msg[3]) == Some(r.value.seqNo)
  {
    if |msg| < 2 || msg[0] != PubsubHeader() || |msg[1]| != 1 then None
    else if msg[1][0] == PubsubCode(POhai) then
      if |msg| % 2 != 0 then None else Some(DealerOhai(PairsFrom(msg, optStart)))
    else if msg[1][0] == PubsubCode(PSync) then
      if |msg| != 4 then None
      else match ReadUInt16BE(msg[3])
        case None => None
        case Some(s) => Some(DealerSync(msg[2], s))
    else None
  }

  /** The validator as written: the option loop starts at index 3. */
  function ParseDealerMessageAsWritten(msg: Frames): Option<DealerMessage>
  {
    ParseDealerFrom(msg, 3)
  }

  /** The validator with the option loop at index 2, where the payload of a
      header-first message begins and where the even-length check places the
      first option name. */
  function ParseDealerMessage(msg: Frames): Option<DealerMessage>
  {
    ParseDealerFrom(msg, 2)
  }

  /** The smallest OHAI that announces a SUB endpoint: as written, the loop
      reads the endpoint value as an option name and finds no `Sub-Endpoint`,
      so the connection is rejected. */
  lemma SubEndpointMissedAsWritten(endpoint: Frame)
    ensures var msg := [PubsubHeader(), [PubsubCode(POhai)], SubEndpointOption(), endpoint];
            && ParseDealerMessageAsWritten(msg) == Some(DealerOhai(map[endpoint := None]))
            && (endpoint != SubEndpointOption() ==> Lookup(map[endpoint := None], SubEndpointOption()).None?)
  {
    var msg := [PubsubHeader(), [PubsubCode(POhai)], SubEndpointOption(), endpoint];
    assert PairsFrom(msg, 3) == OptionsFrom(map[endpoint := None], msg, 5);
  }

  /** With the loop at index 2, the same OHAI yields the endpoint. */
  lemma SubEndpointFound(endpoint: Frame)
    ensures var msg := [PubsubHeader(), [PubsubCode(POhai)], SubEndpointOption(), endpoint];
            && ParseDealerMessage(msg) == Some(DealerOhai(map[SubEndpointOption() := Some(endpoint)]))
  {
    var msg := [PubsubHeader(), [PubsubCode(POhai)], SubEndpointOption(), endpoint];
    assert PairsFrom(msg, 2) == OptionsFrom(map[SubEndpointOption() := Some(endpoint)], msg, 4);
  }

  /** A well-formed OHAI with the loop at index 2: each option name at an
      even position from 2 on is read with the frame that follows it (the
      last occurrence wins), and a name at no such position is absent. */
  lemma OhaiOptionsRead(msg: Frames, j: nat, name: Frame)
    requires |msg| >= 2 && msg[0] == PubsubHeader() && msg[1] == [PubsubCode(POhai)] && |msg| % 2 == 0
    requires 2 <= j < |msg| && j % 2 == 0
    requires forall l :: j < l < |msg| && l % 2 == 0 ==> msg[l] != msg[j]
    requires forall l :: 2 <= l < |msg| && l % 2 == 0 ==> msg[l] != name
    ensures ParseDealerMessage(msg) == Some(DealerOhai(PairsFrom(msg, 2)))
    ensures Lookup(PairsFrom(msg, 2), msg[j]) == Some(msg[j + 1])
    ensures Lookup(PairsFrom(msg, 2), name).None?
  {
    LookupPairs(msg, 2, j);
    LookupAbsent(msg, 2, name);
  }

  /** An event accepted on the SUB socket. */
  datatype PubEvent = PubEvent(kind: Frame, seqNo: int, body: Value)

  /** `_handlePubMessage`: exactly four frames, the header at frame 1, a
      sequence number of exactly two bytes at frame 2 and a payload that the
      installed codec decodes; before OHAI there is no codec, `_codec.decode`
      throws inside the `try` and the event is dropped. */
  function ParsePubMessage(msg: Frames, codec: Option<Codec>): (r: Option<PubEvent>)
    ensures r.Some? <==> && |msg| == 4 && msg[1] == PubsubHeader() && |msg[2]| == 2
                         && codec.Some? && codec.value.decode(msg[3]).Some?
    ensures r.Some? ==> r.value.kind == msg[0] && ReadUInt16BE(msg[2]) == Some(r.value.seqNo)
                        && codec.value.decode(msg[3]) == Some(r.value.body)
  {
    if |msg| != 4 || msg[1] != PubsubHeader() || |msg[2]| != 2 then None
    else match (ReadUInt16BE(msg[2]), DecodeWith(codec, msg[3]))
      case (Some(s), Some(body)) => Some(PubEvent(msg[0], s, body))
      case _ => None
  }

  /** The connection promise: pending until OHAI, then fulfilled or rejected
      once (Q ignores later settlements). */
  datatype Promise = Pending | Fulfilled | Rejected(reason: string)

  /** Settling a deferred: only a pending one changes. */
  function Settle(p: Promise, outcome: Promise): (r: Promise)
    requires !outcome.Pending?
    ensures p.Pending? ==> r == outcome
    ensures !p.Pending? ==> r == p
  {
    if p.Pending? then outcome else p
  }

  datatype SockOp = SubscribeOpt(kind: Frame) | UnsubscribeOpt(kind: Frame) | CloseDealer | CloseSub

  datatype Status = Ok | Thrown

  class PubsubService {
    var emitter: Table<Frame>
    var seqNums: map<Frame, int>
    var hasSub: bool
    var codec: Option<Codec>
    var promise: Option<Promise>
    var settled: seq<Promise>
    var dealerSent: seq<Frames>
    var sockOps: seq<SockOp>
    var deliveries: seq<Delivery<Subscriptions.Note>>

    ghost predicate Valid()
      reads this
    {
      NoEmpty(emitter) && Subscriptions.SeqNumsValid(seqNums)
    }

    /** The state `createPubsubService` leaves once its checks pass: a
        pending promise and HELLO sent. */
    constructor()
      ensures Valid()
      ensures emitter == map[] && seqNums == map[] && !hasSub && codec == None
      ensures promise == Some(Pending) && settled == []
      ensures dealerSent == [[[], PubsubHeader(), [PubsubCode(PHello)]]] && sockOps == [] && deliveries == []
    {
      emitter := map[];
      seqNums := map[];
      hasSub := false;
      codec := None;
      promise := Some(Pending);
      settled := [];
      dealerSent := [[[], PubsubHeader(), [PubsubCode(PHello)]]];
      sockOps := [];
      deliveries := [];
    }

    /** `subscribe(kind, handler)`: registers the handler, then subscribes the
        SUB socket; if that throws (`subscribed` false), the handler is
        removed again, leaving the table as it was, and the error propagates;
        otherwise a SYNC is sent for the kind. */
    method Subscribe(kind: Frame, h: HandlerId, subscribed: bool) returns (r: Status)
      requires Valid()
      modifies this
      ensures Valid()
      ensures !subscribed ==> r == Thrown && emitter == old(emitter) && sockOps == old(sockOps) && dealerSent == old(dealerSent)
      ensures subscribed ==> && r == Ok && emitter == On(old(emitter), kind, h)
                             && sockOps == old(sockOps) + [SubscribeOpt(kind)]
                             && dealerSent == old(dealerSent) + [[kind, PubsubHeader(), [PubsubCode(PSync)]]]
      ensures seqNums == old(seqNums) && hasSub == old(hasSub) && codec == old(codec)
      ensures promise == old(promise) && settled == old(settled) && deliveries == old(deliveries)
    {
      emitter := On(emitter, kind, h);
      if !subscribed {
        OnThenRemove(old(emitter), kind, h);
        emitter := RemoveListener(emitter, kind, h);
        return Thrown;
      }
      sockOps := sockOps + [SubscribeOpt(kind)];
      dealerSent := dealerSent + [[kind, PubsubHeader(), [PubsubCode(PSync)]]];
      r := Ok;
    }

    /** `unsubscribe(kind[, handler])` as written: removes all handlers of the
        kind, or only the given one, and then cancels the subscription and
        forgets the sequence number when handlers REMAIN (the guard is
        inverted with respect to the other subscription registries). The
        cancel is a `setsockopt(ZMQ_UNSUBSCRIBE)` on the DEALER socket, which
        only SUB sockets accept; when it throws (`unsubscribed` false) the
        error propagates before the sequence number is deleted, and the
        handlers stay removed. */
    method Unsubscribe(kind: Frame, h: Option<HandlerId>, unsubscribed: bool) returns (r: Status)
      requires Valid()
      modifies this
      ensures Valid()
      ensures h.None? ==> emitter == RemoveAll(old(emitter), kind)
      ensures h.Some? ==> emitter == RemoveListener(old(emitter), kind, h.value)
      ensures ListenersOf(emitter, kind) != [] && unsubscribed ==>
                r == Ok && sockOps == old(sockOps) + [UnsubscribeOpt(kind)] && seqNums == old(seqNums) - {kind}
      ensures ListenersOf(emitter, kind) != [] && !unsubscribed ==>
                r == Thrown && sockOps == old(sockOps) && seqNums == old(seqNums)
      ensures ListenersOf(emitter, kind) == [] ==> r == Ok && sockOps == old(sockOps) && seqNums == old(seqNums)
      ensures hasSub == old(hasSub) && codec == old(codec) && promise == old(promise) && settled == old(settled)
      ensures dealerSent == old(dealerSent) && deliveries == old(deliveries)
    {
      if h.None? {
        emitter := RemoveAll(emitter, kind);
      } else {
        emitter := RemoveListener(emitter, kind, h.value);
      }
      if |ListenersOf(emitter, kind)| != 0 {
        if !unsubscribed {
          return Thrown;
        }
        sockOps := sockOps + [UnsubscribeOpt(kind)];
        seqNums := seqNums - {kind};
      }
      r := Ok;
    }

    /** `_handleEvent(kind, seq, body)`: records `seq`, gap or not, and calls
        every handler of the kind with the gap error (null without a previous
        number or for its successor), `seq` and the body. */
    method HandleEvent(kind: Frame, s: int, body: Value)
      requires Valid() && 0 <= s < U16_MODULUS
      modifies this
      ensures Valid()
      ensures seqNums == old(seqNums)[kind := s]
      ensures deliveries == old(deliveries)
                + Fanout(ListenersOf(emitter, kind),
                         Subscriptions.EventNote(kind, Check(Subscriptions.PrevSeq(old(seqNums), kind), s), s, body))
      ensures emitter == old(emitter) && hasSub == old(hasSub) && codec == old(codec)
      ensures promise == old(promise) && settled == old(settled)
      ensures dealerSent == old(dealerSent) && sockOps == old(sockOps)
    {
      var last := Subscriptions.PrevSeq(seqNums, kind);
      seqNums := seqNums[kind := s];
      var err: Option<Gap> := None;
      if last.Some? && s != Successor(last.value) {
        err := Some(Gap(last.value, s));
      }
      deliveries := deliveries + Fanout(ListenersOf(emitter, kind), Subscriptions.EventNote(kind, err, s, body));
    }

    /** Settles the promise field; a call on the cleared (undefined) field
        throws. */
    method SettlePromise(outcome: Promise, clear: bool) returns (r: Status)
      requires !outcome.Pending?
      modifies this
      ensures old(promise).None? ==> r == Thrown && promise == old(promise) && settled == old(settled)
      ensures old(promise).Some? ==>
                && r == Ok
                && settled == old(settled) + [Settle(old(promise).value, outcome)]
                && promise == (if clear then None else Some(Settle(old(promise).value, outcome)))
      ensures emitter == old(emitter) && seqNums == old(seqNums) && hasSub == old(hasSub) && codec == old(codec)
      ensures dealerSent == old(dealerSent) && sockOps == old(sockOps) && deliveries == old(deliveries)
    {
      if promise.None? {
        return Thrown;
      }
      var p := Settle(promise.value, outcome);
      settled := settled + [p];
      promise := if clear then None else Some(p);
      r := Ok;
    }

    /** `_handleOhai(opts)` with the SUB handlers bound to the service's own
        `_handlePubMessage` and `_handlePubError`: rejects without a
        `Sub-Endpoint` option; otherwise creates the SUB socket (`subCreated`
        false: creating it threw, the DEALER is closed and the promise
        rejected), picks the encoding (`'json'` unless an `Encoding` option is
        present) and, if a codec exists for it, installs it and resolves and
        clears the promise; an unknown encoding closes both sockets and
        rejects. Settling a cleared promise throws. */
    method HandleOhai(opts: Options, subCreated: bool, codecs: Codecs) returns (r: Status)
      modifies this
      ensures r == Thrown <==> old(promise).None?
      ensures Lookup(opts, SubEndpointOption()).None? ==>
                && hasSub == old(hasSub) && codec == old(codec) && sockOps == old(sockOps)
                && (old(promise).Some? ==>
                      var p := Settle(old(promise).value, Rejected("SUB endpoint not received from the server"));
                      promise == Some(p) && settled == old(settled) + [p])
      ensures Lookup(opts, SubEndpointOption()).Some? && !subCreated ==>
                && hasSub == old(hasSub) && codec == old(codec) && sockOps == old(sockOps) + [CloseDealer]
                && (old(promise).Some? ==>
                      var p := Settle(old(promise).value, Rejected("SUB socket not created"));
                      promise == Some(p) && settled == old(settled) + [p])
      ensures Lookup(opts, SubEndpointOption()).Some? && subCreated && NegotiatedEncoding(opts) !in codecs ==>
                && hasSub && codec == old(codec) && sockOps == old(sockOps) + [CloseDealer, CloseSub]
                && (old(promise).Some? ==>
                      var p := Settle(old(promise).value, Rejected("unknown encoding"));
                      promise == Some(p) && settled == old(settled) + [p])
      ensures Lookup(opts, SubEndpointOption()).Some? && subCreated && NegotiatedEncoding(opts) in codecs ==>
                && hasSub && codec == Some(codecs[NegotiatedEncoding(opts)]) && sockOps == old(sockOps)
                && (old(promise).Some? ==> promise.None? && settled == old(settled) + [Settle(old(promise).value, Fulfilled)])
      ensures old(promise).None? ==> promise == old(promise) && settled == old(settled)
      ensures emitter == old(emitter) && seqNums == old(seqNums)
      ensures dealerSent == old(dealerSent) && deliveries == old(deliveries)
    {
      if Lookup(opts, SubEndpointOption()).None? {
        r := SettlePromise(Rejected("SUB endpoint not received from the server"), false);
        return;
      }
      if !subCreated {
        sockOps := sockOps + [CloseDealer];
        r := SettlePromise(Rejected("SUB socket not created"), false);
        return;
      }
      hasSub := true;
      var encoding := NegotiatedEncoding(opts);
      if encoding !in codecs {
        sockOps := sockOps + [CloseDealer, CloseSub];
        r := SettlePromise(Rejected("unknown encoding"), false);
        return;
      }
      codec := Some(codecs[encoding]);
      r := SettlePromise(Fulfilled, true);
    }

    /** `_handleOhai(opts)` as written: once the SUB socket exists,
        `sub.on('message', this._handleSubMessage)` passes a listener the
        service does not define, `on` throws, and the handler stops before it
        stores the socket, installs a codec or settles the promise, which stays
        pending. The two earlier rejections are as in `HandleOhai`. */
    method HandleOhaiAsWritten(opts: Options, subCreated: bool, codecs: Codecs) returns (r: Status)
      modifies this
      ensures Lookup(opts, SubEndpointOption()).Some? && subCreated ==> r == Thrown && unchanged(this)
      ensures Lookup(opts, SubEndpointOption()).None? || !subCreated ==>
                && hasSub == old(hasSub) && codec == old(codec)
                && (r == Thrown <==> old(promise).None?)
                && (old(promise).Some? ==> promise.Some? && !promise.value.Pending? && |settled| == |old(settled)| + 1)
                && (old(promise) == Some(Pending) ==> promise.Some? && promise.value.Rejected?)
                && (old(promise).None? ==> promise == old(promise) && settled == old(settled))
      ensures Lookup(opts, SubEndpointOption()).None? ==>
                && sockOps == old(sockOps)
                && (old(promise).Some? ==>
                      var p := Settle(old(promise).value, Rejected("SUB endpoint not received from the server"));
                      promise == Some(p) && settled == old(settled) + [p])
      ensures Lookup(opts, SubEndpointOption()).Some? && !subCreated ==>
                && sockOps == old(sockOps) + [CloseDealer]
                && (old(promise).Some? ==>
                      var p := Settle(old(promise).value, Rejected("SUB socket not created"));
                      promise == Some(p) && settled == old(settled) + [p])
      ensures emitter == old(emitter) && seqNums == old(seqNums)
      ensures dealerSent == old(dealerSent) && deliveries == old(deliveries)
    {
      if Lookup(opts, SubEndpointOption()).None? || !subCreated {
        r := HandleOhai(opts, subCreated, codecs);
        return;
      }
      r := Thrown;
    }

    /** `_handleDealerMessage` with the corrected option loop, routing OHAI to
        the corrected `HandleOhai`: a rejected message changes nothing; a SYNC
        reaches `_handleSync`, which reads the undeclared name `kind` and
        throws before it changes anything. */
    method HandleDealerMessage(msg: Frames, subCreated: bool, codecs: Codecs) returns (r: Status)
      modifies this
      ensures ParseDealerMessage(msg).None? ==> r == Ok && unchanged(this)
      ensures ParseDealerMessage(msg).Some? && ParseDealerMessage(msg).value.DealerSync? ==> r == Thrown && unchanged(this)
      ensures ParseDealerMessage(msg).Some? && ParseDealerMessage(msg).value.DealerOhai? ==>
                var opts := ParseDealerMessage(msg).value.opts;
                && (r == Thrown <==> old(promise).None?)
                && (Lookup(opts, SubEndpointOption()).Some? && subCreated && NegotiatedEncoding(opts) in codecs ==>
                      hasSub && codec == Some(codecs[NegotiatedEncoding(opts)]))
                && (Lookup(opts, SubEndpointOption()).None? ==> codec == old(codec) && hasSub == old(hasSub))
                && (Lookup(opts, SubEndpointOption()).None? ==>
                      && sockOps == old(sockOps)
                      && (old(promise).Some? ==>
                            var p := Settle(old(promise).value, Rejected("SUB endpoint not received from the server"));
                            promise == Some(p) && settled == old(settled) + [p]))
                && (Lookup(opts, SubEndpointOption()).Some? && !subCreated ==>
                      && hasSub == old(hasSub) && codec == old(codec) && sockOps == old(sockOps) + [CloseDealer]
                      && (old(promise).Some? ==>
                            var p := Settle(old(promise).value, Rejected("SUB socket not created"));
                            promise == Some(p) && settled == old(settled) + [p]))
                && (Lookup(opts, SubEndpointOption()).Some? && subCreated && NegotiatedEncoding(opts) !in codecs ==>
                      && hasSub && codec == old(codec) && sockOps == old(sockOps) + [CloseDealer, CloseSub]
                      && (old(promise).Some? ==>
                            var p := Settle(old(promise).value, Rejected("unknown encoding"));
                            promise == Some(p) && settled == old(settled) + [p]))
                && (Lookup(opts, SubEndpointOption()).Some? && subCreated && NegotiatedEncoding(opts) in codecs ==>
                      && sockOps == old(sockOps)
                      && (old(promise).Some? ==> promise.None? && settled == old(settled) + [Settle(old(promise).value, Fulfilled)]))
                && (old(promise).None? ==> promise == old(promise) && settled == old(settled))
      ensures emitter == old(emitter) && seqNums == old(seqNums)
      ensures dealerSent == old(dealerSent) && deliveries == old(deliveries)
    {
      var m := ParseDealerMessage(msg);
      if m.None? {
        return Ok;
      }
      match m.value
      case DealerOhai(opts) =>
        r := HandleOhai(opts, subCreated, codecs);
      case DealerSync(_, _) =>
        r := Thrown;
    }

    /** `publish(kind, body)`: `_sendEvent` sends `[kind, header, EVENT,
        encoded body]` on the DEALER socket; before OHAI there is no codec, and
        `_codec.encode` throws before anything is sent, as it does when the
        codec refuses the body. */
    method Publish(kind: Frame, body: Value) returns (r: Status)
      modifies this
      ensures EncodeWith(old(codec), body).None? ==> r == Thrown && unchanged(this)
      ensures EncodeWith(old(codec), body).Some? ==>
                && r == Ok
                && dealerSent == old(dealerSent) + [[kind, PubsubHeader(), [PubsubCode(PEvent)], EncodeWith(old(codec), body).value]]
      ensures emitter == old(emitter) && seqNums == old(seqNums) && hasSub == old(hasSub) && codec == old(codec)
      ensures promise == old(promise) && settled == old(settled) && sockOps == old(sockOps) && deliveries == old(deliveries)
    {
      var encoded := EncodeWith(codec, body);
      if encoded.None? {
        return Thrown;
      }
      dealerSent := dealerSent + [[kind, PubsubHeader(), [PubsubCode(PEvent)], encoded.value]];
      r := Ok;
    }

    /** `_handlePubMessage`: a rejected event, and every event before OHAI
        installs a codec, changes nothing; an accepted one goes to
        `_handleEvent`. */
    method HandlePubMessage(msg: Frames)
      requires Valid()
      modifies this
      ensures Valid()
      ensures ParsePubMessage(msg, old(codec)).None? ==> unchanged(this)
      ensures ParsePubMessage(msg, old(codec)).Some? ==>
                var e := ParsePubMessage(msg, old(codec)).value;
                && seqNums == old(seqNums)[e.kind := e.seqNo]
                && deliveries == old(deliveries)
                     + Fanout(ListenersOf(emitter, e.kind),
                              Subscriptions.EventNote(e.kind, Check(Subscriptions.PrevSeq(old(seqNums), e.kind), e.seqNo), e.seqNo, e.body))
      ensures emitter == old(emitter) && codec == old(codec) && dealerSent == old(dealerSent) && sockOps == old(sockOps)
      ensures hasSub == old(hasSub) && promise == old(promise) && settled == old(settled)
    {
      var e := ParsePubMessage(msg, codec);
      if e.Some? {
        HandleEvent(e.value.kind, e.value.seqNo, e.value.body);
      }
    }
  }
}
