/**
  The event subscription registry of lib/events_in.js (`SubscriptionService`),
  of which `PubsubService` in lib/pubsub.js is a line-for-line copy: handlers
  per event kind, the last sequence number seen per kind, and gap detection
  on every event and subscribe acknowledgement. The socket is replaced by the
  log of subscribe and unsubscribe calls made on it, and the emitter's calls
  of the handlers are recorded as deliveries.
 */
module Subscriptions {
  import opened Wire
  import opened Counters
  import opened Listeners
  import opened SeqTracker

  /** What a handler of `kind` is called with: `(err, seq, body)` for an
      event, `(err)` alone when an acknowledgement reveals a gap. */
  datatype Note =
    | EventNote(kind: Frame, err: Option<Gap>, seqNo: int, body: Value)
    | AckGapNote(kind: Frame, gap: Gap)

  datatype SockCall = SubscribeCall(kind: Frame) | UnsubscribeCall(kind: Frame)

  /** `this._seqNums[kind]`, undefined for a kind never seen. */
  function PrevSeq(seqNums: map<Frame, int>, kind: Frame): Option<int>
  {
    if kind in seqNums then Some(seqNums[kind]) else None
  }

  /** Every recorded sequence number is a 16-bit value. */
  ghost predicate SeqNumsValid(seqNums: map<Frame, int>)
  {
    forall k :: k in seqNums ==> 0 <= seqNums[k] < U16_MODULUS
  }

  /** The deliveries an acknowledgement causes: none without a previous
      number or when the acknowledged number is its successor, otherwise the
      gap error to every handler of the kind. */
  function AckDeliveries(handlers: seq<HandlerId>, kind: Frame, prev: Option<int>, s: int): (ds: seq<Delivery<Note>>)
    requires prev.Some? ==> 0 <= prev.value < U16_MODULUS
    ensures prev.None? ==> ds == []
    ensures prev.Some? && s == Successor(prev.value) ==> ds == []
    ensures prev.Some? && s != Successor(prev.value) ==>
              |ds| == |handlers| && forall i :: 0 <= i < |ds| ==> ds[i] == Delivery(handlers[i], AckGapNote(kind, Gap(prev.value, s)))
  {
    match Check(prev, s)
    case None => []
    case Some(g) => Fanout(handlers, AckGapNote(kind, g))
  }

  class SubscriptionService {
    var emitter: Table<Frame>
    var seqNums: map<Frame, int>
    var sockCalls: seq<SockCall>
    var deliveries: seq<Delivery<Note>>

    ghost predicate Valid()
      reads this
    {
      NoEmpty(emitter) && SeqNumsValid(seqNums)
    }

    /** `createSubscriptionService(socket)`. */
    constructor()
      ensures Valid()
      ensures emitter == map[] && seqNums == map[] && sockCalls == [] && deliveries == []
    {
      emitter := map[];
      seqNums := map[];
      sockCalls := [];
      deliveries := [];
    }

    /** `subscribe(kind, handler)`: registers the handler, then subscribes
        the socket to the kind. */
    method Subscribe(kind: Frame, h: HandlerId)
      requires Valid()
      modifies this
      ensures Valid()
      ensures emitter == On(old(emitter), kind, h)
      ensures sockCalls == old(sockCalls) + [SubscribeCall(kind)]
      ensures seqNums == old(seqNums) && deliveries == old(deliveries)
    {
      emitter := On(emitter, kind, h);
      sockCalls := sockCalls + [SubscribeCall(kind)];
    }

    /** `unsubscribe(kind[, handler])`: without a handler drops every handler
        of the kind, with one drops that handler only; once the kind has no
        handler left, the socket is unsubscribed and the kind's sequence
        number is forgotten, so its next event is a fresh baseline. */
    method Unsubscribe(kind: Frame, h: Option<HandlerId>)
      requires Valid()
      modifies this
      ensures Valid()
      ensures h.None? ==> emitter == RemoveAll(old(emitter), kind)
      ensures h.Some? ==> emitter == RemoveListener(old(emitter), kind, h.value)
      ensures ListenersOf(emitter, kind) == [] ==>
                sockCalls == old(sockCalls) + [UnsubscribeCall(kind)] && seqNums == old(seqNums) - {kind}
      ensures ListenersOf(emitter, kind) != [] ==> sockCalls == old(sockCalls) && seqNums == old(seqNums)
      ensures deliveries == old(deliveries)
    {
      if h.None? {
        emitter := RemoveAll(emitter, kind);
      } else {
        emitter := RemoveListener(emitter, kind, h.value);
      }
      if |ListenersOf(emitter, kind)| == 0 {
        sockCalls := sockCalls + [UnsubscribeCall(kind)];
        seqNums := seqNums - {kind};
      }
    }

    /** `_handleSubscribeAck(kind, seq)`: records `seq` as the kind's number
        and, when a previous number exists and `seq` is not its successor,
        reports the gap to every handler of the kind. */
    method HandleSubscribeAck(kind: Frame, s: int)
      requires Valid() && 0 <= s < U16_MODULUS
      modifies this
      ensures Valid()
      ensures seqNums == old(seqNums)[kind := s]
      ensures deliveries == old(deliveries) + AckDeliveries(ListenersOf(emitter, kind), kind, PrevSeq(old(seqNums), kind), s)
      ensures emitter == old(emitter) && sockCalls == old(sockCalls)
    {
      var prev := PrevSeq(seqNums, kind);
      seqNums := seqNums[kind := s];
      if prev.None? {
        return;
      }
      if s != Successor(prev.value) {
        deliveries := deliveries + Fanout(ListenersOf(emitter, kind), AckGapNote(kind, Gap(prev.value, s)));
      }
    }

    /** `_handleEvent(kind, seq, body)`: records `seq` as the kind's number,
        gap or not, and calls every handler of the kind, in order, with the
        gap error (null for the first event and for the successor of the
        previous number), `seq` and the body. */
    method HandleEvent(kind: Frame, s: int, body: Value)
      requires Valid() && 0 <= s < U16_MODULUS
      modifies this
      ensures Valid()
      ensures seqNums == old(seqNums)[kind := s]
      ensures deliveries == old(deliveries) + Fanout(ListenersOf(emitter, kind), EventNote(kind, Check(PrevSeq(old(seqNums), kind), s), s, body))
      ensures |deliveries| == |old(deliveries)| + |ListenersOf(emitter, kind)|
      ensures kind !in old(seqNums) ==> forall i :: |old(deliveries)| <= i < |deliveries| ==> deliveries[i].note.EventNote? && deliveries[i].note.err.None?
      ensures emitter == old(emitter) && sockCalls == old(sockCalls)
    {
      var prev := PrevSeq(seqNums, kind);
      seqNums := seqNums[kind := s];
      var err: Option<Gap> := None;
      if prev.Some? && s != Successor(prev.value) {
        err := Some(Gap(prev.value, s));
      }
      deliveries := deliveries + Fanout(ListenersOf(emitter, kind), EventNote(kind, err, s, body));
    }
  }
}
