/**
  The sequence tracker used by the event subscription services: per event
  kind, the last sequence number seen. A new number is in order exactly when
  it is the 16-bit successor of the last one; it is recorded whether or not
  it is, so a single lost event is reported once and not on every later one.
 */
module SeqTracker {
  import opened Wire
  import opened Counters

  /** The error a handler receives on a gap: `err.prevSeq` and `err.seq`. */
  datatype Gap = Gap(prevSeq: int, seqNo: int)

  /** The gap condition checked on each event: none without a previous
      number, none for the successor, otherwise a gap carrying both numbers. */
  function Check(prev: Option<int>, s: int): (g: Option<Gap>)
    requires prev.Some? ==> 0 <= prev.value < U16_MODULUS
  {
    if prev.Some? && s != Successor(prev.value) then Some(Gap(prev.value, s)) else None
  }

  /** A run of events through the tracker: the gap flag of each event. */
  function Run(last: Option<int>, seqs: seq<int>): (flags: seq<Option<Gap>>)
    requires last.Some? ==> 0 <= last.value < U16_MODULUS
    requires forall i :: 0 <= i < |seqs| ==> 0 <= seqs[i] < U16_MODULUS
    ensures |flags| == |seqs|
    decreases |seqs|
  {
    if seqs == [] then [] else [Check(last, seqs[0])] + Run(Some(seqs[0]), seqs[1..])
  }

  /** The number the tracker holds after a run, event by event: each event
      overwrites it with its own number. */
  function Recorded(last: Option<int>, seqs: seq<int>): Option<int>
    decreases |seqs|
  {
    if seqs == [] then last else Recorded(Some(seqs[0]), seqs[1..])
  }

  /** Whatever was lost, the tracker ends on the last number received. */
  lemma {:induction false} RecordedIsLast(last: Option<int>, seqs: seq<int>)
    ensures seqs != [] ==> Recorded(last, seqs) == Some(seqs[|seqs| - 1])
    ensures seqs == [] ==> Recorded(last, seqs) == last
    decreases |seqs|
  {
    if seqs != [] {
      RecordedIsLast(Some(seqs[0]), seqs[1..]);
    }
  }

  /** A run split anywhere: the second part is checked from the number the
      first part recorded, so the tracker's state is all it carries over. */
  lemma {:induction false} RunSplit(last: Option<int>, a: seq<int>, b: seq<int>)
    requires last.Some? ==> 0 <= last.value < U16_MODULUS
    requires forall i :: 0 <= i < |a| ==> 0 <= a[i] < U16_MODULUS
    requires forall i :: 0 <= i < |b| ==> 0 <= b[i] < U16_MODULUS
    ensures forall i :: 0 <= i < |a + b| ==> 0 <= (a + b)[i] < U16_MODULUS
    ensures Recorded(last, a).Some? ==> 0 <= Recorded(last, a).value < U16_MODULUS
    ensures Run(last, a + b) == Run(last, a) + Run(Recorded(last, a), b)
    ensures Recorded(last, a + b) == Recorded(Recorded(last, a), b)
    decreases |a|
  {
    RecordedIsLast(last, a);
    if a != [] {
      assert (a + b)[0] == a[0];
      assert (a + b)[1..] == a[1..] + b;
      RunSplit(Some(a[0]), a[1..], b);
    } else {
      assert a + b == b;
    }
  }

  /** One more event after a run, as one `_handleEvent` call sees it: it is
      checked against the number the run recorded, and then it is the
      recorded number. */
  lemma RunStep(last: Option<int>, seqs: seq<int>, s: int)
    requires last.Some? ==> 0 <= last.value < U16_MODULUS
    requires forall i :: 0 <= i < |seqs| ==> 0 <= seqs[i] < U16_MODULUS
    requires 0 <= s < U16_MODULUS
    ensures Recorded(last, seqs).Some? ==> 0 <= Recorded(last, seqs).value < U16_MODULUS
    ensures Run(last, seqs + [s]) == Run(last, seqs) + [Check(Recorded(last, seqs), s)]
    ensures Recorded(last, seqs + [s]) == Some(s)
  {
    RunSplit(last, seqs, [s]);
    RecordedIsLast(last, seqs + [s]);
  }

  /** The number an event is compared against within a run. */
  function PrevAt(last: Option<int>, seqs: seq<int>, i: nat): Option<int>
    requires i < |seqs|
  {
    if i == 0 then last else Some(seqs[i - 1])
  }

  /** Each event of a run is flagged exactly as a single check against the
      number received just before it (or the initial one, for the first). */
  lemma {:induction false} RunAt(last: Option<int>, seqs: seq<int>, i: nat)
    requires last.Some? ==> 0 <= last.value < U16_MODULUS
    requires forall j :: 0 <= j < |seqs| ==> 0 <= seqs[j] < U16_MODULUS
    requires i < |seqs|
    ensures Run(last, seqs)[i] == Check(PrevAt(last, seqs, i), seqs[i])
    decreases i
  {
    if i > 0 {
      RunAt(Some(seqs[0]), seqs[1..], i - 1);
    }
  }

  /** The wire numbering `base, base+1, ...` modulo 65536. */
  ghost predicate Consecutive(base: int, seqs: seq<int>)
  {
    forall i :: 0 <= i < |seqs| ==> seqs[i] == (base + i) % U16_MODULUS
  }

  /** N events numbered consecutively from any starting number, delivered to a
      fresh subscription: N deliveries, none flagged as a gap. */
  lemma InOrderRunHasNoGaps(base: int, seqs: seq<int>)
    requires 0 <= base
    requires Consecutive(base, seqs)
    ensures forall i :: 0 <= i < |seqs| ==> Run(None, seqs)[i] == None
  {
    forall i | 0 <= i < |seqs| ensures Run(None, seqs)[i] == None {
      RunAt(None, seqs, i);
      if i > 0 {
        SuccessorOfMod(base + i - 1);
      }
    }
  }

  /** One lost event: after `s`, the numbers continue at `s + 2`. The event
      numbered `s + 2` is the only one flagged, with `prevSeq == s`, and the
      in-order events after it are not flagged. */
  lemma SingleLossReportedOnce(s: int, seqs: seq<int>)
    requires 0 <= s < U16_MODULUS
    requires |seqs| >= 2 && seqs[0] == s
    requires forall i :: 1 <= i < |seqs| ==> seqs[i] == (s + 1 + i) % U16_MODULUS
    ensures Run(None, seqs)[1] == Some(Gap(s, (s + 2) % U16_MODULUS))
    ensures forall i :: 0 <= i < |seqs| && i != 1 ==> Run(None, seqs)[i] == None
  {
    assert forall j :: 0 <= j < |seqs| ==> 0 <= seqs[j] < U16_MODULUS;
    RunAt(None, seqs, 1);
    assert Successor(s) != (s + 2) % U16_MODULUS;
    forall i | 0 <= i < |seqs| && i != 1 ensures Run(None, seqs)[i] == None {
      RunAt(None, seqs, i);
      if i > 1 {
        SuccessorOfMod(s + i);
      }
    }
  }

  /** Wrap-around is in order: 65535 is followed by 0 without a gap. */
  lemma WrapIsInOrder()
    ensures Check(Some(U16_MODULUS - 1), 0) == None
    ensures Check(Some(U16_MODULUS - 1), U16_MODULUS - 1) == Some(Gap(U16_MODULUS - 1, U16_MODULUS - 1))
  {
  }
}
