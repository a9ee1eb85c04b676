/**
  The 16-bit wrapping counters of the client: the session's `_nextSeq`, the
  per-stream frame counter and the old call service's id counter all step a
  number in [0, 65535] to `(n + 1) % 65536`.
 */
module Counters {
  import opened Wire

  /** One step of a wrapping counter. */
  function Successor(prev: int): (s: int)
    requires 0 <= prev < U16_MODULUS
    ensures 0 <= s < U16_MODULUS
    ensures s == if prev == U16_MODULUS - 1 then 0 else prev + 1
  {
    (prev + 1) % U16_MODULUS
  }

  /** Stepping a value reduced modulo 65536 is reducing the next value. */
  lemma SuccessorOfMod(a: int)
    requires 0 <= a
    ensures Successor(a % U16_MODULUS) == (a + 1) % U16_MODULUS
  {
    var q, r := a / U16_MODULUS, a % U16_MODULUS;
    assert a == q * U16_MODULUS + r;
    if r + 1 < U16_MODULUS {
      assert a + 1 == q * U16_MODULUS + (r + 1);
    } else {
      assert a + 1 == (q + 1) * U16_MODULUS;
    }
  }

  /** The counter after `n` steps from `s`. */
  function Advance(s: int, n: nat): (r: int)
    requires 0 <= s < U16_MODULUS
    ensures 0 <= r < U16_MODULUS
  {
    if n == 0 then s else Successor(Advance(s, n - 1))
  }

  /** `n` steps of the counter move it by `n` modulo 65536. */
  lemma {:induction false} AdvanceIsModular(s: int, n: nat)
    requires 0 <= s < U16_MODULUS
    ensures Advance(s, n) == (s + n) % U16_MODULUS
  {
    if n > 0 {
      AdvanceIsModular(s, n - 1);
      SuccessorOfMod(s + n - 1);
    }
  }

  /** Within any 65536 consecutive steps the counter never repeats a value,
      so the ids and tags minted in one burst are pairwise distinct. */
  lemma AdvanceDistinct(s: int, i: nat, j: nat)
    requires 0 <= s < U16_MODULUS
    requires i < j < U16_MODULUS
    ensures Advance(s, i) != Advance(s, j)
  {
    AdvanceIsModular(s, i);
    AdvanceIsModular(s, j);
  }

  /** After a full cycle of 65536 steps the counter is back where it started. */
  lemma AdvanceFullCycle(s: int)
    requires 0 <= s < U16_MODULUS
    ensures Advance(s, U16_MODULUS) == s
  {
    AdvanceIsModular(s, U16_MODULUS);
  }
}
