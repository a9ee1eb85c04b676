/**
  Wire-level vocabulary shared by every part of the client: bytes, frames
  (ZeroMQ message parts), multi-part messages, the fixed-width integer
  fields, the option pairs that trail several messages, the payload codec
  seen from outside, and the `requester#id` key under which inbound requests
  are filed.
 */
module Wire {

  /** One octet of a frame. */
  newtype byte = x: int | 0 <= x < 256

  /** One part of a multi-part message (a Node `Buffer`). */
  type Frame = seq<byte>

  /** A whole multi-part message, as delivered to a `'message'` handler. */
  type Frames = seq<Frame>

  datatype Option<+T> = None | Some(value: T)

  /** An application value as produced by the payload codec. `EmptyObject`
      stands for the literal `{}` some handlers use when a body is absent. */
  datatype Value = EmptyObject | AppValue(repr: seq<int>)

  /** The payload codec, as the protocol layer sees it: decoding may fail
      (the source catches the exception and drops the message), and so may
      encoding (the exception propagates to the caller). */
  type Decoder = Frame -> Option<Value>
  type Encoder = Value -> Option<Frame>

  /** A payload codec, as `require('./codec').codec(name)` returns it. */
  datatype Codec = Codec(encode: Encoder, decode: Decoder)

  /** The codecs that exist, by encoding name; asking for any other name
      throws. */
  type Codecs = map<Frame, Codec>

  /** `_codec.decode(f)` inside a handler's `try`: fails when no codec is
      installed (reading `decode` of `undefined` throws) or when the codec
      rejects the frame. */
  function DecodeWith(codec: Option<Codec>, f: Frame): Option<Value>
  {
    if codec.None? then None else codec.value.decode(f)
  }

  /** `_codec.encode(v)`: fails when no codec is installed or when the codec
      refuses the value. */
  function EncodeWith(codec: Option<Codec>, v: Value): Option<Frame>
  {
    if codec.None? then None else codec.value.encode(v)
  }

  const U16_MODULUS: int := 65536

  /** The bytes of an ASCII string: `new Buffer(s)` for the protocol's
      literals, and the byte pattern `buf.toString()` is compared against. */
  function Ascii(s: string): (f: Frame)
    ensures |f| == |s|
    ensures forall i :: 0 <= i < |s| ==> f[i] as int == (s[i] as int) % 256
  {
    seq(|s|, i requires 0 <= i < |s| => ((s[i] as int) % 256) as byte)
  }

  /** `buf.readUInt16BE(0)`: throws (here: None) when fewer than two bytes,
      ignores any bytes after the first two. */
  function ReadUInt16BE(f: Frame): (r: Option<int>)
    ensures r.Some? <==> |f| >= 2
    ensures r.Some? ==> 0 <= r.value < U16_MODULUS
  {
    if |f| < 2 then None else Some(f[0] as int * 256 + f[1] as int)
  }

  /** `buf.readUInt8(0)`: throws (here: None) on an empty buffer. */
  function ReadUInt8(f: Frame): (r: Option<int>)
    ensures r.Some? <==> |f| >= 1
    ensures r.Some? ==> 0 <= r.value < 256 && r.value == f[0] as int
  {
    if |f| < 1 then None else Some(f[0] as int)
  }

  /** `new Buffer(2)` followed by `writeUInt16BE(n, 0)`. */
  function WriteUInt16BE(n: int): (f: Frame)
    requires 0 <= n < U16_MODULUS
    ensures |f| == 2
  {
    [(n / 256) as byte, (n % 256) as byte]
  }

  /** `new Buffer(1)` followed by `writeUInt8(n, 0)`. */
  function WriteUInt8(n: int): (f: Frame)
    requires 0 <= n < 256
    ensures |f| == 1 && f[0] as int == n
  {
    [n as byte]
  }

  /** Writing a 16-bit field and reading it back recovers the value, so every
      id, tag and sequence number the client writes is read back unchanged. */
  lemma UInt16RoundTrip(n: int)
    requires 0 <= n < U16_MODULUS
    ensures ReadUInt16BE(WriteUInt16BE(n)) == Some(n)
  {
  }

  /** Two frames that read as the same 16-bit value agree on their first two
      bytes, and every 16-bit value is written by exactly one two-byte frame. */
  lemma UInt16Injective(f: Frame, g: Frame)
    requires |f| == 2 && |g| == 2
    requires ReadUInt16BE(f) == ReadUInt16BE(g)
    ensures f == g
  {
    var x, y := f[0] as int * 256 + f[1] as int, g[0] as int * 256 + g[1] as int;
    assert x == y;
    assert x / 256 == f[0] as int && x % 256 == f[1] as int;
    assert y / 256 == g[0] as int && y % 256 == g[1] as int;
  }

  // ---------------------------------------------------------------------------
  // Option pairs: `for (i = start; i < msg.length; i += 2) opts[msg[i]] = msg[i+1];`
  // ---------------------------------------------------------------------------

  /** The options dictionary. A key maps to None when the loop read past the
      end of the message (`msg[i+1]` is then `undefined`). */
  type Options = map<Frame, Option<Frame>>

  /** The value stored at position `i + 1`, or None past the end. */
  function ValueAfter(msg: Frames, i: nat): Option<Frame>
  {
    if i + 1 < |msg| then Some(msg[i + 1]) else None
  }

  /** The dictionary built by the option loop, continued from `acc` at index `i`. */
  function OptionsFrom(acc: Options, msg: Frames, i: nat): Options
    decreases |msg| - i
  {
    if i >= |msg| then acc else OptionsFrom(acc[msg[i] := ValueAfter(msg, i)], msg, i + 2)
  }

  /** The dictionary built by the option loop started at index `start`. */
  function PairsFrom(msg: Frames, start: nat): Options
  {
    OptionsFrom(map[], msg, start)
  }

  /** `opts[name]`, with `undefined` for an absent key or an undefined value. */
  function Lookup(opts: Options, name: Frame): Option<Frame>
  {
    if name in opts then opts[name] else None
  }

  /** The option loop run as a `while` loop, as the source writes it. */
  method CollectOptions(msg: Frames, start: nat) returns (opts: Options)
    ensures opts == PairsFrom(msg, start)
  {
    opts := map[];
    var i := start;
    while i < |msg|
      invariant start <= i
      invariant OptionsFrom(opts, msg, i) == PairsFrom(msg, start)
      decreases |msg| - i
    {
      opts := opts[msg[i] := ValueAfter(msg, i)];
      i := i + 2;
    }
  }

  /** A key ends up in the dictionary exactly when it was already in `acc` or
      it occurs at a key position the loop visits. */
  lemma {:induction false} OptionsFromKeys(acc: Options, msg: Frames, start: nat, i: nat, k: Frame)
    requires start <= i && (i - start) % 2 == 0
    ensures k in OptionsFrom(acc, msg, i) <==>
              k in acc || exists j :: i <= j < |msg| && (j - start) % 2 == 0 && msg[j] == k
    decreases |msg| - i
  {
    if i < |msg| {
      OptionsFromKeys(acc[msg[i] := ValueAfter(msg, i)], msg, start, i + 2, k);
      if k in OptionsFrom(acc, msg, i) && k !in acc && msg[i] != k {
        var j :| i + 2 <= j < |msg| && (j - start) % 2 == 0 && msg[j] == k;
      }
      if exists j :: i <= j < |msg| && (j - start) % 2 == 0 && msg[j] == k {
        var j :| i <= j < |msg| && (j - start) % 2 == 0 && msg[j] == k;
        if j != i {
          assert i + 2 <= j;
        }
      }
    }
  }

  /** The last occurrence of a key wins: if `k` sits at key position `j` and no
      later key position holds `k`, the dictionary maps `k` to what follows `j`. */
  lemma {:induction false} OptionsFromLastWins(acc: Options, msg: Frames, start: nat, i: nat, j: nat)
    requires start <= i <= j < |msg| && (i - start) % 2 == 0 && (j - start) % 2 == 0
    requires forall l :: j < l < |msg| && (l - start) % 2 == 0 ==> msg[l] != msg[j]
    ensures msg[j] in OptionsFrom(acc, msg, i)
    ensures OptionsFrom(acc, msg, i)[msg[j]] == ValueAfter(msg, j)
    decreases |msg| - i
  {
    var acc' := acc[msg[i] := ValueAfter(msg, i)];
    if i == j {
      OptionsFromUntouched(acc', msg, start, i + 2, msg[j]);
    } else {
      OptionsFromLastWins(acc', msg, start, i + 2, j);
    }
  }

  /** Keys that no later key position holds keep the value they had in `acc`. */
  lemma {:induction false} OptionsFromUntouched(acc: Options, msg: Frames, start: nat, i: nat, k: Frame)
    requires start <= i && (i - start) % 2 == 0 && k in acc
    requires forall l :: i <= l < |msg| && (l - start) % 2 == 0 ==> msg[l] != k
    ensures k in OptionsFrom(acc, msg, i) && OptionsFrom(acc, msg, i)[k] == acc[k]
    decreases |msg| - i
  {
    if i < |msg| {
      OptionsFromUntouched(acc[msg[i] := ValueAfter(msg, i)], msg, start, i + 2, k);
    }
  }

  /** What a lookup in the option dictionary returns, stated without the loop:
      None when the name is at no key position, else the value after its last
      key position. */
  lemma LookupPairs(msg: Frames, start: nat, j: nat)
    requires start <= j < |msg| && (j - start) % 2 == 0
    requires forall l :: j < l < |msg| && (l - start) % 2 == 0 ==> msg[l] != msg[j]
    ensures Lookup(PairsFrom(msg, start), msg[j]) == ValueAfter(msg, j)
  {
    OptionsFromLastWins(map[], msg, start, start, j);
  }

  /** A name at no key position is absent from the dictionary. */
  lemma LookupAbsent(msg: Frames, start: nat, k: Frame)
    requires forall l :: start <= l < |msg| && (l - start) % 2 == 0 ==> msg[l] != k
    ensures Lookup(PairsFrom(msg, start), k) == None
  {
    OptionsFromKeys(map[], msg, start, start, k);
  }

  // ---------------------------------------------------------------------------
  // The `requester + '#' + reqId` key of the inbound-request tables
  // ---------------------------------------------------------------------------

  const HASH: byte := 35

  /** A decimal digit 0..9 as its ASCII byte. */
  function Digit(d: int): (b: byte)
    requires 0 <= d < 10
    ensures b != HASH && b as int == 48 + d
  {
    (48 + d) as byte
  }

  /** JavaScript's conversion of a non-negative integer to its decimal string. */
  function Decimal(n: nat): (s: Frame)
    ensures |s| >= 1
    ensures forall i :: 0 <= i < |s| ==> s[i] != HASH
    ensures (n < 10) == (|s| == 1)
  {
    if n < 10 then [Digit(n)] else Decimal(n / 10) + [Digit(n % 10)]
  }

  /** Distinct numbers print differently. */
  lemma {:induction false} DecimalInjective(m: nat, n: nat)
    requires Decimal(m) == Decimal(n)
    ensures m == n
  {
    if m >= 10 && n >= 10 {
      var dm, dn := Decimal(m), Decimal(n);
      assert dm[|dm| - 1] == dn[|dn| - 1];
      assert m % 10 == n % 10;
      assert Decimal(m / 10) == dm[..|dm| - 1] == dn[..|dn| - 1] == Decimal(n / 10);
      DecimalInjective(m / 10, n / 10);
    }
  }

  /** The table key `requester + '#' + reqId`. */
  function RequestKey(requester: Frame, reqId: nat): (k: Frame)
    ensures |k| == |requester| + 1 + |Decimal(reqId)|
  {
    requester + [HASH] + Decimal(reqId)
  }

  /** In `r + '#' + d` with no `#` in `d`, the last `#` is the one after `r`. */
  lemma LastHash(r: Frame, d: Frame)
    requires forall i :: 0 <= i < |d| ==> d[i] != HASH
    ensures (r + [HASH] + d)[|r|] == HASH
    ensures forall p :: |r| < p < |r| + 1 + |d| ==> (r + [HASH] + d)[p] != HASH
  {
    var k := r + [HASH] + d;
    forall p | |r| < p < |k| ensures k[p] != HASH {
      assert k[p] == d[p - |r| - 1];
    }
  }

  /** The key determines the requester and the id, because the decimal part
      never contains `#`: two inbound requests never share a table slot unless
      they come from the same requester with the same id. */
  lemma KeyInjective(r1: Frame, i1: nat, r2: Frame, i2: nat)
    requires RequestKey(r1, i1) == RequestKey(r2, i2)
    ensures r1 == r2 && i1 == i2
  {
    var k := RequestKey(r1, i1);
    var d1, d2 := Decimal(i1), Decimal(i2);
    LastHash(r1, d1);
    LastHash(r2, d2);
    assert |r1| == |r2|;
    assert d1 == k[|r1| + 1..] == d2;
    assert r1 == k[..|r1|] == r2;
    DecimalInjective(i1, i2);
  }
}
