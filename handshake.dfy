/**
  The encoding choice every version of the OHAI handler makes: the payload
  encoding is `'json'` unless the broker's OHAI carries an `Encoding` option,
  in which case it is that option's bytes as a string.
 */
module Handshake {
  import opened Wire

  /** The option name `'Encoding'`. */
  function EncodingOption(): Frame { Ascii("Encoding") }

  /** The default encoding `'json'`. */
  function Json(): Frame { Ascii("json") }

  /** The encoding selected from an OHAI option dictionary. */
  function NegotiatedEncoding(opts: Options): (e: Frame)
  {
    match Lookup(opts, EncodingOption())
    case Some(v) => v
    case None => Json()
  }

  /** The encoding chosen from the option pairs of an OHAI starting at `start`,
      stated on the frames: `'json'` when no key position holds `Encoding`. */
  lemma DefaultEncoding(msg: Frames, start: nat)
    requires forall l :: start <= l < |msg| && (l - start) % 2 == 0 ==> msg[l] != EncodingOption()
    ensures NegotiatedEncoding(PairsFrom(msg, start)) == Json()
  {
    LookupAbsent(msg, start, EncodingOption());
  }

  /** When `Encoding` is at key position `j` and at no later one, the encoding
      is the frame after it, or `'json'` if the message ends right after the
      name (the value is then `undefined`). */
  lemma ChosenEncoding(msg: Frames, start: nat, j: nat)
    requires start <= j < |msg| && (j - start) % 2 == 0 && msg[j] == EncodingOption()
    requires forall l :: j < l < |msg| && (l - start) % 2 == 0 ==> msg[l] != EncodingOption()
    ensures NegotiatedEncoding(PairsFrom(msg, start)) == if j + 1 < |msg| then msg[j + 1] else Json()
  {
    LookupPairs(msg, start, j);
  }
}
