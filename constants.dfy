/**
  The protocol constants of lib/old/constants.js: the header token, the
  sixteen one-byte message-type codes and the prebuilt one-byte frames.
 */
module Constants {
  import opened Wire

  /** The protocol header token of the RPC and event channels. */
  const HEADER: string := "CDR01"

  /** The message types, in code order. */
  datatype MsgType =
    | Hello | Ohai | Kthxbye | Register | Unregister | Request | Interrupt | Progress
    | StreamFrame | Reply | Subscribe | SubscribeAck | Unsubscribe | Event | Ping | Pong

  /** `MSGTYPE_X`: the one-byte code of a message type. */
  function Code(t: MsgType): (b: byte)
    ensures b < 16
  {
    match t
    case Hello => 0x00
    case Ohai => 0x01
    case Kthxbye => 0x02
    case Register => 0x03
    case Unregister => 0x04
    case Request => 0x05
    case Interrupt => 0x06
    case Progress => 0x07
    case StreamFrame => 0x08
    case Reply => 0x09
    case Subscribe => 0x0A
    case SubscribeAck => 0x0B
    case Unsubscribe => 0x0C
    case Event => 0x0D
    case Ping => 0x0E
    case Pong => 0x0F
  }

  /** The message type a received type byte names, if any (the `switch` on
      `msg[2][0]`). */
  function TypeOf(b: byte): (t: Option<MsgType>)
    ensures t.Some? <==> b < 16
    ensures t.Some? ==> Code(t.value) == b
  {
    if b == 0x00 then Some(Hello)
    else if b == 0x01 then Some(Ohai)
    else if b == 0x02 then Some(Kthxbye)
    else if b == 0x03 then Some(Register)
    else if b == 0x04 then Some(Unregister)
    else if b == 0x05 then Some(Request)
    else if b == 0x06 then Some(Interrupt)
    else if b == 0x07 then Some(Progress)
    else if b == 0x08 then Some(StreamFrame)
    else if b == 0x09 then Some(Reply)
    else if b == 0x0A then Some(Subscribe)
    else if b == 0x0B then Some(SubscribeAck)
    else if b == 0x0C then Some(Unsubscribe)
    else if b == 0x0D then Some(Event)
    else if b == 0x0E then Some(Ping)
    else if b == 0x0F then Some(Pong)
    else None
  }

  /** Reading a code back recovers its message type. */
  lemma CodeRoundTrip(t: MsgType)
    ensures TypeOf(Code(t)) == Some(t)
  {
  }

  /** The sixteen codes are pairwise distinct. */
  lemma CodesDistinct(s: MsgType, t: MsgType)
    requires s != t
    ensures Code(s) != Code(t)
  {
    CodeRoundTrip(s);
    CodeRoundTrip(t);
  }

  /** Every byte 0x00..0x0F is the code of some type, so the table is onto. */
  lemma CodesCover(b: byte)
    requires b < 16
    ensures exists t :: Code(t) == b
  {
    var t := TypeOf(b).value;
    assert Code(t) == b;
  }

  /** `FRAME_MSGTYPE_X`: the one-byte frame holding the code of `t`. */
  function TypeFrame(t: MsgType): (f: Frame)
    ensures |f| == 1 && TypeOf(f[0]) == Some(t)
  {
    CodeRoundTrip(t);
    [Code(t)]
  }

  /** `FRAME_EMPTY`: the empty routing frame. */
  const FRAME_EMPTY: Frame := []

  /** `FRAME_HEADER`: the bytes of the header token. */
  function HeaderFrame(): (f: Frame)
    ensures f == [0x43, 0x44, 0x52, 0x30, 0x31]
  {
    Ascii(HEADER)
  }

  const FRAME_HEADER: Frame := HeaderFrame()
}
