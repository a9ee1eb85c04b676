/**
  The session draft of lib/session.js: a state field Initialised →
  Connected → Closed and a `close` guarded by it. KTHXBYE goes to the
  session's outbox; the delayed closing of its sockets is not modelled.
 */
module DraftSession {
  import opened Wire
  import opened Constants
  import opened SessionFrames

  /** `STATE_INITIALISED`, `STATE_CONNECTED`, `STATE_CLOSED`. */
  datatype State = Initialised | Connected | Closed

  datatype Status = Ok | InvalidState

  class Session {
    var state: State
    var sent: seq<Frames>

    /** `createSession(sock)`: a new session is Initialised. */
    constructor()
      ensures state == Initialised && sent == []
    {
      state := Initialised;
      sent := [];
    }

    /** `close()`: throws unless Connected; otherwise sends KTHXBYE and is
        Closed at once, before the sockets are torn down, so a second `close`
        throws. */
    method Close() returns (r: Status)
      modifies this
      ensures r == Ok <==> old(state) == Connected
      ensures r == Ok ==> state == Closed && sent == old(sent) + [ControlFrames(Kthxbye)]
      ensures r != Ok ==> r == InvalidState && state == old(state) && sent == old(sent)
    {
      if state != Connected {
        return InvalidState;
      }
      sent := sent + [ControlFrames(Kthxbye)];
      state := Closed;
      r := Ok;
    }
  }

  /** Closing twice: the first close of a Connected session succeeds and
      leaves it Closed, and `close` from Closed throws. */
  method CloseTwice(s: Session) returns (first: Status, second: Status)
    requires s.state == Connected
    modifies s
    ensures first == Ok && second == InvalidState && s.state == Closed
    ensures s.sent == old(s.sent) + [ControlFrames(Kthxbye)]
  {
    first := s.Close();
    second := s.Close();
  }
}
