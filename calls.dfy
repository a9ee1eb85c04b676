/**
  The outbound call service of the older client draft, lib/old/call.js. The
  service mints call ids with a 16-bit counter that hands out its current
  value and then steps; each call is a state machine Initialised → Sent →
  Interrupted, with Resolved reachable from any state on a REPLY. Requests
  and interrupts go out through the socket of lib/old/socket.js.
 */
module Calls {
  import opened Wire
  import opened Counters
  import opened SessionFrames
  import ClientSession
  import LegacySocket

  /** `STATE_INITIALISED`, `STATE_SENT`, `STATE_INTERRUPTED`, `STATE_RESOLVED`. */
  datatype CallState = Initialised | Sent | Interrupted | Resolved

  /** What a call method that may throw reports. */
  datatype Status = Ok | InvalidState | IdTaken | SendFailed

  /** One `'reply'` event of a call. */
  datatype ReplyEvent = ReplyEvent(code: int, value: Value)

  class Call {
    const service: CallService
    var state: CallState
    var id: Option<int>
    const methodName: Frame
    const args: Value
    const stdout: ClientSession.OutputStream
    const stderr: ClientSession.OutputStream
    /** How many times `'progress'` was emitted. */
    var progressEvents: nat
    var replies: seq<ReplyEvent>

    /** A call that went out carries the 16-bit id it was sent under. */
    ghost predicate Valid()
      reads this
    {
      (state == Sent || state == Interrupted) ==> id.Some? && 0 <= id.value < U16_MODULUS
    }

    /** `createCall(service, sock, id, method, args)`: a new call is
        Initialised, with two fresh output streams. */
    constructor(service0: CallService, id0: Option<int>, methodName0: Frame, args0: Value)
      ensures Valid()
      ensures service == service0 && id == id0 && methodName == methodName0 && args == args0
      ensures state == Initialised && progressEvents == 0 && replies == []
      ensures fresh(stdout) && fresh(stderr) && stdout.frameListeners == [] && stderr.frameListeners == []
    {
      service := service0;
      id := id0;
      methodName := methodName0;
      args := args0;
      state := Initialised;
      progressEvents := 0;
      replies := [];
      stdout := new ClientSession.OutputStream();
      stderr := new ClientSession.OutputStream();
    }

    /** `send()`: throws unless Initialised; otherwise the service executes
        the call and, if that did not throw, the call is Sent, so a second
        `send` throws. When execution throws, the call keeps its state but
        has already received its id. */
    method Send() returns (r: Status)
      requires Valid() && service.Valid() && service.sock.Valid()
      modifies this, service, service.sock
      ensures Valid() && service.Valid() && service.sock.Valid()
      ensures old(state) != Initialised ==> r == InvalidState && unchanged(this, service, service.sock)
      ensures old(state) == Initialised ==>
                && id == Some(old(service.seqNo))
                && service.seqNo == Successor(old(service.seqNo))
                && (r == Ok ==> state == Sent)
                && (r != Ok ==> state == Initialised)
                && (r == Ok <==> old(service.seqNo) !in old(service.calls) && EncodeWith(old(service.sock.codec), args).Some? && old(service.sock.connected))
      ensures old(state) == Initialised && (old(service.seqNo) in old(service.calls) || EncodeWith(old(service.sock.codec), args).None?) ==>
                unchanged(service.sock)
      ensures old(state) == Initialised && old(service.seqNo) !in old(service.calls) && EncodeWith(old(service.sock.codec), args).Some? ==>
                var out, err := |stdout.frameListeners| != 0, |stderr.frameListeners| != 0;
                && service.sock.seqNo == ClientSession.SeqAfterRequest(old(service.sock.seqNo), out, err)
                && service.sock.rpcSent == (if r == Ok then old(service.sock.rpcSent) + [RequestFrames(old(service.seqNo), methodName, EncodeWith(old(service.sock.codec), args).value,
                                                                                                       ClientSession.StdoutTag(old(service.sock.seqNo), out),
                                                                                                       ClientSession.StderrTag(old(service.sock.seqNo), out, err))]
                                            else old(service.sock.rpcSent))
      ensures service.calls == old(service.calls)
      ensures progressEvents == old(progressEvents) && replies == old(replies)
      ensures service.sock.connected == old(service.sock.connected) && service.sock.codec == old(service.sock.codec)
      ensures service.sock.hasNext == old(service.sock.hasNext) && service.sock.sockOps == old(service.sock.sockOps)
      ensures service.sock.callbacks == old(service.sock.callbacks)
    {
      if state != Initialised {
        return InvalidState;
      }
      r := service.ExecuteCall(this);
      if r != Ok {
        return;
      }
      state := Sent;
    }

    /** `interrupt()`: throws unless Sent; otherwise sends an INTERRUPT for
        the call's id and, once it is sent, the call is Interrupted. */
    method Interrupt() returns (r: Status)
      requires Valid()
      modifies this, service.sock
      ensures Valid()
      ensures old(state) != Sent ==> r == InvalidState && unchanged(this, service.sock)
      ensures old(state) == Sent ==>
                && (r == Ok <==> old(service.sock.connected))
                && (r == Ok ==> state == Interrupted && service.sock.rpcSent == old(service.sock.rpcSent) + [InterruptFrames(id.value)])
                && (r != Ok ==> r == SendFailed && state == Sent && service.sock.rpcSent == old(service.sock.rpcSent))
      ensures id == old(id) && progressEvents == old(progressEvents) && replies == old(replies)
      ensures service.sock.seqNo == old(service.sock.seqNo) && service.sock.connected == old(service.sock.connected)
      ensures service.sock.codec == old(service.sock.codec) && service.sock.hasNext == old(service.sock.hasNext)
      ensures service.sock.sockOps == old(service.sock.sockOps) && service.sock.callbacks == old(service.sock.callbacks)
    {
      if state != Sent {
        return InvalidState;
      }
      var sent := service.sock.SendInterrupt(id.value);
      if sent != LegacySocket.Ok {
        return SendFailed;
      }
      state := Interrupted;
      r := Ok;
    }

    /** `_handleProgress()`: emits `'progress'` and keeps the state. */
    method HandleProgress()
      modifies this
      ensures state == old(state) && id == old(id) && replies == old(replies)
      ensures progressEvents == old(progressEvents) + 1
    {
      progressEvents := progressEvents + 1;
    }

    /** `_handleReply(code, value)`: Resolved from any state, then `'reply'`. */
    method HandleReply(code: int, value: Value)
      modifies this
      ensures state == Resolved && id == old(id) && progressEvents == old(progressEvents)
      ensures replies == old(replies) + [ReplyEvent(code, value)]
    {
      state := Resolved;
      replies := replies + [ReplyEvent(code, value)];
    }
  }

  class CallService {
    const sock: LegacySocket.Socket
    var calls: map<int, Call>
    var seqNo: int

    ghost predicate Valid()
      reads this
    {
      0 <= seqNo < U16_MODULUS
    }

    /** `createCallService(socket)`: no calls, the counter at 0. */
    constructor(sock0: LegacySocket.Socket)
      ensures Valid()
      ensures sock == sock0 && calls == map[] && seqNo == 0
    {
      sock := sock0;
      calls := map[];
      seqNo := 0;
    }

    /** `_nextId()`: returns the current counter value, then steps it modulo
        65536; a fresh service hands out 0 first. */
    method NextId() returns (id: int)
      requires Valid()
      modifies this
      ensures Valid()
      ensures id == old(seqNo) && seqNo == Successor(old(seqNo))
      ensures 0 <= id < U16_MODULUS
      ensures calls == old(calls)
    {
      id := seqNo;
      seqNo := (seqNo + 1) % U16_MODULUS;
    }

    /** `_executeCall(call)`: gives the call a fresh id, throws if a call is
        already filed under it, else hands the call to the socket's
        `_sendRequest`, which throws before OHAI installs a codec or when the
        codec refuses the arguments. The call is never filed in `_calls`. */
    method ExecuteCall(call: Call) returns (r: Status)
      requires Valid() && sock.Valid()
      modifies this, call, sock
      ensures Valid() && sock.Valid()
      ensures call.id == Some(old(seqNo)) && seqNo == Successor(old(seqNo)) && calls == old(calls)
      ensures old(seqNo) in old(calls) ==> r == IdTaken && unchanged(sock)
      ensures old(seqNo) !in old(calls) && EncodeWith(old(sock.codec), call.args).None? ==> r == SendFailed && unchanged(sock)
      ensures old(seqNo) !in old(calls) && EncodeWith(old(sock.codec), call.args).Some? ==>
                var out, err := |call.stdout.frameListeners| != 0, |call.stderr.frameListeners| != 0;
                && (r == Ok <==> old(sock.connected))
                && (r != Ok ==> r == SendFailed && sock.rpcSent == old(sock.rpcSent))
                && (r == Ok ==> sock.rpcSent == old(sock.rpcSent) + [RequestFrames(old(seqNo), call.methodName, EncodeWith(old(sock.codec), call.args).value,
                                                                                     ClientSession.StdoutTag(old(sock.seqNo), out),
                                                                                     ClientSession.StderrTag(old(sock.seqNo), out, err))])
                && sock.seqNo == ClientSession.SeqAfterRequest(old(sock.seqNo), out, err)
      ensures call.state == old(call.state) && call.progressEvents == old(call.progressEvents) && call.replies == old(call.replies)
      ensures sock.connected == old(sock.connected) && sock.codec == old(sock.codec) && sock.hasNext == old(sock.hasNext)
      ensures sock.sockOps == old(sock.sockOps) && sock.callbacks == old(sock.callbacks)
    {
      var id := NextId();
      call.id := Some(id);
      if id in calls {
        return IdTaken;
      }
      var sent := sock.SendRequest(Some(id), call.methodName, call.args,
                                   |call.stdout.frameListeners| != 0, |call.stderr.frameListeners| != 0);
      r := if sent == LegacySocket.Ok then Ok else SendFailed;
    }

    /** `_handleProgress(callId)`: passed on to the call filed under the id;
        an unknown id is ignored. */
    method HandleProgress(callId: int)
      modifies if callId in calls then {calls[callId]} else {}
      ensures callId in calls ==>
                && calls[callId].progressEvents == old(calls[callId].progressEvents) + 1
                && calls[callId].state == old(calls[callId].state)
                && calls[callId].id == old(calls[callId].id)
                && calls[callId].replies == old(calls[callId].replies)
    {
      if callId !in calls {
        return;
      }
      calls[callId].HandleProgress();
    }

    /** `_handleReply(callId, code, value)`: resolves the call filed under
        the id; an unknown id is ignored. */
    method HandleReply(callId: int, code: int, value: Value)
      modifies if callId in calls then {calls[callId]} else {}
      ensures callId in calls ==>
                && calls[callId].state == Resolved
                && calls[callId].replies == old(calls[callId].replies) + [ReplyEvent(code, value)]
                && calls[callId].id == old(calls[callId].id)
                && calls[callId].progressEvents == old(calls[callId].progressEvents)
    {
      if callId !in calls {
        return;
      }
      calls[callId].HandleReply(code, value);
    }
  }
}
