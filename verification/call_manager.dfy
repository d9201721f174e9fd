/** The client's call state machine: one side starts a call or receives one,
    the callee accepts or rejects, either side ends it. Signalling messages
    go out on the socket; media streams, peer connections and session
    descriptions are opaque handles supplied by the caller of each step. */
module CallManager {
  import opened Common

  datatype CallType = Audio | Video

  /** Opaque handles: a peer connection, a media stream, a session
      description, an ICE candidate. */
  type PeerId = nat
  type MediaId = nat
  type Sdp = string
  type Candidate = string

  datatype IncomingCall = IncomingCall(fromUserId: int, callType: CallType, offer: Sdp)

  /** The socket messages the hook emits. */
  datatype Signal =
    | Initiate(toUserId: int, fromUserId: int, callType: CallType, offer: Sdp)
    | Answer(toUserId: int, fromUserId: int, answer: Sdp)
    | RejectCall(toUserId: int, fromUserId: int)
    | EndCall(toUserId: int, fromUserId: int)
    | IceCandidate(toUserId: int, fromUserId: int, candidate: Candidate)

  class CallManager {
    var inCall: bool
    var callType: Option<CallType>
    var isCaller: bool
    var incomingCall: Option<IncomingCall>
    var isCallModalOpen: bool
    var isMaximized: bool
    var localStream: Option<MediaId>
    var remoteStream: Option<MediaId>
    /** The refs: the peer connection and the two user ids (None also stands
        for `NaN`, which is as falsy as `null`). */
    var peer: Option<PeerId>
    var currentUserId: Option<int>
    var otherUserId: Option<int>
    /** Every message emitted on the socket, in order. */
    var emitted: seq<Signal>

    /** A closed call window means no call at all: not connected, no call
        type, no pending incoming call, no peer and no remote stream; and a
        connected call always has a peer. */
    ghost predicate Valid()
      reads this
    {
      && (!isCallModalOpen ==> !inCall && callType.None? && incomingCall.None? && peer.None? && remoteStream.None?)
      && (inCall ==> peer.Some?)
    }

    /** The local stream is cleared whenever the call window is closed. */
    ghost predicate Released()
      reads this
    {
      !isCallModalOpen ==> localStream.None?
    }

    constructor ()
      ensures Valid() && Released()
      ensures !inCall && callType.None? && !isCaller && incomingCall.None?
      ensures !isCallModalOpen && !isMaximized && localStream.None? && remoteStream.None?
      ensures peer.None? && currentUserId.None? && otherUserId.None? && emitted == []
    {
      inCall, callType, isCaller, incomingCall := false, None, false, None;
      isCallModalOpen, isMaximized, localStream, remoteStream := false, false, None, None;
      peer, currentUserId, otherUserId, emitted := None, None, None, [];
    }

    /** The mount effect: the stored id, as `Number(id)`. */
    method LoadCurrentUser(id: Option<int>)
      requires Valid()
      modifies this
      ensures Valid()
      ensures currentUserId == id
      ensures inCall == old(inCall) && callType == old(callType) && isCaller == old(isCaller)
      ensures incomingCall == old(incomingCall) && isCallModalOpen == old(isCallModalOpen)
      ensures isMaximized == old(isMaximized) && localStream == old(localStream)
      ensures remoteStream == old(remoteStream) && peer == old(peer) && otherUserId == old(otherUserId)
      ensures emitted == old(emitted)
    {
      currentUserId := id;
    }

    /** `startCall`: nothing without a current user. Otherwise the caller's
        window opens, not yet connected, with a new peer `pc`; once the
        camera or microphone is granted (`media`), the offer is sent to the
        callee. A refused `getUserMedia` stops the call before anything is
        emitted. */
    method StartCall(toUserId: int, kind: CallType, pc: PeerId, media: Option<MediaId>, offer: Sdp)
      requires Valid()
      modifies this
      ensures Valid()
      ensures old(Released()) ==> Released()
      ensures !TruthyNum(currentUserId) ==>
        && inCall == old(inCall) && callType == old(callType) && isCaller == old(isCaller)
        && isCallModalOpen == old(isCallModalOpen) && peer == old(peer) && otherUserId == old(otherUserId)
        && localStream == old(localStream) && emitted == old(emitted)
      ensures TruthyNum(currentUserId) ==>
        && isCaller && callType == Some(kind) && otherUserId == Some(toUserId)
        && isCallModalOpen && !inCall && peer == Some(pc)
        && localStream == (if media.Some? then media else old(localStream))
        && emitted == old(emitted) + (if media.Some? then [Initiate(toUserId, currentUserId.value, kind, offer)] else [])
      ensures incomingCall == old(incomingCall) && isMaximized == old(isMaximized)
      ensures remoteStream == old(remoteStream) && currentUserId == old(currentUserId)
    {
      if !TruthyNum(currentUserId) {
        return;
      }
      isCaller := true;
      callType := Some(kind);
      otherUserId := Some(toUserId);
      isCallModalOpen := true;
      inCall := false;
      peer := Some(pc);
      if media.None? {
        return;
      }
      localStream := media;
      emitted := emitted + [Initiate(toUserId, currentUserId.value, kind, offer)];
    }

    /** `call:incoming`: the offer is kept, the caller becomes the other
        party, and the callee's window opens, not connected. */
    method HandleIncomingCall(fromUserId: int, kind: CallType, offer: Sdp)
      requires Valid()
      modifies this
      ensures Valid() && Released()
      ensures otherUserId == Some(fromUserId) && incomingCall == Some(IncomingCall(fromUserId, kind, offer))
      ensures callType == Some(kind) && !isCaller && isCallModalOpen && !inCall
      ensures isMaximized == old(isMaximized) && localStream == old(localStream) && remoteStream == old(remoteStream)
      ensures peer == old(peer) && currentUserId == old(currentUserId) && emitted == old(emitted)
    {
      otherUserId := Some(fromUserId);
      incomingCall := Some(IncomingCall(fromUserId, kind, offer));
      callType := Some(kind);
      isCaller := false;
      isCallModalOpen := true;
      inCall := false;
    }

    /** `acceptCall`: nothing unless there is an incoming call and both user
        ids are known. Otherwise a new peer `pc` is made; once media is
        granted the answer goes to the caller, the incoming call is cleared and
        the call is connected. */
    method AcceptCall(pc: PeerId, media: Option<MediaId>, answer: Sdp)
      requires Valid()
      modifies this
      ensures Valid()
      ensures old(Released()) ==> Released()
      ensures var proceeds := old(incomingCall).Some? && TruthyNum(currentUserId) && TruthyNum(otherUserId);
        && (!proceeds ==>
              inCall == old(inCall) && incomingCall == old(incomingCall) && peer == old(peer)
              && localStream == old(localStream) && emitted == old(emitted))
        && (proceeds && media.None? ==>
              inCall == old(inCall) && incomingCall == old(incomingCall) && peer == Some(pc)
              && localStream == old(localStream) && emitted == old(emitted))
        && (proceeds && media.Some? ==>
              && peer == Some(pc) && localStream == media && incomingCall.None? && inCall
              && emitted == old(emitted) + [Answer(old(incomingCall).value.fromUserId, currentUserId.value, answer)])
      ensures callType == old(callType) && isCaller == old(isCaller) && isCallModalOpen == old(isCallModalOpen)
      ensures isMaximized == old(isMaximized) && remoteStream == old(remoteStream)
      ensures currentUserId == old(currentUserId) && otherUserId == old(otherUserId)
    {
      if incomingCall.None? || !TruthyNum(currentUserId) || !TruthyNum(otherUserId) {
        return;
      }
      peer := Some(pc);
      if media.None? {
        return;
      }
      localStream := media;
      emitted := emitted + [Answer(incomingCall.value.fromUserId, currentUserId.value, answer)];
      incomingCall := None;
      inCall := true;
    }

    /** `call:answered`: connects the call when there is a peer, else nothing. */
    method HandleCallAnswered()
      requires Valid()
      modifies this
      ensures Valid()
      ensures old(Released()) ==> Released()
      ensures inCall == (old(inCall) || old(peer).Some?)
      ensures callType == old(callType) && isCaller == old(isCaller) && incomingCall == old(incomingCall)
      ensures isCallModalOpen == old(isCallModalOpen) && isMaximized == old(isMaximized)
      ensures localStream == old(localStream) && remoteStream == old(remoteStream) && peer == old(peer)
      ensures currentUserId == old(currentUserId) && otherUserId == old(otherUserId) && emitted == old(emitted)
    {
      if peer.None? {
        return;
      }
      inCall := true;
    }

    /** `cleanup` as run from the current render: everything about the call is
        reset and local media released; who called and the other party are
        kept. */
    method Cleanup()
      requires Valid()
      modifies this
      ensures Valid() && Released()
      ensures !inCall && callType.None? && incomingCall.None? && !isCallModalOpen && !isMaximized
      ensures remoteStream.None? && peer.None? && localStream.None?
      ensures isCaller == old(isCaller) && otherUserId == old(otherUserId)
      ensures currentUserId == old(currentUserId) && emitted == old(emitted)
    {
      inCall, callType, incomingCall, isCallModalOpen, isMaximized := false, None, None, false, false;
      remoteStream, peer, localStream := None, None, None;
    }

    /** `cleanup` as the socket listeners run it. They were registered once, at
        mount, so they hold the first render's `cleanup`, whose `localStream`
        is the initial `null`. The peer's sender tracks are still stopped
        through the live peer ref, which releases the devices, but the
        `localStream` state is not cleared: the hook keeps returning the
        ended stream. */
    method CleanupFromListener()
      requires Valid()
      modifies this
      ensures Valid()
      ensures !inCall && callType.None? && incomingCall.None? && !isCallModalOpen && !isMaximized
      ensures remoteStream.None? && peer.None?
      ensures localStream == old(localStream)
      ensures isCaller == old(isCaller) && otherUserId == old(otherUserId)
      ensures currentUserId == old(currentUserId) && emitted == old(emitted)
    {
      inCall, callType, incomingCall, isCallModalOpen, isMaximized := false, None, None, false, false;
      remoteStream, peer := None, None;
    }

    /** `rejectCall`: with an incoming call and a current user, the caller is
        told and the call cleaned up; otherwise nothing. */
    method Reject()
      requires Valid()
      modifies this
      ensures Valid()
      ensures old(Released()) ==> Released()
      ensures old(incomingCall).Some? && TruthyNum(currentUserId) ==>
        && emitted == old(emitted) + [RejectCall(old(incomingCall).value.fromUserId, currentUserId.value)]
        && !isCallModalOpen && incomingCall.None? && localStream.None?
      ensures old(incomingCall).Some? && TruthyNum(currentUserId) ==>
        && !inCall && callType.None? && !isMaximized && peer.None? && remoteStream.None?
      ensures !(old(incomingCall).Some? && TruthyNum(currentUserId)) ==>
        && emitted == old(emitted) && incomingCall == old(incomingCall)
        && isCallModalOpen == old(isCallModalOpen) && inCall == old(inCall)
        && callType == old(callType) && peer == old(peer) && localStream == old(localStream)
        && remoteStream == old(remoteStream) && isMaximized == old(isMaximized)
      ensures currentUserId == old(currentUserId) && otherUserId == old(otherUserId) && isCaller == old(isCaller)
    {
      if incomingCall.None? || !TruthyNum(currentUserId) {
        return;
      }
      emitted := emitted + [RejectCall(incomingCall.value.fromUserId, currentUserId.value)];
      Cleanup();
    }

    /** `call:rejected` (caller side), as written. */
    method HandleCallRejected()
      requires Valid()
      modifies this
      ensures Valid()
      ensures !isCallModalOpen && !inCall && peer.None? && localStream == old(localStream)
      ensures callType.None? && incomingCall.None? && remoteStream.None? && !isMaximized
      ensures emitted == old(emitted) && otherUserId == old(otherUserId) && currentUserId == old(currentUserId)
      ensures isCaller == old(isCaller)
    {
      CleanupFromListener();
    }

    /** `endCall`: the other party is told only when both ids are known; the
        call is cleaned up in every case. */
    method End()
      requires Valid()
      modifies this
      ensures Valid() && Released()
      ensures emitted == old(emitted) + (if TruthyNum(currentUserId) && TruthyNum(otherUserId)
                                         then [EndCall(otherUserId.value, currentUserId.value)] else [])
      ensures !inCall && !isCallModalOpen && peer.None? && localStream.None?
      ensures callType.None? && incomingCall.None? && remoteStream.None? && !isMaximized
      ensures currentUserId == old(currentUserId) && otherUserId == old(otherUserId) && isCaller == old(isCaller)
    {
      if TruthyNum(currentUserId) && TruthyNum(otherUserId) {
        emitted := emitted + [EndCall(otherUserId.value, currentUserId.value)];
      }
      Cleanup();
    }

    /** `call:ended`, as written. */
    method HandleRemoteEnd()
      requires Valid()
      modifies this
      ensures Valid()
      ensures !isCallModalOpen && !inCall && peer.None? && localStream == old(localStream)
      ensures callType.None? && incomingCall.None? && remoteStream.None? && !isMaximized
      ensures emitted == old(emitted) && otherUserId == old(otherUserId) && currentUserId == old(currentUserId)
      ensures isCaller == old(isCaller)
    {
      CleanupFromListener();
    }

    /** `call:ended` as evidently intended: the same reset as a local hang-up,
        local media included. */
    method HandleRemoteEndChecked()
      requires Valid()
      modifies this
      ensures Valid() && Released()
      ensures !isCallModalOpen && !inCall && peer.None? && localStream.None?
      ensures callType.None? && incomingCall.None? && remoteStream.None? && !isMaximized
      ensures emitted == old(emitted) && otherUserId == old(otherUserId) && currentUserId == old(currentUserId)
      ensures isCaller == old(isCaller)
    {
      Cleanup();
    }

    /** `toggleMaximize`. */
    method ToggleMaximize()
      requires Valid()
      modifies this
      ensures Valid()
      ensures old(Released()) ==> Released()
      ensures isMaximized == !old(isMaximized)
      ensures inCall == old(inCall) && callType == old(callType) && isCaller == old(isCaller)
      ensures incomingCall == old(incomingCall) && isCallModalOpen == old(isCallModalOpen)
      ensures localStream == old(localStream) && remoteStream == old(remoteStream) && peer == old(peer)
      ensures currentUserId == old(currentUserId) && otherUserId == old(otherUserId) && emitted == old(emitted)
    {
      isMaximized := !isMaximized;
    }

    /** The peer's `onicecandidate`: a candidate is forwarded only when there is
        one and both user ids are known. */
    method OnIceCandidate(candidate: Option<Candidate>)
      requires Valid()
      modifies this
      ensures Valid()
      ensures old(Released()) ==> Released()
      ensures emitted == old(emitted) +
        (if candidate.Some? && TruthyNum(otherUserId) && TruthyNum(currentUserId)
         then [IceCandidate(otherUserId.value, currentUserId.value, candidate.value)] else [])
      ensures inCall == old(inCall) && callType == old(callType) && isCaller == old(isCaller)
      ensures incomingCall == old(incomingCall) && isCallModalOpen == old(isCallModalOpen)
      ensures isMaximized == old(isMaximized) && localStream == old(localStream)
      ensures remoteStream == old(remoteStream) && peer == old(peer)
      ensures currentUserId == old(currentUserId) && otherUserId == old(otherUserId)
    {
      if candidate.Some? && TruthyNum(otherUserId) && TruthyNum(currentUserId) {
        emitted := emitted + [IceCandidate(otherUserId.value, currentUserId.value, candidate.value)];
      }
    }

    /** The peer's `ontrack`: the first stream of the event becomes the remote
        stream. Only a live peer raises it. */
    method OnTrack(stream: MediaId)
      requires Valid() && peer.Some?
      modifies this
      ensures Valid()
      ensures old(Released()) ==> Released()
      ensures remoteStream == Some(stream)
      ensures inCall == old(inCall) && callType == old(callType) && isCaller == old(isCaller)
      ensures incomingCall == old(incomingCall) && isCallModalOpen == old(isCallModalOpen)
      ensures isMaximized == old(isMaximized) && localStream == old(localStream) && peer == old(peer)
      ensures currentUserId == old(currentUserId) && otherUserId == old(otherUserId) && emitted == old(emitted)
    {
      remoteStream := Some(stream);
    }
  }

  /** A full call on the caller's side: start, answered, hang up. Exactly an
      offer and an end message go to the callee, and everything is released. */
  method ScenarioCallerHangsUp() returns (signals: seq<Signal>, connected: bool, open: bool, media: Option<MediaId>)
    ensures signals == [Initiate(2, 1, Video, "offer"), EndCall(2, 1)]
    ensures connected && !open && media.None?
  {
    var m := new CallManager();
    m.LoadCurrentUser(Some(1));
    m.StartCall(2, Video, 7, Some(8), "offer");
    m.HandleCallAnswered();
    connected := m.inCall;
    m.End();
    signals, open, media := m.emitted, m.isCallModalOpen, m.localStream;
  }

  /** As written: when the caller hangs up, the callee's window closes but its
      `localStream` state still holds the (ended) camera and microphone
      stream. */
  method ScenarioRemoteEndKeepsStream() returns (open: bool, media: Option<MediaId>)
    ensures !open && media == Some(8)
  {
    var m := new CallManager();
    m.LoadCurrentUser(Some(2));
    m.HandleIncomingCall(1, Audio, "offer");
    m.AcceptCall(7, Some(8), "answer");
    m.HandleRemoteEnd();
    open, media := m.isCallModalOpen, m.localStream;
  }

  /** Corrected: the same exchange clears the stream. */
  method ScenarioRemoteEndClearsStream() returns (open: bool, media: Option<MediaId>)
    ensures !open && media.None?
  {
    var m := new CallManager();
    m.LoadCurrentUser(Some(2));
    m.HandleIncomingCall(1, Audio, "offer");
    m.AcceptCall(7, Some(8), "answer");
    m.HandleRemoteEndChecked();
    open, media := m.isCallModalOpen, m.localStream;
  }
}
