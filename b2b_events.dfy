/** What a back-to-back leg exchanges with the outside: the events legs
    post to each other, what the collaborators answer while one event is
    handled, and the record of what the leg hands to its collaborators. */
module B2BEvents {
  import opened SipMessages
  import opened RelayStreams

  /** Which side of the bridged call a session is: the caller leg
      (AmB2BCallerSession, a_leg) or the callee leg (AmB2BCalleeSession). */
  datatype Role = Caller | Callee

  datatype B2BMode = Transparent | SdpFilter

  /** The caller's view of its callee (callee_status). */
  datatype CalleeStatus = NoCallee | NoReply | Ringing | Connected

  datatype DialogStatus = DialogDisconnected | DialogPending | DialogConnected | DialogDisconnecting

  type NonEmptyString = s: string | s != "" witness "0"

  /** The collaborators' answers during one event: whether a post reaches
      the peer (the registry answers all posts of one event alike), whether
      this leg's own INVITE transaction is pending, the dialog status,
      whether the dialog sends what it is asked to, and the identity a new
      callee would get. */
  datatype Env = Env(
    postOk: bool,
    uacInvPending: bool,
    dialogStatus: DialogStatus,
    sendOk: bool,
    newId: NonEmptyString)

  /** The events legs post to each other. */
  datatype B2BEvent =
    | SipRequestEv(req: SipRequest, forward: bool)
    | SipReplyEv(reply: SipReply, forward: bool, transMethod: string)
    | TerminateLegEv
    | ConnectLegEv(remoteParty: string, remoteUri: string, contentType: string, body: string,
                   hdrs: string, relayedInvite: bool, rCseq: nat)

  /** What a leg hands to its collaborators, in order. */
  datatype Effect =
    | Posted(to: string, ev: B2BEvent, delivered: bool)
    | CalleeCreated(id: string)
    | RequestSent(sipMethod: string, contentType: string, body: string, hdrs: string, cseq: nat, ok: bool)
    | ReplySent(orig: SipRequest, code: nat, reason: string, contentType: string, body: string, hdrs: string)
    | AckSent(t: Transaction, contentType: string, body: string, hdrs: string)
    | ByeSent
    | StreamsRemoved(sockets: seq<nat>)
    | LocalRequest(req: SipRequest)
    | LocalReply(reply: SipReply, transMethod: string)
    | LocalRefresh(ok: bool)
    | LocalInvite2xx(reply: SipReply)
    | LocalSessionStart(req: SipRequest)

  /** The events for which a caller without a callee creates one before
      posting: a forwarded SIP request or reply, or a connect event. */
  predicate CreatesCallee(ev: B2BEvent) {
    match ev
    case SipRequestEv(_, fwd) => fwd
    case SipReplyEv(_, fwd, _) => fwd
    case ConnectLegEv(_, _, _, _, _, _, _) => true
    case TerminateLegEv => false
  }

  /** What telling the peer to terminate hands over: a terminate event
      posted to the peer, when there is one. */
  function TerminatePost(peer: string, postOk: bool): seq<Effect> {
    if peer != "" then [Posted(peer, TerminateLegEv, postOk)] else []
  }

  /** A forwarded INVITE from the peer that waits because this leg's own
      INVITE transaction is pending. */
  predicate Deferred(req: SipRequest, fwd: bool, invPending: bool) {
    fwd && req.sipMethod == INVITE && invPending
  }

  /** An unforwarded BYE or CANCEL from the peer, which ends this leg. */
  predicate PeerEnds(req: SipRequest, fwd: bool) {
    !fwd && (req.sipMethod == BYE || req.sipMethod == CANCEL)
  }

  /** The 491 a leg relays back for a peer INVITE it cannot send yet: only
      code, reason and CSeq are set, so its local tag is empty. */
  function PendingReply(cseq: nat): SipReply {
    SynthesizedReply(491, "Request Pending", cseq, "")
  }

  /** The 400 a callee relays back when its INVITE cannot be sent. */
  function BadRequestReply(cseq: nat, localTag: string): SipReply {
    SynthesizedReply(400, "Bad Request", cseq, localTag)
  }

  /** The caller's dialog check on a reply from its peer. */
  predicate FromCurrentCallee(otherId: string, reply: SipReply) {
    reply.localTag == otherId
  }

  /** A 491 relayed by a callee never passes the caller's dialog check
      while the caller has a callee, so the caller neither advances its
      state nor relays the 491 to its own side. */
  lemma PendingReplyFailsCallerCheck(otherId: string, cseq: nat)
    requires otherId != ""
    ensures !FromCurrentCallee(otherId, PendingReply(cseq))
  {
  }

  /** The 400 of a failed callee INVITE carries the callee's tag, which is
      the caller's other_id, so it passes the check. */
  lemma BadRequestPassesCallerCheck(calleeTag: string, cseq: nat)
    ensures FromCurrentCallee(calleeTag, BadRequestReply(cseq, calleeTag))
  {
  }
}
