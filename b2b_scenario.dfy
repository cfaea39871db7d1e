/** The two legs together: an INVITE relayed from the caller's side to the
    callee's, its 200 relayed back, and the ACK relayed forward, each leg
    handling one event at a time through the same handlers as the legs
    use on their own. */
module B2BScenario {
  import opened Wrappers
  import opened SipMessages
  import opened SessionDescription
  import opened RelayStreams
  import opened TransactionLedger
  import opened B2BEvents
  import opened B2B

  /** The caller, in SIP relay mode and without a callee, receives a
      request: it records it and creates the callee to post it to. */
  method RequestAtFreshCaller(caller: B2BSession, req: SipRequest, env: Env)
    requires caller.Valid() && caller.role == Caller && caller.sipRelayOnly && caller.otherId == ""
    requires req.sipMethod != BYE && req.sipMethod != CANCEL && req.cseq !in caller.recvdReq
    modifies caller`recvdReq, caller`trace, caller`otherId, caller.relayStreams
    ensures caller.recvdReq == old(caller.recvdReq)[req.cseq := req]
    ensures caller.otherId == env.newId
  {
    caller.OnSipRequest(req, env);
  }

  /** The caller, linked to its callee, receives a request it relays. */
  method RequestAtLinkedCaller(caller: B2BSession, req: SipRequest, env: Env)
    requires caller.Valid() && caller.sipRelayOnly && caller.otherId != ""
    requires req.sipMethod != BYE && req.sipMethod != CANCEL && req.cseq !in caller.recvdReq
    modifies caller`recvdReq, caller`trace, caller`otherId, caller.relayStreams
    ensures caller.recvdReq == old(caller.recvdReq)[req.cseq := req]
    ensures caller.otherId == old(caller.otherId)
  {
    caller.OnSipRequest(req, env);
  }

  /** The callee relays a forwarded request from the caller. */
  method RequestAtCallee(callee: B2BSession, req: SipRequest, env: Env)
    requires callee.Valid() && callee.role == Callee && !env.uacInvPending
    modifies callee`recvdReq, callee`relayedReq, callee`dlgCseq, callee`trace, callee`establishedContentType,
             callee`establishedBody, callee`bodyHash, callee`otherId, callee`stopped, callee.otherStreamFds
    ensures callee.Valid()
    ensures callee.relayedReq == RelayedAfterRelay(old(callee.relayedReq), old(callee.dlgCseq), req)
    ensures callee.dlgCseq == old(callee.dlgCseq) + (if req.sipMethod != ACK && env.sendOk then 1 else 0)
    ensures callee.otherId == old(callee.otherId)
  {
    callee.BaseOnB2BEvent(SipRequestEv(req, true), env);
  }

  /** The callee receives the reply to a request it relayed, and posts it
      back under the caller's CSeq. */
  method ReplyAtCallee(callee: B2BSession, reply: SipReply, env: Env)
    requires callee.Valid() && callee.role == Callee
    modifies callee`relayedReq, callee`trace, callee`otherId, callee.relayStreams
    ensures callee.relayedReq == RelayedAfterReply(old(callee.relayedReq), reply)
    ensures callee.otherId == old(callee.otherId)
  {
    callee.OnSipReply(reply, INVITE, env);
  }

  /** The caller, without a callee state of its own, receives its callee's
      forwarded reply and answers its side. */
  method ReplyAtCaller(caller: B2BSession, reply: SipReply, env: Env)
    requires caller.Valid() && caller.role == Caller && caller.calleeStatus == NoCallee
    requires reply.localTag == caller.otherId
    modifies caller`recvdReq, caller`relayedReq, caller`dlgCseq, caller`trace, caller`establishedContentType,
             caller`establishedBody, caller`bodyHash, caller`otherId, caller`stopped, caller.otherStreamFds,
             caller`calleeStatus, caller`sipRelayOnly
    ensures caller.recvdReq == RecvdAfterPeerReply(old(caller.recvdReq), reply, true)
    ensures caller.otherId == old(caller.otherId) && caller.sipRelayOnly == old(caller.sipRelayOnly)
    ensures caller.Valid()
  {
    caller.CallerOnB2BEvent(SipReplyEv(reply, true, INVITE), env);
  }

  /** A leg relaying RTP receives the peer's unforwarded BYE: it stops,
      forgets every peer socket, releases the relay and says BYE on its
      connected dialog. */
  method PeerByeWithRelay(leg: B2BSession, bye: SipRequest, env: Env)
    requires leg.Valid() && leg.rtpRelayEnabled && bye.sipMethod == BYE && env.dialogStatus == DialogConnected
    modifies leg`recvdReq, leg`relayedReq, leg`dlgCseq, leg`trace, leg`establishedContentType,
             leg`establishedBody, leg`bodyHash, leg`otherId, leg`stopped, leg.otherStreamFds
    ensures leg.stopped
    ensures forall i :: 0 <= i < leg.otherStreamFds.Length ==> leg.otherStreamFds[i] == 0
    ensures leg.trace == old(leg.trace)
      + [StreamsRemoved(ReleasedSockets(old(leg.otherStreamFds[..]), leg.relayStreams[..], MaxRelayStreams)), ByeSent]
  {
    leg.BaseOnB2BEvent(SipRequestEv(bye, false), env);
  }

  /** The caller, not yet relaying SIP only and with early media on, gets
      a 183 with a description from its callee but cannot re-INVITE its
      side: it tells the callee to end, says BYE, stops, and still ends up
      Ringing. */
  method EarlyMediaReinviteFails(caller: B2BSession, r: SipReply, env: Env)
    requires caller.Valid() && caller.role == Caller && !caller.rtpRelayEnabled
    requires caller.calleeStatus == NoReply && !caller.sipRelayOnly && caller.sipRelayEarlyMediaSdp
    requires caller.otherId != "" && r.localTag == caller.otherId
    requires r.code == 183 && r.body != "" && r.cseq == caller.inviteReq.cseq
    requires !env.sendOk && env.dialogStatus == DialogConnected
    modifies caller`recvdReq, caller`relayedReq, caller`dlgCseq, caller`trace, caller`establishedContentType,
             caller`establishedBody, caller`bodyHash, caller`otherId, caller`stopped, caller.otherStreamFds,
             caller`calleeStatus, caller`sipRelayOnly
    ensures caller.stopped && caller.otherId == "" && caller.calleeStatus == Ringing
    ensures caller.trace == old(caller.trace)
      + [RequestSent(INVITE, r.contentType, r.body, "", old(caller.dlgCseq), false),
         Posted(old(caller.otherId), TerminateLegEv, env.postOk),
         ByeSent]
  {
    caller.CallerOnB2BEvent(SipReplyEv(r, false, INVITE), env);
  }

  /** The caller, not yet relaying SIP only, gets its callee's 200 with a
      new description: it re-INVITEs its side once. The common handler then
      finds that INVITE transaction pending and does not re-INVITE again. */
  method CalleeOkReinvitesOnce(caller: B2BSession, r: SipReply, env: Env)
    requires caller.Valid() && caller.role == Caller
    requires caller.calleeStatus == NoReply && !caller.sipRelayOnly
    requires caller.otherId != "" && r.localTag == caller.otherId
    requires r.code == 200 && r.sipMethod == INVITE && r.cseq == caller.inviteReq.cseq
    requires r.body != "" && r.contentType != "" && caller.bodyHash != caller.hash(HashRegion(r.contentType, r.body))
    requires env.sendOk && !env.uacInvPending
    modifies caller`recvdReq, caller`relayedReq, caller`dlgCseq, caller`trace, caller`establishedContentType,
             caller`establishedBody, caller`bodyHash, caller`otherId, caller`stopped, caller.otherStreamFds,
             caller`calleeStatus, caller`sipRelayOnly
    ensures caller.calleeStatus == Connected && caller.sipRelayOnly && caller.stopped == old(caller.stopped)
    ensures caller.dlgCseq == old(caller.dlgCseq) + 1
    ensures caller.trace == old(caller.trace) + [RequestSent(INVITE, r.contentType, r.body, "", old(caller.dlgCseq), true)]
    ensures caller.Cache() == Saved(caller.hash, r.contentType, r.body)
  {
    ghost var rv := caller.Relay();
    ghost var s0 := caller.State();
    var ev := SipReplyEv(r, false, INVITE);
    ghost var reinvited := s0.(cseq := s0.cseq + 1, trace := s0.trace + [RequestSent(INVITE, r.contentType, r.body, "", s0.cseq, true)]);
    assert caller.CalleeState(rv, r, NoReply, false, caller.inviteReq.cseq, s0, env) == reinvited;
    ghost var answers := caller.AnswersAfterCalleeStep(r, NoReply, false, caller.inviteReq.cseq, env);
    assert answers.uacInvPending;
    assert caller.HandledState(rv, ev, reinvited, answers) == reinvited.(cache := Saved(caller.hash, r.contentType, r.body));
    caller.CallerOnB2BEvent(ev, env);
  }

  /** A relayed INVITE / 200 / ACK exchange through a caller leg in SIP
      relay mode and the callee it creates on the way. The callee forgets
      the INVITE once the ACK is relayed, while the caller is left holding
      the forwarded ACK in recvd_req, under the INVITE's CSeq. */
  method RelayedInviteExchange(inv: SipRequest, ok: SipReply, ack: SipRequest, callerTag: string, calleeTag: NonEmptyString,
                               hash: string -> uint32, parseSdp: string -> Option<SdpBody>, printSdp: SdpBody -> string,
                               ip: string, streams: seq<RelayStream>, callerCseq: nat, calleeCseq: nat)
    returns (caller: B2BSession, callee: B2BSession)
    requires inv.sipMethod == INVITE && ack.sipMethod == ACK && ack.cseq == inv.cseq
    requires ok.code == 200 && ok.cseq == calleeCseq && ok.localTag == calleeTag
    requires |streams| == MaxRelayStreams
    ensures caller.otherId == calleeTag && callee.otherId == callerTag
    ensures callee.relayedReq == map[]
    ensures caller.recvdReq == map[inv.cseq := ack]
    ensures callee.dlgCseq == calleeCseq + 1
  {
    var env := Env(true, false, DialogConnected, true, calleeTag);
    caller := new B2BSession.CallerLeg(callerTag, hash, parseSdp, printSdp, ip, streams, callerCseq, false);

    // The INVITE arrives at the caller, which creates the callee and posts.
    RequestAtFreshCaller(caller, inv, env);
    callee := new B2BSession.CalleeLeg(calleeTag, callerTag, caller.b2bMode, hash, parseSdp, printSdp, ip, streams, calleeCseq, false);

    // The callee relays the INVITE with its own CSeq.
    RequestAtCallee(callee, inv, env);
    ghost var t := Transaction(INVITE, inv.cseq, inv.tt);
    assert callee.relayedReq == map[calleeCseq := t];

    // The callee's 200 goes back under the caller's CSeq; the entry waits.
    ReplyAtCallee(callee, ok, env);
    assert callee.relayedReq == map[calleeCseq := t];

    // The caller answers its side and forgets the INVITE.
    ReplyAtCaller(caller, ok.(cseq := inv.cseq), env);
    assert caller.recvdReq == map[];

    // The ACK arrives at the caller and is relayed as the callee's 2xx ACK.
    RequestAtLinkedCaller(caller, ack, env);
    FirstMatchUnique(callee.relayedReq, ack.cseq, calleeCseq);
    RequestAtCallee(callee, ack, env);
  }
}
